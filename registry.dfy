/** The command registry: a tree of command managers, each holding its own
    table of command descriptors and its named child managers
    ("submanagers"). A dotted path is dispatched one segment at a time. */
module Registry {
  import opened Values
  import opened Streams

  /** The `type` of a command descriptor: registered by `@command` or by
      `@monitor`. Metadata only; dispatch ignores it. */
  datatype CommandType = PlainCommand | MonitorCommand

  /** The descriptor object `{type: 'command'}` or `{type: 'monitor'}`. */
  function DescriptorValue(t: CommandType): (v: Value)
    ensures Truthy(v) && v.Obj? && v.fields.Keys == {"type"}
    ensures v.fields["type"] == Str("command") <==> t.PlainCommand?
    ensures v.fields["type"] == Str("monitor") <==> t.MonitorCommand?
  {
    Record1("type", Str(if t.PlainCommand? then "command" else "monitor"))
  }

  /** The commands every manager registers for itself. */
  const BuiltinCommands: set<string> := {"getSubmanagers", "removeSubmanager", "getCommands"}

  /** `k` is local (no dot), or its first segment is one of `names`. */
  predicate ThroughChildren(k: string, names: set<string>) {
    match SplitAtFirstDot(k)
    case None => true
    case Some((first, _)) => first in names
  }

  /** `k` is `sm + "." + cm` for some `cm` in `keys`. */
  predicate PrefixedKey(sm: string, keys: set<string>, k: string) {
    SplitAtFirstDot(k).Some? && SplitAtFirstDot(k).value.0 == sm && SplitAtFirstDot(k).value.1 in keys
  }

  /** Where a path resolved to: the command `name` of manager `node`. */
  datatype Target = Target(node: CommandManager, name: string)

  class CommandManager {
    /** `constructor.name` of the manager, reported by `getSubmanagers`. */
    const className: string
    /** `commands`: the descriptor of every command this manager handles. */
    var commands: map<string, CommandType>
    /** `submanagers`: the child managers by name. */
    var submanagers: map<string, CommandManager>
    /** This manager and every manager below it. */
    ghost var Repr: set<CommandManager>

    /** The local shape of one manager: it belongs to its own tree, every
        manager in that tree has its tree inside this one, none of them has
        this manager below it (no cycles), and no command or child name has a
        dot. */
    ghost predicate WellFormed()
      reads this, Repr
    {
      && this in Repr
      && (forall m | m in Repr :: m.Repr <= Repr)
      && (forall m | m in Repr && m != this :: this !in m.Repr)
      && (forall name | name in commands :: '.' !in name)
      && (forall sm | sm in submanagers :: '.' !in sm && submanagers[sm] in Repr && submanagers[sm] != this)
    }

    /** Every manager of the tree below this one is well formed. */
    ghost predicate Valid()
      reads this, Repr
    {
      this in Repr && forall m | m in Repr :: m.Repr <= Repr && m.WellFormed()
    }

    /** A child of a valid manager heads a valid, strictly smaller tree. */
    lemma ChildValid(sm: string)
      requires Valid() && sm in submanagers
      ensures submanagers[sm].Valid() && submanagers[sm].Repr < Repr
    {
      assert WellFormed();
    }

    /** Every manager of a valid tree heads a valid tree of its own. */
    lemma DescendantValid(n: CommandManager)
      requires Valid() && n in Repr
      ensures n.Valid() && n.Repr <= Repr
    {
    }

    constructor (className: string)
      ensures Valid() && Repr == {this}
      ensures this.className == className && submanagers == map[]
      ensures commands == map name | name in BuiltinCommands :: PlainCommand
    {
      this.className := className;
      commands := map name | name in BuiltinCommands :: PlainCommand;
      submanagers := map[];
      Repr := {this};
    }

    /** What the `@command` and `@monitor` decorators do to the prototype:
        record the descriptor of command `name`. */
    method Register(name: string, kind: CommandType)
      requires Valid() && '.' !in name && name !in BuiltinCommands
      modifies this
      ensures Valid() && Repr == old(Repr)
      ensures commands == old(commands)[name := kind] && submanagers == old(submanagers)
    {
      commands := commands[name := kind];
    }

    /** Mounts `manager` under `name`, replacing any child of that name. */
    method AddSubmanager(name: string, manager: CommandManager)
      requires Valid() && manager.Valid()
      requires '.' !in name && this !in manager.Repr
      modifies this
      ensures Valid() && Repr == old(Repr) + manager.Repr
      ensures submanagers == old(submanagers)[name := manager] && commands == old(commands)
    {
      submanagers := submanagers[name := manager];
      Repr := Repr + manager.Repr;
    }

    /** The `removeSubmanager` command: forget the child called `name`. */
    method RemoveSubmanager(name: string, ghost root: CommandManager)
      requires root.Valid() && this in root.Repr
      modifies this
      ensures root.Valid() && root.Repr == old(root.Repr) && Repr == old(Repr)
      ensures submanagers == old(submanagers) - {name} && commands == old(commands)
    {
      assert forall m | m in root.Repr :: m.WellFormed();
      submanagers := submanagers - {name};
      forall m | m in root.Repr
        ensures m.WellFormed()
      {
        assert old(m.WellFormed());
      }
    }

    /** The `getSubmanagers` command: the class name of every immediate child,
        by the name it is mounted under. Grandchildren are not listed. */
    method GetSubmanagers() returns (classes: map<string, string>)
      ensures classes.Keys == submanagers.Keys
      ensures forall sm | sm in classes :: classes[sm] == submanagers[sm].className
    {
      classes := map[];
      var pending := submanagers.Keys;
      while pending != {}
        invariant pending <= submanagers.Keys
        invariant classes.Keys == submanagers.Keys - pending
        invariant forall sm | sm in classes :: classes[sm] == submanagers[sm].className
        decreases pending
      {
        var sm :| sm in pending;
        classes := classes[sm := submanagers[sm].className];
        pending := pending - {sm};
      }
    }

    /** The local table alone lists exactly what resolves without passing
        through a child. */
    lemma LocalListing()
      requires Valid()
      ensures forall k :: k in commands <==> Resolve(k).Success? && ThroughChildren(k, {})
      ensures forall k | k in commands :: commands[k] == ResolvedType(k)
    {
    }

    /** Whatever resolves either is local or goes through a child. */
    lemma EveryPathThroughChildren()
      requires Valid()
      ensures forall k | Resolve(k).Success? :: ThroughChildren(k, submanagers.Keys)
    {
    }

    /** The dispatch of `executeCommand(command, params)`: a path without a dot
        names a command of this manager; otherwise the segment before the
        first dot names a child, which dispatches the remainder. */
    function Resolve(path: string): (r: Result<Target, Failure>)
      requires Valid()
      reads this, Repr
      decreases Repr
      ensures r.Success? ==> r.value.node in Repr && r.value.name in r.value.node.commands
      ensures r.Success? ==> '.' !in r.value.name
      ensures r.Failure? ==> (r.error.ManagerNotFound? && '.' !in r.error.manager)
                             || (r.error.CommandNotFound? && '.' !in r.error.command)
    {
      match SplitAtFirstDot(path)
      case None =>
        if path in commands then Success(Target(this, path)) else Failure(CommandNotFound(path))
      case Some((manager, rest)) =>
        if manager !in submanagers then Failure(ManagerNotFound(manager))
        else
          ChildValid(manager);
          submanagers[manager].Resolve(rest)
    }

    /** The descriptor of the command `path` resolves to. */
    ghost function ResolvedType(path: string): CommandType
      requires Valid() && Resolve(path).Success?
      reads this, Repr
    {
      var t := Resolve(path).value;
      t.node.commands[t.name]
    }

    /** The `getCommands` command: the flattened table of every command that
        can be reached from this manager. A key is listed exactly when
        dispatching it finds a command, and it is listed with that command's
        descriptor. */
    method GetCommands() returns (listing: map<string, CommandType>)
      requires Valid()
      ensures forall k :: k in listing <==> Resolve(k).Success?
      ensures forall k | k in listing :: listing[k] == ResolvedType(k)
      decreases Repr, 1
    {
      listing := commands;
      LocalListing();
      var pending := submanagers.Keys;
      ghost var done: set<string> := {};
      while pending != {}
        invariant pending + done == submanagers.Keys && pending !! done
        invariant forall k :: k in listing <==> Resolve(k).Success? && ThroughChildren(k, done)
        invariant forall k | k in listing :: listing[k] == ResolvedType(k)
        decreases pending
      {
        var sm :| sm in pending;
        listing := MergeChild(sm, done, listing);
        done := done + {sm};
        pending := pending - {sm};
      }
      EveryPathThroughChildren();
    }

    /** One round of the loop of `getCommands`: fetch the listing of child
        `sm` and copy it in under the prefix `sm + "."`. */
    method MergeChild(sm: string, ghost done: set<string>, listing: map<string, CommandType>)
      returns (merged: map<string, CommandType>)
      requires Valid() && sm in submanagers && sm !in done
      requires forall k :: k in listing <==> Resolve(k).Success? && ThroughChildren(k, done)
      requires forall k | k in listing :: listing[k] == ResolvedType(k)
      ensures forall k :: k in merged <==> Resolve(k).Success? && ThroughChildren(k, done + {sm})
      ensures forall k | k in merged :: merged[k] == ResolvedType(k)
      decreases Repr, 0
    {
      ChildValid(sm);
      var sublisting := submanagers[sm].GetCommands();
      merged := CopyPrefixed(sm, sublisting, listing);
      ListingStep(done, sm, sublisting, listing, merged);
    }

    /** One round of `getCommands`' loop: merging child `sm`'s listing into a
        listing of what resolves through the children in `done` gives a
        listing of what resolves through `done + {sm}`. */
    lemma ListingStep(done: set<string>, sm: string, sublisting: map<string, CommandType>,
                      previous: map<string, CommandType>, listing: map<string, CommandType>)
      requires Valid() && sm in submanagers && sm !in done
      requires forall c :: c in sublisting <==> submanagers[sm].Resolve(c).Success?
      requires forall c | c in sublisting :: sublisting[c] == submanagers[sm].ResolvedType(c)
      requires forall k :: k in previous <==> Resolve(k).Success? && ThroughChildren(k, done)
      requires forall k | k in previous :: previous[k] == ResolvedType(k)
      requires forall k :: k in listing <==> k in previous || PrefixedKey(sm, sublisting.Keys, k)
      requires forall k | k in listing ::
                 listing[k] == if PrefixedKey(sm, sublisting.Keys, k) then sublisting[SplitAtFirstDot(k).value.1] else previous[k]
      ensures forall k :: k in listing <==> Resolve(k).Success? && ThroughChildren(k, done + {sm})
      ensures forall k | k in listing :: listing[k] == ResolvedType(k)
    {
      ChildValid(sm);
      forall k
        ensures k in listing <==> Resolve(k).Success? && ThroughChildren(k, done + {sm})
        ensures k in listing ==> listing[k] == ResolvedType(k)
      {
      }
    }

    /** A dotted path whose first segment `sm` has no dot of its own is handed
        to child `sm` with the rest of the path; an unknown `sm` fails with
        `ManagerNotFound(sm)`, never `CommandNotFound`. */
    lemma {:induction false} ResolveConsumesFirstSegment(sm: string, rest: string)
      requires Valid() && '.' !in sm
      ensures sm in submanagers ==> Resolve(sm + "." + rest) == submanagers[sm].Resolve(rest)
      ensures sm !in submanagers ==> Resolve(sm + "." + rest) == Failure(ManagerNotFound(sm))
    {
      SplitOfJoin(sm, rest);
    }

    /** Dispatch lands on a command named by the last segment of the path,
        and a dotted path lands strictly below this manager. */
    lemma {:induction false} ResolveLandsOnLastSegment(path: string)
      requires Valid()
      ensures Resolve(path).Success? ==> Resolve(path).value.name == LastSegment(path)
      ensures Resolve(path).Success? && '.' in path ==> Resolve(path).value.node != this
      decreases Repr
    {
      match SplitAtFirstDot(path)
      case None =>
      case Some((manager, rest)) =>
        if manager in submanagers {
          ChildValid(manager);
          submanagers[manager].ResolveLandsOnLastSegment(rest);
          assert WellFormed();
        }
    }

    /** A path without a dot never leaves this manager. */
    lemma {:induction false} ResolveDotlessIsLocal(name: string)
      requires Valid() && '.' !in name
      ensures name in commands ==> Resolve(name) == Success(Target(this, name))
      ensures name !in commands ==> Resolve(name) == Failure(CommandNotFound(name))
    {
    }
  }

  /** Copies a child's listing into `listing` with every key prefixed by
      `sm + "."`; a copied entry wins over an entry already there. */
  method CopyPrefixed(sm: string, sublisting: map<string, CommandType>, listing: map<string, CommandType>)
    returns (merged: map<string, CommandType>)
    requires '.' !in sm
    ensures forall k :: k in merged <==> k in listing || PrefixedKey(sm, sublisting.Keys, k)
    ensures forall k | k in merged ::
              merged[k] == if PrefixedKey(sm, sublisting.Keys, k) then sublisting[SplitAtFirstDot(k).value.1] else listing[k]
  {
    merged := listing;
    var inner := sublisting.Keys;
    ghost var copied: set<string> := {};
    while inner != {}
      invariant inner + copied == sublisting.Keys && inner !! copied
      invariant forall k :: k in merged <==> k in listing || PrefixedKey(sm, copied, k)
      invariant forall k | k in merged ::
                  merged[k] == if PrefixedKey(sm, copied, k) then sublisting[SplitAtFirstDot(k).value.1] else listing[k]
      decreases inner
    {
      var cm :| cm in inner;
      SplitOfJoin(sm, cm);
      forall k | PrefixedKey(sm, copied + {cm}, k) && !PrefixedKey(sm, copied, k)
        ensures k == sm + "." + cm
      {
        SplitAtFirstDotJoins(k);
      }
      merged := merged[sm + "." + cm := sublisting[cm]];
      inner := inner - {cm};
      copied := copied + {cm};
    }
  }
}
