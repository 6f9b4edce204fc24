/** The root manager: it owns the command registry, the result buffer and
    the monitor table, runs the executions `poll` dispatches, and turns what
    each command settles to into result envelopes. */
module Main {
  import opened Values
  import opened Results
  import opened Streams
  import opened Registry
  import opened Screening

  /** How a command's handler settles, as far as the execution driver can
      tell: a plain value; a `Monitor` bound to `event` of `source`; an
      `Iterator` whose producer pushes `items` and then returns, or throws
      `producerFailure`; or an exception. */
  datatype Outcome =
    | Returned(v: Value)
    | ReturnedMonitor(source: string, event: string, mapping: seq<Value> -> Value)
    | ReturnedIterator(items: seq<Value>, producerFailure: Option<Failure>)
    | Threw(f: Failure)

  /** A monitor a `stopMonitor` call released, with the exId of the
      execution that returned it: that execution ends once the call settles. */
  datatype Released = Released(monitor: Monitor, exId: Value)

  /** An execution after its synchronous part: its exId, what its command
      settled to, and the monitor its `stopMonitor` command released. */
  datatype Started = Started(exId: Value, outcome: Outcome, released: Option<Released>)

  /** A command that is neither a string nor an array has no `indexOf`. */
  const CommandNotAString: Failure := EngineTypeError("command.indexOf is not a function")
  /** An array command with an element `"."` passes the `indexOf` test and
      then has no `split`. */
  const ArrayCommandNotSplit: Failure := EngineTypeError("command.split is not a function")
  /** `stopMonitor({monitorId})` cannot destructure `undefined` or `null`. */
  const ParamsNotDestructurable: Failure := EngineTypeError("Cannot destructure property 'monitorId'")

  /** One PARTIAL envelope per payload, in order. */
  function Partials(exId: Value, payloads: seq<Value>): (es: seq<Envelope>)
    ensures |es| == |payloads|
    ensures forall i | 0 <= i < |payloads| :: es[i] == MakeEnvelope(exId, Partial, payloads[i])
  {
    seq(|payloads|, i requires 0 <= i < |payloads| => MakeEnvelope(exId, Partial, payloads[i]))
  }

  /** The end of a monitor's execution: the ERROR envelope for `StopMonitor`. */
  function MonitorEnd(sink: Value): (e: Envelope)
    ensures e.exId == sink && e.kind == Error && IsStreamEnd(e.params)
    ensures e.params == Obj(map["name" := Str("StopMonitor"), "message" := Str(""), "params" := EmptyObject])
  {
    MakeEnvelope(sink, Error, ErrorPayload(StopMonitor))
  }

  /** The envelopes the driver sets once the command of `exId` has settled to
      `o`: a value is the one FINAL result; an iterator's items are PARTIAL
      results closed by one ERROR (`StopIterator`, or the producer's own
      failure); an exception is one ERROR; a monitor sets nothing yet. */
  function Settle(exId: Value, o: Outcome): (es: seq<Envelope>)
    ensures forall i | 0 <= i < |es| :: es[i].exId == exId
    ensures o.ReturnedMonitor? <==> es == []
    ensures es != [] ==> es[|es| - 1].kind != Partial && forall i | 0 <= i < |es| - 1 :: es[i].kind == Partial
    ensures es != [] ==> (o.Returned? <==> es[|es| - 1].kind == Final)
    ensures o.Returned? ==> |es| == 1 && es[0].params == OrEmpty(o.v)
    ensures o.Threw? ==> |es| == 1 && es[0].params == ErrorPayload(o.f)
    ensures o.ReturnedIterator? ==> |es| == |o.items| + 1
    ensures o.ReturnedIterator? ==> forall i | 0 <= i < |o.items| :: es[i].params == Record1("item", o.items[i])
    ensures o.ReturnedIterator? && o.producerFailure.None? ==> IsStreamEnd(es[|es| - 1].params)
    ensures o.ReturnedIterator? ==>
              es[|o.items|].params == ErrorPayload(if o.producerFailure.Some? then o.producerFailure.value else StopIterator)
  {
    match o
    case Returned(v) => [MakeEnvelope(exId, Final, v)]
    case ReturnedMonitor(_, _, _) => []
    case ReturnedIterator(items, failure) =>
      Partials(exId, IteratorPayloads(items))
        + [MakeEnvelope(exId, Error, ErrorPayload(if failure.Some? then failure.value else StopIterator))]
    case Threw(f) => [MakeEnvelope(exId, Error, ErrorPayload(f))]
  }

  /** What `getSubmanagers` returns for the children `classes` (their class
      names by mount name): `{sm: {class}}`. */
  function ClassesValue(classes: map<string, string>): (v: Value)
    ensures v.Obj? && v.fields.Keys == classes.Keys
    ensures forall sm | sm in classes :: v.fields[sm] == Record1("class", Str(classes[sm]))
  {
    Obj(map sm | sm in classes :: Record1("class", Str(classes[sm])))
  }

  /** What `getCommands` returns for a listing: the descriptor object of each
      listed command, by its path. */
  function ListingValue(listing: map<string, CommandType>): (v: Value)
    ensures v.Obj? && v.fields.Keys == listing.Keys
    ensures forall k | k in listing :: v.fields[k] == DescriptorValue(listing[k])
  {
    Obj(map k | k in listing :: DescriptorValue(listing[k]))
  }

  /** `o` is the `getCommands` result of `node`: every path that dispatch
      resolves from `node`, and nothing else, with its descriptor. */
  ghost predicate ListsCommandsOf(o: Outcome, node: CommandManager)
    requires node.Valid()
    reads node, node.Repr
  {
    && o.Returned? && o.v.Obj?
    && (forall k :: k in o.v.fields <==> node.Resolve(k).Success?)
    && (forall k | k in o.v.fields :: o.v.fields[k] == DescriptorValue(node.ResolvedType(k)))
  }

  /** The classes of the children of `node`, by mount name. */
  function ChildClasses(node: CommandManager): map<string, string>
    reads node
  {
    map sm | sm in node.submanagers :: node.submanagers[sm].className
  }


  /** Every envelope one execution sets after the drain, in order: the end
      of the monitor it released, if any, then its own settlement. */
  function Settlement(s: Started): seq<Envelope> {
    (if s.released.Some? then [MonitorEnd(s.released.value.exId)] else []) + Settle(s.exId, s.outcome)
  }

  /** The monitors that the `stopMonitor` executions among `pending`
      released. */
  ghost function ReleasedBy(pending: seq<Started>): set<Monitor> {
    if pending == [] then {}
    else
      var last := pending[|pending| - 1];
      ReleasedBy(pending[..|pending| - 1]) + (if last.released.Some? then {last.released.value.monitor} else {})
  }

  lemma ReleasedBySnoc(pending: seq<Started>, s: Started)
    ensures ReleasedBy(pending + [s]) == ReleasedBy(pending) + (if s.released.Some? then {s.released.value.monitor} else {})
  {
    assert (pending + [s])[..|pending|] == pending;
  }

  /** The partial results of two runs of payloads, one after the other. */
  lemma PartialsAppend(exId: Value, ps: seq<Value>, qs: seq<Value>)
    ensures Partials(exId, ps + qs) == Partials(exId, ps) + Partials(exId, qs)
  {
  }

  /** What each manager of a tree holds: its command table and its
      children by name. */
  type Tables = map<CommandManager, (map<string, CommandType>, map<string, CommandManager>)>

  /** From `before` to `now` entries were only deleted, and only under keys
      in `gone`: every entry of `now` is an entry of `before`. */
  ghost predicate Shrunk<K, V>(now: map<K, V>, before: map<K, V>, gone: set<K>) {
    && now.Keys <= before.Keys
    && now == before - (before.Keys - now.Keys)
    && before.Keys - now.Keys <= gone
  }

  lemma ShrunkTransitive<K, V>(a: map<K, V>, b: map<K, V>, c: map<K, V>, g1: set<K>, g2: set<K>, gone: set<K>)
    requires Shrunk(a, b, g1) && Shrunk(b, c, g2) && g1 + g2 <= gone
    ensures Shrunk(a, c, gone)
  {
  }

  /** A map from which nothing may have been deleted is unchanged. */
  lemma ShrunkByNothing<K, V>(now: map<K, V>, before: map<K, V>)
    requires Shrunk(now, before, {})
    ensures now == before
  {
    forall k | k in before
      ensures k in now
    {
      assert k !in before.Keys - now.Keys;
    }
    assert now.Keys == before.Keys;
  }

  /** From `before` to `now` no manager gained or lost a command, and
      children were only unmounted, under names in `gone`. */
  ghost predicate Narrowed(now: Tables, before: Tables, gone: set<string>) {
    && now.Keys == before.Keys
    && forall n | n in now :: now[n].0 == before[n].0 && Shrunk(now[n].1, before[n].1, gone)
  }

  lemma NarrowedTransitive(a: Tables, b: Tables, c: Tables, g1: set<string>, g2: set<string>, gone: set<string>)
    requires Narrowed(a, b, g1) && Narrowed(b, c, g2) && g1 + g2 <= gone
    ensures Narrowed(a, c, gone)
  {
    forall n | n in a
      ensures Shrunk(a[n].1, c[n].1, gone)
    {
      ShrunkTransitive(a[n].1, b[n].1, c[n].1, g1, g2, gone);
    }
  }

  /** A tree from which no child may have been unmounted is unchanged. */
  lemma NarrowedByNothing(now: Tables, before: Tables)
    requires Narrowed(now, before, {})
    ensures now == before
  {
    forall n | n in now
      ensures now[n] == before[n]
    {
      ShrunkByNothing(now[n].1, before[n].1);
    }
  }

  /** `t` after the manager `node`, if any, has dropped its child `name`. */
  function WithoutChild(t: Tables, node: Option<CommandManager>, name: string): Tables {
    if node.Some? && node.value in t then t[node.value := (t[node.value].0, t[node.value].1 - {name})] else t
  }

  /** Unmounting a child changes that manager's children alone, by that
      name alone: the tree is narrowed by that name and nothing else. */
  lemma WithoutChildNarrows(t: Tables, node: Option<CommandManager>, name: string)
    ensures var r := WithoutChild(t, node, name);
            && Narrowed(r, t, if node.Some? then {name} else {})
            && (forall n | n in t && node != Some(n) :: r[n] == t[n])
            && (node.Some? && node.value in t ==> r[node.value].1 == t[node.value].1 - {name})
  {
  }

  /** The monitor table after a `stopMonitor` call that looked up `key`, if
      any. */
  function WithoutKey(monitors: map<string, Monitor>, key: Option<string>): map<string, Monitor> {
    if key.Some? then monitors - {key.value} else monitors
  }

  /** Stopping a monitor deletes its key alone and keeps every other entry. */
  lemma WithoutKeyShrinks(monitors: map<string, Monitor>, key: Option<string>)
    ensures var r := WithoutKey(monitors, key);
            && Shrunk(r, monitors, if key.Some? then {key.value} else {})
            && (forall k :: k in r <==> k in monitors && key != Some(k))
  {
  }

  /** Allowing more names to go keeps a narrowing a narrowing. */
  lemma NarrowedWider(now: Tables, before: Tables, gone: set<string>, more: set<string>)
    requires Narrowed(now, before, gone) && gone <= more
    ensures Narrowed(now, before, more)
  {
    forall n | n in now
      ensures Shrunk(now[n].1, before[n].1, more)
    {
      ShrunkTransitive(now[n].1, before[n].1, before[n].1, gone, {}, more);
    }
  }

  /** `command` names the main manager's `stopMonitor` whatever the tree
      holds: it is that string, or an array without a `"."` element whose
      key is that string. */
  predicate NamesStopMonitor(command: Value) {
    || command == Str("stopMonitor")
    || (command.Arr? && Str(".") !in command.items && ToPropertyKey(command) == "stopMonitor")
  }

  /** The monitor-table key a dispatch of `command` with `params` deletes,
      if it is a `stopMonitor` call whose params can be destructured. */
  function StopKeyAt(command: Value, params: Value): Option<string> {
    if NamesStopMonitor(command) && Property(params, "monitorId").Some?
    then Some(ToPropertyKey(Property(params, "monitorId").value))
    else None
  }

  /** `command` can only reach a `removeSubmanager`: its path ends in that
      name, or it is an array whose key is that name. */
  predicate NamesRemoval(command: Value) {
    match command
    case Str(path) => LastSegment(path) == "removeSubmanager"
    case Arr(_) => ToPropertyKey(command) == "removeSubmanager"
    case _ => false
  }

  /** The monitor-table key the dispatch `d` may delete, as a set. */
  function Stops(d: Dispatch): set<string> {
    if StopKeyAt(d.command, d.params).Some? then {StopKeyAt(d.command, d.params).value} else {}
  }

  /** The child name the dispatch `d` may unmount, as a set. */
  function Unmounts(d: Dispatch): set<string> {
    if NamesRemoval(d.command) then {ToPropertyKey(d.params)} else {}
  }

  /** The monitor-table keys the dispatches `ds` may delete. */
  function StopKeys(ds: seq<Dispatch>): set<string> {
    if ds == [] then {} else StopKeys(ds[..|ds| - 1]) + Stops(ds[|ds| - 1])
  }

  /** The child names the dispatches `ds` may unmount. */
  function RemovedNames(ds: seq<Dispatch>): set<string> {
    if ds == [] then {} else RemovedNames(ds[..|ds| - 1]) + Unmounts(ds[|ds| - 1])
  }

  /** The dispatches so far, after one more item met the verdict `v`. */
  function Next(ds: seq<Dispatch>, v: Verdict): seq<Dispatch> {
    if v.Dispatched? then ds + [v.d] else ds
  }

  /** The monitor-table keys an item with verdict `v` may delete. */
  function VerdictStops(v: Verdict): set<string> {
    if v.Dispatched? then Stops(v.d) else {}
  }

  /** The child names an item with verdict `v` may unmount. */
  function VerdictUnmounts(v: Verdict): set<string> {
    if v.Dispatched? then Unmounts(v.d) else {}
  }

  /** A dispatch `d` whose removal, if any, is on a manager it names
      `removeSubmanager` of, and whose stop key is the one it names, unmounts
      and deletes only what `d` may. */
  lemma DispatchFrame(t: Tables, m: map<string, Monitor>, node: Option<CommandManager>, key: Option<string>, d: Dispatch)
    requires node.Some? ==> NamesRemoval(d.command)
    requires key == StopKeyAt(d.command, d.params)
    ensures Narrowed(WithoutChild(t, node, ToPropertyKey(d.params)), t, Unmounts(d))
    ensures Shrunk(WithoutKey(m, key), m, Stops(d))
  {
    WithoutChildNarrows(t, node, ToPropertyKey(d.params));
    NarrowedWider(WithoutChild(t, node, ToPropertyKey(d.params)), t, if node.Some? then {ToPropertyKey(d.params)} else {}, Unmounts(d));
    WithoutKeyShrinks(m, key);
  }

  /** One more item extends what the batch so far may have unmounted and
      deleted by what that item may. */
  lemma FrameStep(t: Tables, tPrev: Tables, t0: Tables,
                  m: map<string, Monitor>, mPrev: map<string, Monitor>, m0: map<string, Monitor>,
                  ds: seq<Dispatch>, v: Verdict)
    requires Narrowed(tPrev, t0, RemovedNames(ds)) && Narrowed(t, tPrev, VerdictUnmounts(v))
    requires Shrunk(mPrev, m0, StopKeys(ds)) && Shrunk(m, mPrev, VerdictStops(v))
    ensures Narrowed(t, t0, RemovedNames(Next(ds, v))) && Shrunk(m, m0, StopKeys(Next(ds, v)))
  {
    if v.Dispatched? {
      assert (ds + [v.d])[..|ds|] == ds;
    }
    NarrowedTransitive(t, tPrev, t0, VerdictUnmounts(v), RemovedNames(ds), RemovedNames(Next(ds, v)));
    ShrunkTransitive(m, mPrev, m0, VerdictStops(v), StopKeys(ds), StopKeys(Next(ds, v)));
  }

  /** The monitor-table keys of the executions among `pending` whose
      command returned a monitor. */
  function MonitorKeys(pending: seq<Started>): set<string> {
    if pending == [] then {}
    else
      var last := pending[|pending| - 1];
      MonitorKeys(pending[..|pending| - 1]) + (if last.outcome.ReturnedMonitor? then {ToPropertyKey(last.exId)} else {})
  }

  /** The settlements of `pending`, one execution after the other. */
  function Settlements(pending: seq<Started>): seq<Envelope> {
    if pending == [] then [] else Settlements(pending[..|pending| - 1]) + Settlement(pending[|pending| - 1])
  }

  class MainManager {
    /** The command table and the submanagers of the main manager itself. */
    const registry: CommandManager
    const resultManager: ResultManager
    const monitorManager: MonitorManager
    /** Every monitor an execution of this manager has returned. */
    ghost var created: set<Monitor>
    /** The monitors a `stopMonitor` call has released. */
    ghost var stopped: set<Monitor>
    /** Every `executeCommand(exId, command, params)` call so far, in order. */
    ghost var log: seq<Dispatch>

    /** Each monitor in the table is a live monitor this manager created,
        stored under the key of its own exId; each monitor `stopMonitor`
        released was created here and stays released. */
    ghost predicate MonitorsValid()
      reads this, monitorManager, created
    {
      && stopped <= created
      && (forall m | m in stopped :: m.released)
      && (forall key | key in monitorManager.monitors ::
            && monitorManager.monitors[key] in created
            && monitorManager.monitors[key].listening
            && !monitorManager.monitors[key].released
            && ToPropertyKey(monitorManager.monitors[key].sink) == key)
    }

    ghost predicate Valid()
      reads this, registry, registry.Repr, monitorManager, created
    {
      && registry.Valid()
      && "stopMonitor" in registry.commands
      && MonitorsValid()
    }

    /** `s` can settle: the monitor it released, if any, was released by
        `stopMonitor` here. */
    ghost predicate Ready(s: Started)
      reads this
    {
      s.released.Some? ==> s.released.value.monitor in stopped
    }

    constructor ()
      ensures Valid() && fresh(registry) && fresh(resultManager) && fresh(monitorManager)
      ensures registry.Repr == {registry} && registry.className == "MainManager"
      ensures registry.submanagers == map[]
      ensures registry.commands == (map name | name in BuiltinCommands :: PlainCommand)["stopMonitor" := PlainCommand]
      ensures resultManager.results == [] && monitorManager.monitors == map[]
      ensures created == {} && stopped == {} && log == []
    {
      registry := new CommandManager("MainManager");
      resultManager := new ResultManager();
      monitorManager := new MonitorManager();
      created := {};
      stopped := {};
      log := [];
      new;
      registry.Register("stopMonitor", PlainCommand);
    }

    /** A command a subclass of the main manager declares with `@command` or
        `@monitor`. */
    method Register(name: string, kind: CommandType)
      requires Valid() && '.' !in name && name !in BuiltinCommands && name != "stopMonitor"
      modifies registry
      ensures Valid() && registry.Repr == old(registry.Repr)
      ensures registry.commands == old(registry.commands)[name := kind]
      ensures registry.submanagers == old(registry.submanagers)
    {
      registry.Register(name, kind);
    }

    /** `addSubmanager(name, manager)` on the main manager. */
    method AddSubmanager(name: string, manager: CommandManager)
      requires Valid() && manager.Valid() && '.' !in name && registry !in manager.Repr
      modifies registry
      ensures Valid() && registry.Repr == old(registry.Repr) + manager.Repr
      ensures registry.submanagers == old(registry.submanagers)[name := manager]
      ensures registry.commands == old(registry.commands)
    {
      registry.AddSubmanager(name, manager);
    }

    /** Where `executeCommand` sends `command`. A string is dispatched through
        the registry. An array has `indexOf` too, which looks for an element
        `"."`: without one, the array is looked up in the main manager's own
        table under its property key; with one, `split` is missing. Anything
        else has no `indexOf`. */
    function Route(command: Value): (r: Result<Target, Failure>)
      requires registry.Valid()
      reads registry, registry.Repr
      ensures r.Success? ==> r.value.node in registry.Repr
    {
      match command
      case Str(path) => registry.Resolve(path)
      case Arr(items) =>
        if Str(".") in items then Failure(ArrayCommandNotSplit)
        else
          var key := ToPropertyKey(command);
          if key in registry.commands then Success(Target(registry, key)) else Failure(CommandNotFound(key))
      case _ => Failure(CommandNotAString)
    }

    /** A one-element array command `[s]` is dispatched like its string when
        `s` has no dot. With a dot, it is looked up whole in the local table,
        where no name has a dot, unless it is `"."` itself. */
    lemma {:induction false} SingletonArrayRoute(s: string)
      requires registry.Valid()
      ensures '.' !in s ==> Route(Arr([Str(s)])) == Route(Str(s))
      ensures '.' in s && s != "." ==> Route(Arr([Str(s)])) == Failure(CommandNotFound(s))
      ensures Route(Arr([Str(".")])) == Failure(ArrayCommandNotSplit)
    {
      SingletonArrayKey(s);
      assert registry.WellFormed();
      if '.' !in s {
        registry.ResolveDotlessIsLocal(s);
      }
    }

    /** The command table and child names of every manager of the tree. */
    ghost function TreeTables(): Tables
      reads registry, registry.Repr
    {
      map n | n in registry.Repr :: (n.commands, n.submanagers)
    }

    /** `t` is the main manager's own `stopMonitor`. */
    predicate IsStopMonitor(t: Target) {
      t.node == registry && t.name == "stopMonitor"
    }

    /** `t` is the `removeSubmanager` of some manager of the tree. */
    predicate IsRemoval(t: Target) {
      !IsStopMonitor(t) && t.name == "removeSubmanager"
    }

    /** The monitor-table key a `stopMonitor` call with `params` looks up,
        if the command was routed there and `params` can be destructured. */
    function StopKeyOf(r: Result<Target, Failure>, params: Value): Option<string> {
      if r.Success? && IsStopMonitor(r.value) && Property(params, "monitorId").Some?
      then Some(ToPropertyKey(Property(params, "monitorId").value))
      else None
    }

    /** The manager whose child a `removeSubmanager` call removes, if the
        command was routed to one. */
    function RemovalNodeOf(r: Result<Target, Failure>): Option<CommandManager> {
      if r.Success? && IsRemoval(r.value) then Some(r.value.node) else None
    }

    /** Whether a dispatch stops a monitor, and under which key, depends on
        its command and params alone, not on the tree. */
    lemma {:induction false} StopKeyOfRoute(command: Value, params: Value)
      requires registry.Valid() && "stopMonitor" in registry.commands
      ensures StopKeyOf(Route(command), params) == StopKeyAt(command, params)
    {
      if command.Str? {
        StopKeyOfPath(command.s, params);
      }
    }

    lemma {:induction false} StopKeyOfPath(path: string, params: Value)
      requires registry.Valid() && "stopMonitor" in registry.commands
      ensures StopKeyOf(registry.Resolve(path), params) == StopKeyAt(Str(path), params)
    {
      if '.' in path {
        registry.ResolveLandsOnLastSegment(path);
      } else {
        registry.ResolveDotlessIsLocal(path);
      }
    }

    /** A dispatch can unmount a child only when its command names
        `removeSubmanager`. */
    lemma {:induction false} RemovalOfRoute(command: Value)
      requires registry.Valid()
      ensures RemovalNodeOf(Route(command)).Some? ==> NamesRemoval(command)
    {
      match command
      case Str(path) =>
        registry.ResolveLandsOnLastSegment(path);
      case Arr(_) =>
      case _ =>
    }

    /** `o` is what the command `t` of the tree settles to when invoked with
        `params` in the current state, `handlers` standing for the code of
        the commands that are not built in: each built-in gives its own
        result; any other command gives what its handler gives. */
    ghost predicate ManagerInvokes(t: Target, params: Value, handlers: (Target, Value) -> Outcome, o: Outcome)
      requires registry.Valid() && t.node in registry.Repr
      reads registry, registry.Repr
    {
      if t.name == "getSubmanagers" then o == Returned(ClassesValue(ChildClasses(t.node)))
      else if t.name == "getCommands" then
        registry.DescendantValid(t.node);
        ListsCommandsOf(o, t.node)
      else if t.name == "removeSubmanager" then o == Returned(Undefined)
      else o == handlers(t, params)
    }

    /** `o` is what `command` settles to when invoked with `params` in the
        current state: a routing failure is thrown; `stopMonitor` reports
        whether the table holds a monitor under the key of `monitorId`;
        any other command found is invoked on its manager. */
    ghost predicate Settles(command: Value, params: Value, handlers: (Target, Value) -> Outcome, o: Outcome)
      requires Valid()
      reads this, registry, registry.Repr, monitorManager, created
    {
      match Route(command)
      case Failure(f) => o == Threw(f)
      case Success(t) =>
        if IsStopMonitor(t) then
          match Property(params, "monitorId")
          case None => o == Threw(ParamsNotDestructurable)
          case Some(id) => o == Returned(Bool(ToPropertyKey(id) in monitorManager.monitors))
        else ManagerInvokes(t, params, handlers, o)
    }

    /** `stopMonitor({monitorId})`: remove the monitor stored under the key
        of `monitorId`, releasing it, and return whether there was one. */
    method StopMonitorCommand(params: Value) returns (o: Outcome, released: Option<Released>)
      requires MonitorsValid()
      modifies this, monitorManager, created
      ensures unchanged(registry.Repr) && TreeTables() == old(TreeTables())
      ensures MonitorsValid() && log == old(log) && created == old(created)
      ensures Property(params, "monitorId").None? ==>
                && o == Threw(ParamsNotDestructurable) && released.None?
                && monitorManager.monitors == old(monitorManager.monitors) && stopped == old(stopped)
      ensures Property(params, "monitorId").Some? ==>
                var key := ToPropertyKey(Property(params, "monitorId").value);
                && o == Returned(Bool(key in old(monitorManager.monitors)))
                && monitorManager.monitors == old(monitorManager.monitors) - {key}
                && (key in old(monitorManager.monitors) <==> released.Some?)
                && (released.Some? ==>
                      && released.value.monitor == old(monitorManager.monitors)[key]
                      && released.value.exId == old(monitorManager.monitors[key].sink)
                      && stopped == old(stopped) + {released.value.monitor})
                && (released.None? ==> stopped == old(stopped))
      ensures forall m | m in created :: m.sink == old(m.sink) && m.listening == old(m.listening)
    {
      var monitorId := Property(params, "monitorId");
      if monitorId.None? {
        return Threw(ParamsNotDestructurable), None;
      }
      var key := ToPropertyKey(monitorId.value);
      if key in monitorManager.monitors {
        var m := monitorManager.monitors[key];
        released := Some(Released(m, m.sink));
        stopped := stopped + {m};
      } else {
        released := None;
      }
      var found := monitorManager.RemoveMonitor(monitorId.value);
      o := Returned(Bool(found));
    }

    /** Invoke a command `t` of the tree other than `stopMonitor`, with
        `params`. Only `removeSubmanager` changes anything: one child of
        its manager. */
    method ManagerCommand(t: Target, params: Value, handlers: (Target, Value) -> Outcome) returns (outcome: Outcome)
      requires registry.Valid() && t.node in registry.Repr && !IsStopMonitor(t)
      modifies if IsRemoval(t) then {t.node} else {}
      ensures registry.Valid() && registry.Repr == old(registry.Repr)
      ensures old(ManagerInvokes(t, params, handlers, outcome))
      ensures IsRemoval(t) ==>
                t.node.submanagers == old(t.node.submanagers) - {ToPropertyKey(params)}
                && t.node.commands == old(t.node.commands)
      ensures TreeTables() == WithoutChild(old(TreeTables()), if IsRemoval(t) then Some(t.node) else None, ToPropertyKey(params))
    {
      registry.DescendantValid(t.node);
      if t.name == "getSubmanagers" {
        var classes := t.node.GetSubmanagers();
        assert classes == ChildClasses(t.node);
        outcome := Returned(ClassesValue(classes));
      } else if t.name == "getCommands" {
        var listing := t.node.GetCommands();
        outcome := Returned(ListingValue(listing));
        assert ListsCommandsOf(outcome, t.node);
      } else if t.name == "removeSubmanager" {
        t.node.RemoveSubmanager(ToPropertyKey(params), registry);
        outcome := Returned(Undefined);
      } else {
        outcome := handlers(t, params);
      }
    }

    /** Invoke the command routed to `r` with `params`. */
    method Invoke(r: Result<Target, Failure>, params: Value, handlers: (Target, Value) -> Outcome)
      returns (outcome: Outcome, released: Option<Released>)
      requires Valid() && (r.Success? ==> r.value.node in registry.Repr)
      modifies this, if RemovalNodeOf(r).Some? then {RemovalNodeOf(r).value} else {}, monitorManager, created
      ensures registry.Valid()
      ensures "stopMonitor" in registry.commands
      ensures MonitorsValid()
      ensures created == old(created) && registry.Repr == old(registry.Repr) && log == old(log)
      ensures r.Failure? ==> outcome == Threw(r.error)
      ensures r.Success? && IsStopMonitor(r.value) ==>
                match Property(params, "monitorId")
                case None => outcome == Threw(ParamsNotDestructurable)
                case Some(id) => outcome == Returned(Bool(ToPropertyKey(id) in old(monitorManager.monitors)))
      ensures r.Success? && !IsStopMonitor(r.value) ==> old(ManagerInvokes(r.value, params, handlers, outcome))
      ensures RemovalNodeOf(r).Some? ==>
                var n := RemovalNodeOf(r).value;
                n.submanagers == old(n.submanagers) - {ToPropertyKey(params)} && n.commands == old(n.commands)
      ensures TreeTables() == WithoutChild(old(TreeTables()), RemovalNodeOf(r), ToPropertyKey(params))
      ensures StopKeyOf(r, params).None? ==>
                monitorManager.monitors == old(monitorManager.monitors) && released.None? && stopped == old(stopped)
      ensures StopKeyOf(r, params).Some? ==>
                var key := StopKeyOf(r, params).value;
                && monitorManager.monitors == old(monitorManager.monitors) - {key}
                && (key in old(monitorManager.monitors) <==> released.Some?)
                && (released.Some? ==> released.value.monitor == old(monitorManager.monitors)[key])
      ensures old(stopped) <= stopped
      ensures released.Some? ==> released.value.monitor in stopped
    {
      if r.Failure? {
        outcome, released := Threw(r.error), None;
      } else if IsStopMonitor(r.value) {
        outcome, released := StopMonitorCommand(params);
      } else {
        outcome := ManagerCommand(r.value, params, handlers);
        released := None;
      }
    }

    /** The synchronous part of `executeCommand(exId, command, params)`:
        dispatch `command` and invoke what it names. Nothing is set in the
        result buffer yet. */
    method Start(exId: Value, command: Value, params: Value, handlers: (Target, Value) -> Outcome)
      returns (outcome: Outcome, released: Option<Released>)
      requires Valid()
      modifies this, if RemovalNodeOf(Route(command)).Some? then {RemovalNodeOf(Route(command)).value} else {}, monitorManager, created
      ensures Valid() && created == old(created) && registry.Repr == old(registry.Repr)
      ensures log == old(log) + [Dispatch(exId, command, params)]
      ensures old(Settles(command, params, handlers, outcome))
      ensures old(RemovalNodeOf(Route(command))).Some? ==>
                var n := old(RemovalNodeOf(Route(command))).value;
                n.submanagers == old(n.submanagers) - {ToPropertyKey(params)} && n.commands == old(n.commands)
      ensures TreeTables() == WithoutChild(old(TreeTables()), old(RemovalNodeOf(Route(command))), ToPropertyKey(params))
      ensures old(StopKeyOf(Route(command), params)).None? ==>
                monitorManager.monitors == old(monitorManager.monitors) && released.None? && stopped == old(stopped)
      ensures old(StopKeyOf(Route(command), params)).Some? ==>
                var key := old(StopKeyOf(Route(command), params)).value;
                && monitorManager.monitors == old(monitorManager.monitors) - {key}
                && (key in old(monitorManager.monitors) <==> released.Some?)
                && (released.Some? ==> released.value.monitor == old(monitorManager.monitors)[key])
      ensures old(stopped) <= stopped
      ensures released.Some? ==> released.value.monitor in stopped
    {
      var r := Route(command);
      outcome, released := Invoke(r, params, handlers);
      log := log + [Dispatch(exId, command, params)];
    }

    /** A released monitor's `monit` resumes: it unsubscribes and its
        execution ends with the `StopMonitor` error. */
    method EndMonitor(r: Released)
      requires MonitorsValid() && r.monitor in stopped
      modifies resultManager, r.monitor
      ensures MonitorsValid() && !r.monitor.listening
      ensures resultManager.results == old(resultManager.results) + [MonitorEnd(r.exId)]
    {
      r.monitor.Unsubscribe();
      resultManager.SetErrorResult(r.exId, ErrorPayload(StopMonitor));
    }

    /** An execution whose command returned a monitor: the monitor is stored
        under the exId, replacing any monitor stored there, and subscribed. */
    method StartMonitor(exId: Value, source: string, event: string, mapping: seq<Value> -> Value)
      returns (m: Monitor)
      requires MonitorsValid()
      modifies this, monitorManager
      ensures MonitorsValid() && log == old(log) && stopped == old(stopped)
      ensures fresh(m) && m !in old(created) && created == old(created) + {m}
      ensures monitorManager.monitors == old(monitorManager.monitors)[ToPropertyKey(exId) := m]
      ensures m.source == source && m.event == event && m.mapping == mapping
      ensures m.listening && !m.released && m.sink == exId
    {
      m := new Monitor(source, event, mapping);
      monitorManager.AddMonitor(exId, m);
      m.Monit(exId);
      created := created + {m};
    }

    /** An execution whose command settled to anything but a monitor sets
        its envelopes. */
    method SettleOutcome(exId: Value, o: Outcome)
      requires !o.ReturnedMonitor?
      modifies resultManager
      ensures resultManager.results == old(resultManager.results) + Settle(exId, o)
    {
      match o
      case Returned(v) =>
        resultManager.SetFinalResult(exId, v);
      case Threw(f) =>
        resultManager.SetErrorResult(exId, ErrorPayload(f));
      case ReturnedIterator(items, failure) =>
        var payloads := IteratorPayloads(items);
        for i := 0 to |payloads|
          invariant resultManager.results == old(resultManager.results) + Partials(exId, payloads[..i])
        {
          assert payloads[..i + 1] == payloads[..i] + [payloads[i]];
          resultManager.SetPartialResult(exId, payloads[i]);
        }
        TakeAll(payloads);
        resultManager.SetErrorResult(exId, ErrorPayload(if failure.Some? then failure.value else StopIterator));
    }

    /** The part of `executeCommand` that runs once its command has settled:
        the released monitor's execution ends first, then the outcome is set
        as result envelopes, or, for a monitor, the monitor is stored and
        subscribed. */
    method Finish(s: Started) returns (subscribed: Option<Monitor>)
      requires MonitorsValid() && Ready(s)
      modifies this, resultManager, monitorManager, if s.released.Some? then {s.released.value.monitor} else {}
      ensures MonitorsValid() && log == old(log) && stopped == old(stopped) && old(created) <= created
      ensures unchanged(registry.Repr)
      ensures resultManager.results == old(resultManager.results) + Settlement(s)
      ensures s.released.Some? ==> !s.released.value.monitor.listening
      ensures subscribed.Some? <==> s.outcome.ReturnedMonitor?
      ensures subscribed.None? ==> monitorManager.monitors == old(monitorManager.monitors) && created == old(created)
      ensures subscribed.Some? ==>
                var m := subscribed.value;
                && fresh(m) && m !in old(created) && created == old(created) + {m}
                && monitorManager.monitors == old(monitorManager.monitors)[ToPropertyKey(s.exId) := m]
                && m.source == s.outcome.source && m.event == s.outcome.event && m.mapping == s.outcome.mapping
                && m.listening && m.sink == s.exId
    {
      if s.released.Some? {
        EndMonitor(s.released.value);
      }
      if s.outcome.ReturnedMonitor? {
        var m := StartMonitor(s.exId, s.outcome.source, s.outcome.event, s.outcome.mapping);
        subscribed := Some(m);
      } else {
        SettleOutcome(s.exId, s.outcome);
        subscribed := None;
      }
    }

    /** An event a live monitor listens to fires with `args`: the monitor's
        handler passes the mapped result, if truthy, to the partial-result
        callback of the execution that returned it. */
    method Fire(m: Monitor, args: seq<Value>)
      requires m.listening
      modifies resultManager
      ensures resultManager.results ==
                old(resultManager.results)
                + (if Truthy(m.mapping(args)) then [MakeEnvelope(m.sink, Partial, m.mapping(args))] else [])
    {
      var result := m.Handle(args);
      if result.Some? {
        resultManager.SetPartialResult(m.sink, result.value);
      }
    }

    /** A run of firings of the event a live monitor listens to: its
        execution's partial results are the monitor's payloads for the run,
        in firing order. */
    method FireAll(m: Monitor, fired: seq<seq<Value>>)
      requires m.listening
      modifies resultManager
      ensures resultManager.results == old(resultManager.results) + Partials(m.sink, EventPayloads(m.mapping, fired))
    {
      for i := 0 to |fired|
        invariant resultManager.results == old(resultManager.results) + Partials(m.sink, EventPayloads(m.mapping, fired[..i]))
      {
        TakeSnoc(fired, i);
        EventPayloadsSnoc(m.mapping, fired[..i], fired[i]);
        var extra := if Truthy(m.mapping(fired[i])) then [m.mapping(fired[i])] else [];
        PartialsAppend(m.sink, EventPayloads(m.mapping, fired[..i]), extra);
        Fire(m, fired[i]);
      }
      TakeAll(fired);
    }

    /** The settlement of every execution in `pending`, in order. */
    method FinishAll(pending: seq<Started>)
      requires MonitorsValid() && ReleasedBy(pending) <= stopped
      modifies this, resultManager, monitorManager, created
      ensures MonitorsValid() && log == old(log) && stopped == old(stopped) && old(created) <= created
      ensures resultManager.results == old(resultManager.results) + Settlements(pending)
      ensures forall key :: key in monitorManager.monitors <==> key in old(monitorManager.monitors) || key in MonitorKeys(pending)
      ensures forall key | key in monitorManager.monitors && key !in MonitorKeys(pending) ::
                monitorManager.monitors[key] == old(monitorManager.monitors[key])
      ensures forall key | key in MonitorKeys(pending) :: monitorManager.monitors[key] !in old(created)
      ensures MonitorKeys(pending) == {} ==> monitorManager.monitors == old(monitorManager.monitors)
      ensures TreeTables() == old(TreeTables())
      decreases |pending|
    {
      if pending != [] {
        var init, last := pending[..|pending| - 1], pending[|pending| - 1];
        ghost var start := resultManager.results;
        FinishAll(init);
        ghost var before := monitorManager.monitors;
        ghost var settled := resultManager.results;
        var subscribed := Finish(last);
        assert Settlements(pending) == Settlements(init) + Settlement(last);
        assert resultManager.results == settled + Settlement(last);
        AppendAssoc(start, Settlements(init), Settlement(last));
        assert subscribed.Some? ==> monitorManager.monitors == before[ToPropertyKey(last.exId) := subscribed.value];
      }
    }

    /** The callback `poll` runs on one item of the batch: screen it and, if
        it is valid, start its execution. */
    method AdmitItem(item: Value, handlers: (Target, Value) -> Outcome) returns (verdict: Verdict, s: Option<Started>)
      requires Valid()
      modifies this, registry.Repr, monitorManager, created
      ensures Valid() && created == old(created) && registry.Repr == old(registry.Repr)
      ensures verdict == Screen(item) && old(stopped) <= stopped
      ensures s.Some? <==> verdict.Dispatched?
      ensures verdict.Dispatched? ==> log == old(log) + [verdict.d] && s.value.exId == verdict.d.exId && Ready(s.value)
      ensures verdict.Dispatched? ==> old(Settles(verdict.d.command, verdict.d.params, handlers, s.value.outcome))
      ensures Narrowed(TreeTables(), old(TreeTables()), VerdictUnmounts(verdict))
      ensures Shrunk(monitorManager.monitors, old(monitorManager.monitors), VerdictStops(verdict))
      ensures !verdict.Dispatched? ==>
                && TreeTables() == old(TreeTables())
                && monitorManager.monitors == old(monitorManager.monitors) && stopped == old(stopped)
      ensures verdict.Dispatched? ==>
                var r := old(Route(verdict.d.command));
                && TreeTables() == WithoutChild(old(TreeTables()), RemovalNodeOf(r), ToPropertyKey(verdict.d.params))
                && monitorManager.monitors == WithoutKey(old(monitorManager.monitors), StopKeyOf(r, verdict.d.params))
      ensures !verdict.Dispatched? ==> log == old(log)
    {
      verdict := Screen(item);
      if verdict.Dispatched? {
        var d := verdict.d;
        StopKeyOfRoute(d.command, d.params);
        RemovalOfRoute(d.command);
        ghost var r := Route(d.command);
        DispatchFrame(TreeTables(), monitorManager.monitors, RemovalNodeOf(r), StopKeyOf(r, d.params), d);
        var outcome, released := Start(d.exId, d.command, d.params, handlers);
        s := Some(Started(d.exId, outcome, released));
      } else {
        s := None;
      }
    }

    /** The loop of `poll(newExecutions)` over `items`: screen each item in
        turn, record each validation error, and start each valid execution
        as it is met; stop at an item that cannot be read. */
    method Admit(items: seq<Value>, handlers: (Target, Value) -> Outcome)
      returns (errors: seq<ValidationError>, pending: seq<Started>, stoppedAt: Option<nat>)
      requires Valid()
      modifies this, registry.Repr, monitorManager, created
      ensures Valid() && registry.Repr == old(registry.Repr) && created == old(created)
      ensures log == old(log) + ScreenBatch(items).dispatches
      ensures errors == ScreenBatch(items).errors && stoppedAt == ScreenBatch(items).unreadableAt
      ensures |pending| == |ScreenBatch(items).dispatches|
      ensures forall j | 0 <= j < |pending| :: pending[j].exId == ScreenBatch(items).dispatches[j].exId
      ensures ReleasedBy(pending) <= stopped
      ensures Narrowed(TreeTables(), old(TreeTables()), RemovedNames(ScreenBatch(items).dispatches))
      ensures Shrunk(monitorManager.monitors, old(monitorManager.monitors), StopKeys(ScreenBatch(items).dispatches))
    {
      errors, pending, stoppedAt := [], [], None;
      ghost var dispatched: seq<Dispatch> := [];
      ghost var tables0, monitors0 := TreeTables(), monitorManager.monitors;
      var i := 0;
      while i < |items|
        invariant 0 <= i <= |items|
        invariant Valid() && registry.Repr == old(registry.Repr) && created == old(created)
        invariant ScreenBatch(items[..i]) == Screening(dispatched, errors, None)
        invariant log == old(log) + dispatched
        invariant |pending| == |dispatched|
        invariant forall j | 0 <= j < |pending| :: pending[j].exId == dispatched[j].exId
        invariant ReleasedBy(pending) <= stopped
        invariant Narrowed(TreeTables(), tables0, RemovedNames(dispatched))
        invariant Shrunk(monitorManager.monitors, monitors0, StopKeys(dispatched))
      {
        ScreenBatchPrefixStep(items, i);
        ghost var tables, monitors, before := TreeTables(), monitorManager.monitors, stopped;
        var verdict, s := AdmitItem(items[i], handlers);
        assert ReleasedBy(pending) <= stopped by {
          assert ReleasedBy(pending) <= before && before <= stopped;
        }
        FrameStep(TreeTables(), tables, tables0, monitorManager.monitors, monitors, monitors0, dispatched, verdict);
        if verdict.Unreadable? {
          ScreenBatchStopsInPrefix(items, i);
          return errors, pending, Some(i);
        }
        if verdict.Rejected? {
          errors := errors + [verdict.e];
        } else {
          SnocTake(pending, s.value);
          ReleasedBySnoc(pending, s.value);
          pending := pending + [s.value];
        }
        dispatched := Next(dispatched, verdict);
        i := i + 1;
      }
      TakeAll(items);
    }

    /** `poll(newExecutions)`: screen the batch, starting each valid
        execution as it is met; drain the result buffer; the started
        executions settle only after that. An item that cannot be read
        throws out of `poll` before the drain, and the executions started
        before it still settle. `handlers` stands for the code of the
        commands that are not built in. */
    method Poll(batch: Option<seq<Value>>, handlers: (Target, Value) -> Outcome)
      returns (reply: Result<(seq<Envelope>, seq<ValidationError>), nat>, ghost started: seq<Started>)
      requires Valid()
      modifies this, registry.Repr, resultManager, monitorManager, created
      ensures Valid() && registry.Repr == old(registry.Repr)
      ensures var screening := ScreenBatch(if batch.Some? then batch.value else []);
              && log == old(log) + screening.dispatches
              && |started| == |screening.dispatches|
              && (forall i | 0 <= i < |started| :: started[i].exId == screening.dispatches[i].exId)
              && (screening.unreadableAt.None? ==>
                    && reply == Success((old(resultManager.results), screening.errors))
                    && resultManager.results == Settlements(started))
              && (screening.unreadableAt.Some? ==>
                    && reply == Failure(screening.unreadableAt.value)
                    && resultManager.results == old(resultManager.results) + Settlements(started))
      ensures var ds := ScreenBatch(if batch.Some? then batch.value else []).dispatches;
              && Narrowed(TreeTables(), old(TreeTables()), RemovedNames(ds))
              && (forall key | key in old(monitorManager.monitors) && key !in monitorManager.monitors :: key in StopKeys(ds))
              && (RemovedNames(ds) == {} ==> TreeTables() == old(TreeTables()))
              && (StopKeys(ds) == {} && MonitorKeys(started) == {} ==> monitorManager.monitors == old(monitorManager.monitors))
      ensures forall key | key in monitorManager.monitors ::
                || key in MonitorKeys(started)
                || (key in old(monitorManager.monitors) && monitorManager.monitors[key] == old(monitorManager.monitors[key]))
      ensures forall key | key in MonitorKeys(started) ::
                key in monitorManager.monitors && monitorManager.monitors[key] !in old(created)
    {
      var errors, pending, stoppedAt := Admit(if batch.Some? then batch.value else [], handlers);
      started := pending;
      var drained: seq<Envelope> := [];
      if stoppedAt.None? {
        drained := resultManager.GetResults();
      }
      FinishAll(pending);
      ghost var ds := ScreenBatch(if batch.Some? then batch.value else []).dispatches;
      if RemovedNames(ds) == {} {
        NarrowedByNothing(TreeTables(), old(TreeTables()));
      }
      reply := if stoppedAt.Some? then Failure(stoppedAt.value) else Success((drained, errors));
    }
  }
}
