/** How `poll` screens a batch of submitted executions before anything runs:
    which items it dispatches, which it rejects with a validation error, and
    where it stops when an item cannot even be read. */
module Screening {
  import opened Values

  /** An entry of the `errors` list `poll` returns. */
  datatype ValidationError = ValidationError(name: string, message: string, executionsObj: Value)

  /** The message of a missing exId, spelled as the manager spells it. */
  const MissingExIdMessage: string := "Execuction ID is required"
  /** The message of a missing command name. */
  const MissingCommandMessage: string := "Command name is required"

  /** One call `executeCommand(exId, command, params)` made by `poll`. */
  datatype Dispatch = Dispatch(exId: Value, command: Value, params: Value)

  /** What `poll` makes of one item: it dispatches it, rejects it, or cannot
      read its `exId` at all (the item is `undefined` or `null`, and reading a
      property of it throws a `TypeError` out of `poll`). */
  datatype Verdict = Dispatched(d: Dispatch) | Rejected(e: ValidationError) | Unreadable

  predicate Nullish(v: Value) {
    v.Undefined? || v.Null?
  }

  /** The checks `poll` applies to one item, in its order: a falsy `exId`
      first, then a falsy `command`; a valid item is dispatched with its
      `params`, or `{}` when they are falsy. */
  function Screen(item: Value): (v: Verdict)
    ensures v.Unreadable? <==> Nullish(item)
    ensures v.Dispatched? ==> item.Obj? && "exId" in item.fields && "command" in item.fields
    ensures v.Dispatched? ==> v.d.exId == item.fields["exId"] && v.d.command == item.fields["command"]
    ensures v.Dispatched? ==> Truthy(v.d.exId) && Truthy(v.d.command) && Truthy(v.d.params)
    ensures v.Dispatched? && "params" in item.fields && Truthy(item.fields["params"]) ==> v.d.params == item.fields["params"]
    ensures v.Dispatched? && !("params" in item.fields && Truthy(item.fields["params"])) ==> v.d.params == EmptyObject
    ensures !Nullish(item) ==>
              (v.Dispatched? <==> Truthy(Property(item, "exId").value) && Truthy(Property(item, "command").value))
    ensures v.Rejected? ==> v.e.executionsObj == item
    ensures v.Rejected? ==> (v.e.name == "RequiredExecutionId" <==> !Truthy(Property(item, "exId").value))
    ensures v.Rejected? ==> v.e.name in {"RequiredExecutionId", "RequiredCommandName"}
    ensures v.Rejected? && v.e.name == "RequiredCommandName" ==>
              Truthy(Property(item, "exId").value) && !Truthy(Property(item, "command").value)
    ensures v.Rejected? && v.e.name == "RequiredCommandName" ==> v.e.message == MissingCommandMessage
    ensures v.Rejected? ==> (v.e.message == MissingExIdMessage <==> v.e.name == "RequiredExecutionId")
  {
    match Property(item, "exId")
    case None => Unreadable
    case Some(exId) =>
      if !Truthy(exId) then Rejected(ValidationError("RequiredExecutionId", MissingExIdMessage, item))
      else
        var command := Property(item, "command").value;
        if !Truthy(command) then Rejected(ValidationError("RequiredCommandName", MissingCommandMessage, item))
        else Dispatched(Dispatch(exId, command, OrEmpty(Property(item, "params").value)))
  }

  /** The screening of a whole batch: the dispatches and the validation
      errors, each in batch order, and the position of the first item that
      could not be read, if any (nothing after it is looked at). */
  datatype Screening = Screening(dispatches: seq<Dispatch>, errors: seq<ValidationError>, unreadableAt: Option<nat>)

  /** How far `poll` gets through `items`. */
  function Reached(r: Screening, items: seq<Value>): nat {
    if r.unreadableAt.Some? then r.unreadableAt.value else |items|
  }

  /** One more screened item appended to a screening. */
  function Extend(r: Screening, v: Verdict, at: nat): Screening {
    match v
    case Dispatched(d) => r.(dispatches := r.dispatches + [d])
    case Rejected(e) => r.(errors := r.errors + [e])
    case Unreadable => r.(unreadableAt := Some(at))
  }

  /** The screening of `v` followed by the screening `r` of the items after it. */
  function Cons(v: Verdict, r: Screening): Screening {
    var after := if r.unreadableAt.Some? then Some(r.unreadableAt.value + 1) else None;
    match v
    case Unreadable => Screening([], [], Some(0))
    case Dispatched(d) => Screening([d] + r.dispatches, r.errors, after)
    case Rejected(e) => Screening(r.dispatches, [e] + r.errors, after)
  }

  function ScreenBatch(items: seq<Value>): (r: Screening)
    ensures r.unreadableAt.Some? ==> r.unreadableAt.value < |items|
    ensures Reached(r, items) <= |items|
    ensures |r.dispatches| + |r.errors| == Reached(r, items)
    decreases |items|
  {
    if items == [] then Screening([], [], None)
    else Cons(Screen(items[0]), ScreenBatch(items[1..]))
  }

  /** What screening guarantees of a batch: the item it stops at cannot be
      read and every item before it can; every dispatched execution has a
      truthy exId, command and params; every validation error is one of the
      two kinds. */
  lemma {:induction false} ScreenBatchChecks(items: seq<Value>)
    ensures var r := ScreenBatch(items);
            && (r.unreadableAt.Some? ==> Nullish(items[r.unreadableAt.value]))
            && (forall j | 0 <= j < Reached(r, items) :: !Nullish(items[j]))
            && (forall i | 0 <= i < |r.dispatches| ::
                  Truthy(r.dispatches[i].exId) && Truthy(r.dispatches[i].command) && Truthy(r.dispatches[i].params))
            && (forall i | 0 <= i < |r.errors| :: r.errors[i].name in {"RequiredExecutionId", "RequiredCommandName"})
    decreases |items|
  {
    if items != [] {
      var rest := ScreenBatch(items[1..]);
      ScreenBatchChecks(items[1..]);
      assert forall j | 0 <= j < Reached(rest, items[1..]) :: items[1..][j] == items[j + 1];
    }
  }

  /** Screening an item in front commutes with extending at the back. */
  lemma ConsExtend(v0: Verdict, rest: Screening, v: Verdict, at: nat)
    requires !v0.Unreadable? && rest.unreadableAt.None?
    ensures Cons(v0, Extend(rest, v, at)) == Extend(Cons(v0, rest), v, at + 1)
  {
  }

  /** Screening one item more extends the screening of a batch that was
      read to its end: this is the order in which `poll`'s loop works. */
  lemma {:induction false} ScreenBatchSnoc(items: seq<Value>, item: Value)
    requires ScreenBatch(items).unreadableAt.None?
    ensures ScreenBatch(items + [item]) == Extend(ScreenBatch(items), Screen(item), |items|)
    decreases |items|
  {
    var whole := items + [item];
    if items == [] {
      assert whole[1..] == [];
    } else {
      assert whole[0] == items[0] && whole[1..] == items[1..] + [item];
      ScreenBatchSnoc(items[1..], item);
      ConsExtend(Screen(items[0]), ScreenBatch(items[1..]), Screen(item), |items| - 1);
    }
  }

  /** Nothing after an unreadable item is looked at. */
  lemma {:induction false} ScreenBatchStops(xs: seq<Value>, ys: seq<Value>)
    requires ScreenBatch(xs).unreadableAt.Some?
    ensures ScreenBatch(xs + ys) == ScreenBatch(xs)
    decreases |xs|
  {
    var whole := xs + ys;
    assert whole[0] == xs[0];
    if !Screen(xs[0]).Unreadable? {
      assert whole[1..] == xs[1..] + ys;
      ScreenBatchStops(xs[1..], ys);
    }
  }

  /** `poll`'s loop, one item further: the screening of the first `i + 1`
      items extends the screening of the first `i`. */
  lemma ScreenBatchPrefixStep(items: seq<Value>, i: nat)
    requires i < |items| && ScreenBatch(items[..i]).unreadableAt.None?
    ensures ScreenBatch(items[..i + 1]) == Extend(ScreenBatch(items[..i]), Screen(items[i]), i)
  {
    TakeSnoc(items, i);
    ScreenBatchSnoc(items[..i], items[i]);
  }

  /** Once `poll`'s loop meets an unreadable item, the screening of the
      whole batch is that of the items read so far. */
  lemma ScreenBatchStopsInPrefix(items: seq<Value>, i: nat)
    requires i < |items| && ScreenBatch(items[..i + 1]).unreadableAt.Some?
    ensures ScreenBatch(items) == ScreenBatch(items[..i + 1])
  {
    TakeDrop(items, i + 1);
    ScreenBatchStops(items[..i + 1], items[i + 1..]);
  }

  /** Screening an item in front of two parts distributes over them. */
  lemma ConsAppend(v0: Verdict, r: Screening, s: Screening, t: Screening)
    requires !v0.Unreadable?
    requires t.dispatches == r.dispatches + s.dispatches && t.errors == r.errors + s.errors
    ensures Cons(v0, t).dispatches == Cons(v0, r).dispatches + s.dispatches
    ensures Cons(v0, t).errors == Cons(v0, r).errors + s.errors
    ensures Cons(v0, t).unreadableAt.None? <==> t.unreadableAt.None?
  {
    match v0
    case Dispatched(d) =>
      assert [d] + (r.dispatches + s.dispatches) == ([d] + r.dispatches) + s.dispatches;
    case Rejected(e) =>
      assert [e] + (r.errors + s.errors) == ([e] + r.errors) + s.errors;
  }

  /** Two batches polled one after the other dispatch the same executions and
      report the same errors as their concatenation polled at once, as long
      as the first batch can be read to its end. */
  lemma {:induction false} ScreenBatchAppend(xs: seq<Value>, ys: seq<Value>)
    requires ScreenBatch(xs).unreadableAt.None?
    ensures ScreenBatch(xs + ys).dispatches == ScreenBatch(xs).dispatches + ScreenBatch(ys).dispatches
    ensures ScreenBatch(xs + ys).errors == ScreenBatch(xs).errors + ScreenBatch(ys).errors
    ensures ScreenBatch(ys).unreadableAt.None? <==> ScreenBatch(xs + ys).unreadableAt.None?
    decreases |xs|
  {
    var whole := xs + ys;
    if xs == [] {
      assert whole == ys;
    } else {
      assert whole[0] == xs[0] && whole[1..] == xs[1..] + ys;
      ScreenBatchAppend(xs[1..], ys);
      ConsAppend(Screen(xs[0]), ScreenBatch(xs[1..]), ScreenBatch(ys), ScreenBatch(xs[1..] + ys));
    }
  }

  /** A batch of objects that all carry a truthy `exId` and `command` is
      dispatched item for item, with no validation error. */
  lemma {:induction false} WellFormedBatchIsDispatched(items: seq<Value>)
    requires forall i | 0 <= i < |items| ::
               items[i].Obj? && "exId" in items[i].fields && "command" in items[i].fields
               && Truthy(items[i].fields["exId"]) && Truthy(items[i].fields["command"])
    ensures ScreenBatch(items).errors == [] && ScreenBatch(items).unreadableAt.None?
    ensures |ScreenBatch(items).dispatches| == |items|
    ensures forall i | 0 <= i < |items| ::
              ScreenBatch(items).dispatches[i].exId == items[i].fields["exId"]
              && ScreenBatch(items).dispatches[i].command == items[i].fields["command"]
    decreases |items|
  {
    if items != [] {
      WellFormedBatchIsDispatched(items[1..]);
      assert Screen(items[0]).Dispatched?;
      forall i | 1 <= i < |items|
        ensures ScreenBatch(items).dispatches[i] == ScreenBatch(items[1..]).dispatches[i - 1]
      {
      }
    }
  }
}
