/** The two streaming primitives a command handler may return instead of a
    plain value (Monitor, Iterator), the registry of live monitors, and the
    failures the execution driver turns into ERROR envelopes. */
module Streams {
  import opened Values

  /** What an execution can throw. The first four are the classes of the
      manager's error module; `ErrorInstance` is any other `Error` or
      `BaseError` a handler throws; `NonError` is a thrown value that is not
      an error object; `EngineTypeError` is the `TypeError` the JavaScript
      engine throws when the manager's own code reads a property of
      `undefined` or `null` or calls a method a value does not have. */
  datatype Failure =
    | ManagerNotFound(manager: string)
    | CommandNotFound(command: string)
    | StopMonitor
    | StopIterator
    | ErrorInstance(name: string, message: string, params: Value)
    | NonError(thrown: Value)
    | EngineTypeError(message: string)

  /** `err.name` of an error object. */
  function ErrorName(f: Failure): (r: string)
    requires !f.NonError?
    ensures f.ErrorInstance? ==> r == f.name
    ensures f.ManagerNotFound? ==> r == "ManagerNotFound"
    ensures f.CommandNotFound? ==> r == "CommandNotFound"
    ensures f.StopMonitor? ==> r == "StopMonitor"
    ensures f.StopIterator? ==> r == "StopIterator"
    ensures f.EngineTypeError? ==> r == "TypeError"
  {
    match f
    case ManagerNotFound(_) => "ManagerNotFound"
    case CommandNotFound(_) => "CommandNotFound"
    case StopMonitor => "StopMonitor"
    case StopIterator => "StopIterator"
    case ErrorInstance(name, _, _) => name
    case EngineTypeError(_) => "TypeError"
  }

  /** `err.message` of an error object; the error module is not part of this
      model, which takes a routing error's message to be the name it could
      not find and a stream end's message to be empty. */
  function ErrorMessage(f: Failure): (r: string)
    requires !f.NonError?
    ensures f.ManagerNotFound? ==> r == f.manager
    ensures f.CommandNotFound? ==> r == f.command
    ensures f.StopMonitor? || f.StopIterator? ==> r == ""
  {
    match f
    case ManagerNotFound(manager) => manager
    case CommandNotFound(command) => command
    case StopMonitor => ""
    case StopIterator => ""
    case ErrorInstance(_, message, _) => message
    case EngineTypeError(message) => message
  }

  /** `err.params` of an error object (absent on the error module's classes). */
  function ErrorParams(f: Failure): (r: Value)
    requires !f.NonError?
    ensures !f.ErrorInstance? ==> r == Undefined
  {
    if f.ErrorInstance? then f.params else Undefined
  }

  /** The params of the ERROR envelope the execution driver sets for a caught
      failure: `{name, message, params || {}}` for an error object and
      `{err}` for anything else. */
  function ErrorPayload(f: Failure): (p: Value)
    ensures Truthy(p) && p.Obj?
    ensures f.NonError? ==> p.fields == map["err" := f.thrown]
    ensures !f.NonError? ==> p.fields.Keys == {"name", "message", "params"}
    ensures !f.NonError? ==> p.fields["name"] == Str(ErrorName(f)) && p.fields["message"] == Str(ErrorMessage(f))
    ensures !f.NonError? ==> Truthy(p.fields["params"])
    ensures !f.NonError? && Truthy(ErrorParams(f)) ==> p.fields["params"] == ErrorParams(f)
    ensures !f.NonError? && !Truthy(ErrorParams(f)) ==> p.fields["params"] == EmptyObject
  {
    if f.NonError? then Record1("err", f.thrown)
    else Obj(map["name" := Str(ErrorName(f)), "message" := Str(ErrorMessage(f)),
                 "params" := OrEmpty(ErrorParams(f))])
  }

  /** An ERROR payload that marks the end of a stream rather than a fault. */
  predicate IsStreamEnd(p: Value) {
    p.Obj? && "name" in p.fields && p.fields["name"] in {Str("StopMonitor"), Str("StopIterator")}
  }

  /** Stream ends and faults share the ERROR channel: a handler that throws an
      error named like a stream end produces the very same payload. */
  lemma {:induction false} StreamEndIndistinguishable(message: string)
    ensures IsStreamEnd(ErrorPayload(StopMonitor)) && IsStreamEnd(ErrorPayload(StopIterator))
    ensures ErrorPayload(ErrorInstance("StopMonitor", "", Undefined)) == ErrorPayload(StopMonitor)
    ensures forall f: Failure :: IsStreamEnd(ErrorPayload(f)) <==>
              f.StopMonitor? || f.StopIterator? || (f.ErrorInstance? && f.name in {"StopMonitor", "StopIterator"})
  {
    forall f: Failure
      ensures IsStreamEnd(ErrorPayload(f)) <==>
              f.StopMonitor? || f.StopIterator? || (f.ErrorInstance? && f.name in {"StopMonitor", "StopIterator"})
    {
      if f.NonError? {
        assert "name" !in ErrorPayload(f).fields;
      }
    }
  }

  /** `Monitor.mapEventResult`, the default event mapping: wrap the event's
      arguments as `{args}`. */
  function MapEventResult(args: seq<Value>): (p: Value)
    ensures Truthy(p) && p.Obj? && p.fields == map["args" := Arr(args)]
  {
    Record1("args", Arr(args))
  }

  /** The partial results a monitor's handler passes on for a run of fired
      events: each event's mapped result, skipping the falsy ones. */
  function EventPayloads(mapping: seq<Value> -> Value, fired: seq<seq<Value>>): (ps: seq<Value>)
    ensures |ps| <= |fired|
    ensures forall i :: 0 <= i < |ps| ==> Truthy(ps[i])
    ensures |ps| == |fired| <==> forall i :: 0 <= i < |fired| ==> Truthy(mapping(fired[i]))
    decreases |fired|
  {
    if fired == [] then []
    else
      var m := mapping(fired[0]);
      var rest := EventPayloads(mapping, fired[1..]);
      assert forall i :: 0 <= i < |fired[1..]| ==> fired[1..][i] == fired[i + 1];
      if Truthy(m) then [m] + rest else rest
  }

  /** One more fired event extends the partial results by its mapped result
      when that is truthy, and by nothing otherwise: every truthy mapping is
      passed on, in firing order. */
  lemma {:induction false} EventPayloadsSnoc(mapping: seq<Value> -> Value, fired: seq<seq<Value>>, args: seq<Value>)
    ensures EventPayloads(mapping, fired + [args]) ==
              EventPayloads(mapping, fired) + (if Truthy(mapping(args)) then [mapping(args)] else [])
    decreases |fired|
  {
    var whole := fired + [args];
    if fired == [] {
      assert whole[1..] == [];
    } else {
      assert whole[0] == fired[0] && whole[1..] == fired[1..] + [args];
      EventPayloadsSnoc(mapping, fired[1..], args);
    }
  }

  /** Each partial result a monitor passes on is the mapping of one fired
      event. */
  lemma {:induction false} EventPayloadsAreMapped(mapping: seq<Value> -> Value, fired: seq<seq<Value>>)
    ensures forall i :: 0 <= i < |EventPayloads(mapping, fired)| ==>
              exists j :: 0 <= j < |fired| && EventPayloads(mapping, fired)[i] == mapping(fired[j])
    decreases |fired|
  {
    if fired != [] {
      var rest := EventPayloads(mapping, fired[1..]);
      EventPayloadsAreMapped(mapping, fired[1..]);
      var ps := EventPayloads(mapping, fired);
      forall i | 0 <= i < |ps| ensures exists j :: 0 <= j < |fired| && ps[i] == mapping(fired[j]) {
        if Truthy(mapping(fired[0])) && i == 0 {
          assert ps[0] == mapping(fired[0]);
        } else {
          var k := if Truthy(mapping(fired[0])) then i - 1 else i;
          assert ps[i] == rest[k];
          var j :| 0 <= j < |fired[1..]| && rest[k] == mapping(fired[1..][j]);
          assert fired[1..][j] == fired[j + 1];
          assert 0 <= j + 1 < |fired| && ps[i] == mapping(fired[j + 1]);
        }
      }
    } else {
      assert |EventPayloads(mapping, fired)| == 0;
    }
  }

  /** With the default mapping nothing is skipped: one `{args}` per fired
      event, in firing order. */
  lemma {:induction false} DefaultMappingKeepsEveryEvent(fired: seq<seq<Value>>)
    ensures |EventPayloads(MapEventResult, fired)| == |fired|
    ensures forall i :: 0 <= i < |fired| ==> EventPayloads(MapEventResult, fired)[i] == Record1("args", Arr(fired[i]))
  {
    if fired != [] {
      var rest := EventPayloads(MapEventResult, fired[1..]);
      DefaultMappingKeepsEveryEvent(fired[1..]);
      assert EventPayloads(MapEventResult, fired) == [MapEventResult(fired[0])] + rest;
      forall i | 0 <= i < |fired|
        ensures EventPayloads(MapEventResult, fired)[i] == Record1("args", Arr(fired[i]))
      {
        if i > 0 {
          assert fired[1..][i - 1] == fired[i];
        }
      }
    }
  }

  /** `Iterator.iter` wraps each pushed item as `{item}`. */
  function IteratorPayloads(items: seq<Value>): (ps: seq<Value>)
    ensures |ps| == |items|
    ensures forall i :: 0 <= i < |items| ==> ps[i] == Record1("item", items[i]) && Truthy(ps[i])
  {
    seq(|items|, i requires 0 <= i < |items| => Record1("item", items[i]))
  }

  /** An event-driven stream. It is built bound to one event of one source,
      subscribes when driven by `Monit`, and ends when `StopMonitor` releases
      it. */
  class Monitor {
    /** `obj`: the event source. */
    const source: string
    /** `evt`: the event name listened to. */
    const event: string
    /** `mapEventResult`, which subclasses may override. */
    const mapping: seq<Value> -> Value
    /** The handler is subscribed to `event` on `source`. */
    var listening: bool
    /** The promise `monit` awaits has been resolved. */
    var released: bool
    /** The exId whose partial-result callback the handler calls. */
    var sink: Value

    constructor (source: string, event: string, mapping: seq<Value> -> Value)
      ensures this.source == source && this.event == event && this.mapping == mapping
      ensures !listening && !released
    {
      this.source := source;
      this.event := event;
      this.mapping := mapping;
      listening := false;
      released := false;
      sink := Undefined;
    }

    /** The first part of `monit(partialResult)`: subscribe the handler. */
    method Monit(exId: Value)
      modifies this
      ensures listening && sink == exId && released == old(released)
    {
      listening := true;
      sink := exId;
    }

    /** What the subscribed handler passes to the partial-result callback for
        one firing of the event: the mapped result, if it is truthy. */
    function Handle(args: seq<Value>): (r: Option<Value>)
      reads this
      ensures r.Some? <==> Truthy(mapping(args))
      ensures r.Some? ==> r.value == mapping(args)
    {
      var result := mapping(args);
      if Truthy(result) then Some(result) else None
    }

    /** `stopMonitor()`: resolve the promise `monit` is waiting on. */
    method StopMonitor()
      modifies this
      ensures released && listening == old(listening) && sink == old(sink)
    {
      released := true;
    }

    /** The rest of `monit` once released: unsubscribe the handler. (It then
        throws `StopMonitor`, which the execution driver catches.) */
    method Unsubscribe()
      requires released
      modifies this
      ensures !listening && released && sink == old(sink)
    {
      listening := false;
    }
  }

  /** The live monitors, by the exId of the execution that returned them.
      The table is a plain object, so an exId is stored under its property
      key: `1` and `"1"` name the same entry. */
  class MonitorManager {
    var monitors: map<string, Monitor>

    constructor ()
      ensures monitors == map[]
    {
      monitors := map[];
    }

    /** Registers `monitor` under `exId`, replacing any monitor already there. */
    method AddMonitor(exId: Value, monitor: Monitor)
      modifies this
      ensures monitors == old(monitors)[ToPropertyKey(exId) := monitor]
    {
      monitors := monitors[ToPropertyKey(exId) := monitor];
    }

    /** Absent exId: false, nothing changes. Present: releases that monitor,
        forgets that entry only, and returns true. */
    method RemoveMonitor(exId: Value) returns (removed: bool)
      modifies this, if ToPropertyKey(exId) in monitors then {monitors[ToPropertyKey(exId)]} else {}
      ensures removed <==> ToPropertyKey(exId) in old(monitors)
      ensures monitors == old(monitors) - {ToPropertyKey(exId)}
      ensures removed ==> old(monitors)[ToPropertyKey(exId)].released
      ensures removed ==> old(monitors)[ToPropertyKey(exId)].listening == old(monitors[ToPropertyKey(exId)].listening)
      ensures removed ==> old(monitors)[ToPropertyKey(exId)].sink == old(monitors[ToPropertyKey(exId)].sink)
    {
      var key := ToPropertyKey(exId);
      if key !in monitors {
        return false;
      }
      monitors[key].StopMonitor();
      monitors := monitors - {key};
      return true;
    }
  }

  /** Removing the same exId twice: the second removal finds nothing. A
      number and its decimal string are the same exId. */
  method RemoveTwice(id: nat, source: string, event: string)
    returns (first: bool, second: bool, stopped: bool)
    ensures first && !second && stopped
  {
    var registry := new MonitorManager();
    var m := new Monitor(source, event, MapEventResult);
    registry.AddMonitor(Num(id), m);
    first := registry.RemoveMonitor(Str(NatToDecimal(id)));
    second := registry.RemoveMonitor(Num(id));
    stopped := m.released;
  }
}
