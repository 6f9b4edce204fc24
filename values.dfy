/** JavaScript values as the manager sees them: the parameter bags, handler
    results and payloads that travel through the result buffer, with the two
    coercions the manager relies on: truthiness (`x || {}`, `if (!x)`) and the
    conversion of a value to a property key (`key in obj`, `delete obj[key]`). */
module Values {

  datatype Option<+T> = None | Some(value: T)

  datatype Result<+T, +E> = Success(value: T) | Failure(error: E)

  /** A JSON-like JavaScript value. Numbers are integers. */
  datatype Value =
    | Undefined
    | Null
    | Bool(b: bool)
    | Num(n: int)
    | Str(s: string)
    | Arr(items: seq<Value>)
    | Obj(fields: map<string, Value>)

  /** The empty object literal `{}`. */
  const EmptyObject: Value := Obj(map[])

  /** JavaScript truthiness: `undefined`, `null`, `false`, `0` and `""` are falsy. */
  predicate Truthy(v: Value)
    ensures Truthy(v) ==> !v.Undefined? && !v.Null?
    ensures v.Arr? || v.Obj? ==> Truthy(v)
  {
    match v
    case Undefined => false
    case Null => false
    case Bool(b) => b
    case Num(n) => n != 0
    case Str(s) => s != ""
    case Arr(_) => true
    case Obj(_) => true
  }

  /** `v || {}`: a falsy value is replaced by the empty object. */
  function OrEmpty(v: Value): (r: Value)
    ensures Truthy(r)
    ensures Truthy(v) ==> r == v
    ensures !Truthy(v) ==> r == EmptyObject
  {
    if Truthy(v) then v else EmptyObject
  }

  /** The one-field object `{k: v}`. */
  function Record1(k: string, v: Value): Value {
    Obj(map[k := v])
  }

  /** `v[key]` for the keys the manager reads (`exId`, `command`, `params`,
      `monitorId`), none of which a built-in prototype defines: `None` when
      `v` is `undefined` or `null`, whose properties cannot be read (a
      `TypeError`); an object's own field when it has one; `undefined`
      otherwise. */
  function Property(v: Value, key: string): (r: Option<Value>)
    ensures r.None? <==> v.Undefined? || v.Null?
    ensures r.Some? && v.Obj? && key in v.fields ==> r.value == v.fields[key]
    ensures r.Some? && !(v.Obj? && key in v.fields) ==> r.value == Undefined
  {
    match v
    case Undefined => None
    case Null => None
    case Obj(fields) => Some(if key in fields then fields[key] else Undefined)
    case _ => Some(Undefined)
  }

  /** The number a string of decimal digits denotes, read from the last
      digit back. */
  function DigitsValue(s: string): int
    decreases |s|
  {
    if s == [] then 0 else DigitsValue(s[..|s| - 1]) * 10 + (s[|s| - 1] as int - '0' as int)
  }

  /** The number an optionally signed decimal string denotes. */
  function DecimalValue(s: string): int {
    if |s| > 0 && s[0] == '-' then -DigitsValue(s[1..]) else DigitsValue(s)
  }

  /** Decimal notation of a natural number: digits that read back as `n`. */
  function NatToDecimal(n: nat): (r: string)
    ensures |r| >= 1
    ensures forall i :: 0 <= i < |r| ==> '0' <= r[i] <= '9'
    ensures DigitsValue(r) == n
    decreases n
  {
    var d := [(('0' as int) + n % 10) as char];
    if n < 10 then d
    else
      var prefix := NatToDecimal(n / 10);
      assert (prefix + d)[..|prefix + d| - 1] == prefix;
      prefix + d
  }

  /** JavaScript `String(n)` for an integer: it reads back as `n`. */
  function IntToDecimal(n: int): (r: string)
    ensures DecimalValue(r) == n
  {
    if n < 0 then
      var digits := NatToDecimal(-n);
      assert ("-" + digits)[1..] == digits;
      "-" + digits
    else NatToDecimal(n)
  }

  /** JavaScript `String(v)`, which is also the property key `obj[v]` uses. */
  function ToPropertyKey(v: Value): string
    decreases v, 1
  {
    match v
    case Undefined => "undefined"
    case Null => "null"
    case Bool(b) => if b then "true" else "false"
    case Num(n) => IntToDecimal(n)
    case Str(s) => s
    case Arr(items) => JoinItems(v, items)
    case Obj(_) => "[object Object]"
  }

  /** `items.join(',')`, where `null` and `undefined` elements print as "". */
  function JoinItems(whole: Value, items: seq<Value>): (r: string)
    requires whole.Arr? && forall i :: 0 <= i < |items| ==> items[i] in whole.items
    ensures |items| == 1 && !items[0].Undefined? && !items[0].Null? ==> r == ToPropertyKey(items[0])
    ensures |items| > 1 ==> ',' in r
    decreases whole, 0, |items|
  {
    if items == [] then ""
    else
      var head := if items[0].Undefined? || items[0].Null? then "" else ToPropertyKey(items[0]);
      if |items| == 1 then head else head + "," + JoinItems(whole, items[1..])
  }

  /** Two numbers share a property key exactly when they are equal, and a
      number shares its key with its decimal string. */
  lemma NumericKeys(a: int, b: int)
    ensures ToPropertyKey(Num(a)) == ToPropertyKey(Num(b)) <==> a == b
    ensures ToPropertyKey(Num(a)) == ToPropertyKey(Str(IntToDecimal(a)))
  {
  }

  /** A one-element array of a string has that string as its key. */
  lemma SingletonArrayKey(s: string)
    ensures ToPropertyKey(Arr([Str(s)])) == s
  {
  }

  /** Where the first '.' of `s` is, if there is one. */
  function FirstDot(s: string): (r: Option<nat>)
    ensures r.None? <==> '.' !in s
    ensures r.Some? ==> r.value < |s| && s[r.value] == '.' && '.' !in s[..r.value]
  {
    if s == [] then None
    else if s[0] == '.' then Some(0)
    else
      match FirstDot(s[1..])
      case None => None
      case Some(i) =>
        assert s[1..][..i] == s[1..i + 1];
        assert s[..i + 1] == [s[0]] + s[1..][..i];
        Some(i + 1)
  }

  /** What `s.split('.')` followed by `shift()` and `join('.')` yields when
      `s` has a dot: the part before the first dot and everything after it. */
  function SplitAtFirstDot(s: string): (r: Option<(string, string)>)
    ensures r.None? <==> '.' !in s
    ensures r.Some? ==> '.' !in r.value.0 && |r.value.1| < |s|
  {
    match FirstDot(s)
    case None => None
    case Some(i) => Some((s[..i], s[i + 1..]))
  }

  /** The segment after the last dot of a path: what is left once every
      manager segment has been consumed. */
  function LastSegment(s: string): (r: string)
    ensures '.' !in r
    decreases |s|
  {
    match SplitAtFirstDot(s)
    case None => s
    case Some((_, rest)) => LastSegment(rest)
  }

  /** A path whose first segment is `sm` ends where its remainder ends. */
  lemma {:induction false} LastSegmentOfJoin(sm: string, rest: string)
    requires '.' !in sm
    ensures LastSegment(sm + "." + rest) == LastSegment(rest)
  {
    SplitOfJoin(sm, rest);
  }

  /** The two parts of a split, joined by a dot, give back the whole. */
  lemma SplitAtFirstDotJoins(s: string)
    requires SplitAtFirstDot(s).Some?
    ensures s == SplitAtFirstDot(s).value.0 + "." + SplitAtFirstDot(s).value.1
  {
    var i := FirstDot(s).value;
    assert s == s[..i] + [s[i]] + s[i + 1..];
  }

  /** Splitting `sm + "." + rest` gives back `sm` and `rest` when `sm` has no
      dot of its own. */
  lemma {:induction false} SplitOfJoin(sm: string, rest: string)
    requires '.' !in sm
    ensures SplitAtFirstDot(sm + "." + rest) == Some((sm, rest))
  {
    FirstDotOfJoin(sm, rest);
  }

  /** Splitting `sm + "." + rest` at its first dot gives back `sm` and `rest`
      when `sm` has no dot of its own. */
  lemma {:induction false} FirstDotOfJoin(sm: string, rest: string)
    requires '.' !in sm
    ensures FirstDot(sm + "." + rest) == Some(|sm|)
    ensures (sm + "." + rest)[..|sm|] == sm
    ensures (sm + "." + rest)[|sm| + 1..] == rest
  {
    var s := sm + "." + rest;
    if sm == [] {
      assert s[0] == '.';
    } else {
      assert s[1..] == sm[1..] + "." + rest;
      FirstDotOfJoin(sm[1..], rest);
    }
  }

  /** A sequence is its first `k` elements followed by the rest. */
  lemma TakeDrop<T>(s: seq<T>, k: nat)
    requires k <= |s|
    ensures s[..k] + s[k..] == s
  {
  }

  /** Appending one element keeps the sequence as a prefix. */
  lemma SnocTake<T>(s: seq<T>, x: T)
    ensures (s + [x])[..|s|] == s && (s + [x])[|s|] == x
  {
  }

  /** Concatenation is associative. */
  lemma AppendAssoc<T>(a: seq<T>, b: seq<T>, c: seq<T>)
    ensures (a + b) + c == a + (b + c)
  {
  }

  /** Taking every element gives the whole sequence. */
  lemma TakeAll<T>(s: seq<T>)
    ensures s[..|s|] == s
  {
  }

  /** The first `k + 1` elements are the first `k` and then element `k`. */
  lemma TakeSnoc<T>(s: seq<T>, k: nat)
    requires k < |s|
    ensures s[..k + 1] == s[..k] + [s[k]]
  {
  }
}
