/** The Python values that flow through the core: the request payload, the
    documents kept in the store, the `log_input` and keyword dictionaries the
    code builds. A float is kept as the exact decimal it was written as. A
    dict is its members in insertion order. */
module Json {
  import opened Wrappers
  import opened Text
  import opened Seqs

  datatype Json =
    | JNull                       // None
    | JBool(b: bool)
    | JInt(i: int)
    | JFloat(m: int, e: nat)      // the float m / 10^e
    | JStr(s: string)
    | JList(items: seq<Json>)
    | JObj(members: seq<Member>)  // a dict, in insertion order

  datatype Member = Member(key: string, val: Json)

  const EmptyObj: Json := JObj([])

  function Pow10(e: nat): (r: nat)
    ensures r >= 1
  {
    if e == 0 then 1 else 10 * Pow10(e - 1)
  }

  // ---------------------------------------------------------------- dicts

  function Keys(ms: seq<Member>): (r: seq<string>)
    ensures |r| == |ms| && forall i :: 0 <= i < |ms| ==> r[i] == ms[i].key
  {
    if ms == [] then [] else [ms[0].key] + Keys(ms[1..])
  }

  lemma KeysConcat(a: seq<Member>, b: seq<Member>)
    ensures Keys(a + b) == Keys(a) + Keys(b)
  {
    assert forall i :: 0 <= i < |a + b| ==> Keys(a + b)[i] == (Keys(a) + Keys(b))[i];
  }

  predicate DistinctKeys(ms: seq<Member>)
  {
    forall i, j :: 0 <= i < j < |ms| ==> ms[i].key != ms[j].key
  }

  /** A Python value: no dict holds a key twice, at any depth. */
  predicate Wf(v: Json)
    decreases v, 1
  {
    match v
    case JList(items) => AllWf(items)
    case JObj(ms) => DistinctKeys(ms) && AllMembersWf(ms)
    case _ => true
  }

  predicate AllWf(items: seq<Json>)
    decreases items, 0
  {
    forall i :: 0 <= i < |items| ==> Wf(items[i])
  }

  predicate AllMembersWf(ms: seq<Member>)
    decreases ms, 0
  {
    forall i :: 0 <= i < |ms| ==> Wf(ms[i].val)
  }

  /** The value stored under `k`. */
  function Find(ms: seq<Member>, k: string): (r: Option<Json>)
    ensures r.Some? <==> k in Keys(ms)
    ensures r.Some? ==> exists i :: 0 <= i < |ms| && ms[i] == Member(k, r.value)
  {
    if ms == [] then None
    else if ms[0].key == k then (assert ms[0] == Member(k, ms[0].val); Some(ms[0].val))
    else
      var r := Find(ms[1..], k);
      if r.Some? then
        var i :| 0 <= i < |ms[1..]| && ms[1..][i] == Member(k, r.value);
        assert ms[i + 1] == Member(k, r.value);
        r
      else r
  }

  lemma FindDistinct(ms: seq<Member>, i: nat)
    requires DistinctKeys(ms) && i < |ms|
    ensures Find(ms, ms[i].key) == Some(ms[i].val)
  {
    if i > 0 {
      FindDistinct(ms[1..], i - 1);
    }
  }

  /** Looking a key up in two dicts laid end to end finds it in the first
      when it is there. */
  lemma {:induction false} FindConcat(a: seq<Member>, b: seq<Member>, k: string)
    ensures Find(a + b, k) == if k in Keys(a) then Find(a, k) else Find(b, k)
  {
    if a == [] {
      assert a + b == b;
    } else {
      assert (a + b)[0] == a[0];
      if a[0].key == k {
        assert Keys(a)[0] == k;
      } else {
        assert (a + b)[1..] == a[1..] + b;
        assert Keys(a) == [a[0].key] + Keys(a[1..]);
        FindConcat(a[1..], b, k);
      }
    }
  }

  /** `d[k] = x` on a dict: an existing key keeps its place. */
  function Assign(ms: seq<Member>, k: string, x: Json): (r: seq<Member>)
    ensures Find(r, k) == Some(x)
    ensures k !in Keys(ms) ==> r == ms + [Member(k, x)]
    ensures k in Keys(ms) ==> Keys(r) == Keys(ms)
  {
    if ms == [] then [Member(k, x)]
    else if ms[0].key == k then
      AssignHere(ms, k, x);
      [Member(k, x)] + ms[1..]
    else
      var rest := Assign(ms[1..], k, x);
      AssignFurther(ms, k, x, rest);
      [ms[0]] + rest
  }

  lemma AssignHere(ms: seq<Member>, k: string, x: Json)
    requires ms != [] && ms[0].key == k
    ensures var r := [Member(k, x)] + ms[1..];
      Find(r, k) == Some(x) && k in Keys(ms) && Keys(r) == Keys(ms)
  {
    var r := [Member(k, x)] + ms[1..];
    assert Keys(r)[0] == k;
  }

  lemma AssignFurther(ms: seq<Member>, k: string, x: Json, rest: seq<Member>)
    requires ms != [] && ms[0].key != k
    requires Find(rest, k) == Some(x)
    requires k !in Keys(ms[1..]) ==> rest == ms[1..] + [Member(k, x)]
    requires k in Keys(ms[1..]) ==> Keys(rest) == Keys(ms[1..])
    ensures var r := [ms[0]] + rest;
      && Find(r, k) == Some(x)
      && (k !in Keys(ms) ==> r == ms + [Member(k, x)])
      && (k in Keys(ms) ==> Keys(r) == Keys(ms))
  {
    var r := [ms[0]] + rest;
    ConsTail(ms[0], rest);
    if k !in Keys(ms) {
      var m := Member(k, x);
      ConsSnoc(ms, m);
    }
  }

  // --------------------------------------------------- Python operations

  predicate Truthy(v: Json)
  {
    match v
    case JNull => false
    case JBool(b) => b
    case JInt(i) => i != 0
    case JFloat(m, _) => m != 0
    case JStr(s) => |s| > 0
    case JList(items) => |items| > 0
    case JObj(ms) => |ms| > 0
  }

  /** `isinstance(v, int)` (a bool is an int in Python). */
  predicate IsPyInt(v: Json) { v.JInt? || v.JBool? }

  predicate IsNumber(v: Json) { v.JBool? || v.JInt? || v.JFloat? }

  /** A number as the decimal fraction m / 10^e. */
  function Scaled(v: Json): (int, nat)
    requires IsNumber(v)
  {
    match v
    case JBool(b) => (if b then 1 else 0, 0)
    case JInt(i) => (i, 0)
    case JFloat(m, e) => (m, e)
  }

  /** Python `a == b` on these values: numbers compare by value, lists item
      by item, dicts by their key sets and the values under each key. */
  function PyEq(a: Json, b: Json): bool
    decreases a, 1
  {
    if IsNumber(a) && IsNumber(b) then
      var (m1, e1) := Scaled(a);
      var (m2, e2) := Scaled(b);
      m1 * Pow10(e2) == m2 * Pow10(e1)
    else
      match (a, b)
      case (JNull, JNull) => true
      case (JStr(s), JStr(t)) => s == t
      case (JList(xs), JList(ys)) => |xs| == |ys| && ListEq(xs, ys)
      case (JObj(ms), JObj(ns)) => |ms| == |ns| && MembersIn(ms, ns)
      case _ => false
  }

  function ListEq(xs: seq<Json>, ys: seq<Json>): bool
    requires |xs| == |ys|
    decreases xs, 0
  {
    xs == [] || (PyEq(xs[0], ys[0]) && ListEq(xs[1..], ys[1..]))
  }

  /** Every member of `ms` is in `ns` with an equal value. */
  function MembersIn(ms: seq<Member>, ns: seq<Member>): bool
    decreases ms, 0
  {
    ms == [] ||
    (var f := Find(ns, ms[0].key); f.Some? && PyEq(ms[0].val, f.value) && MembersIn(ms[1..], ns))
  }

  /** `v[k]` with a string key. */
  function Subscript(v: Json, k: string): (r: Result<Json>)
    ensures r.Ok? <==> v.JObj? && k in Keys(v.members)
    ensures r.Ok? ==> Find(v.members, k) == Some(r.value)
    ensures v.JObj? && r.Err? ==> r.error == KeyError
  {
    match v
    case JObj(ms) => (var f := Find(ms, k); if f.Some? then Ok(f.value) else Err(KeyError))
    case _ => Err(TypeError)
  }

  /** `v.get(k, default)`. */
  function GetOr(v: Json, k: string, default: Json): (r: Result<Json>)
    ensures r.Ok? <==> v.JObj?
    ensures r.Ok? ==> r.value == (var f := Find(v.members, k); if f.Some? then f.value else default)
  {
    match v
    case JObj(ms) => (var f := Find(ms, k); Ok(if f.Some? then f.value else default))
    case _ => Err(AttributeError)
  }

  /** `len(v)`. */
  function Len(v: Json): (r: Result<nat>)
    ensures r.Ok? <==> v.JStr? || v.JList? || v.JObj?
  {
    match v
    case JStr(s) => Ok(|s|)
    case JList(items) => Ok(|items|)
    case JObj(ms) => Ok(|ms|)
    case _ => Err(TypeError)
  }

  /** `v[i]` with a non-negative int index. */
  function At(v: Json, i: nat): (r: Result<Json>)
  {
    match v
    case JList(items) => if i < |items| then Ok(items[i]) else Err(IndexError)
    case JStr(s) => if i < |s| then Ok(JStr([s[i]])) else Err(IndexError)
    case JObj(_) => Err(KeyError)   // the keys of a payload dict are strings
    case _ => Err(TypeError)
  }

  /** The values a `for` loop over `v` visits. */
  function Iterate(v: Json): (r: Result<seq<Json>>)
  {
    match v
    case JList(items) => Ok(items)
    case JStr(s) => Ok(seq(|s|, i requires 0 <= i < |s| => JStr([s[i]])))
    case JObj(ms) => Ok(seq(|ms|, i requires 0 <= i < |ms| => JStr(ms[i].key)))
    case _ => Err(TypeError)
  }

  /** `v.items()`. */
  function Items(v: Json): (r: Result<seq<Member>>)
    ensures r.Ok? <==> v.JObj?
    ensures r.Ok? ==> r.value == v.members
  {
    match v
    case JObj(ms) => Ok(ms)
    case _ => Err(AttributeError)
  }

  /** `v[k] = x`. */
  function SetItem(v: Json, k: string, x: Json): (r: Result<Json>)
    ensures r.Ok? <==> v.JObj?
    ensures r.Ok? ==> r.value == JObj(Assign(v.members, k, x))
  {
    match v
    case JObj(ms) => Ok(JObj(Assign(ms, k, x)))
    case _ => Err(TypeError)
  }

  // ------------------------------------------------------------ int(v)

  predicate IsSpace(c: char) { c == ' ' || c == '\t' || c == '\n' || c == '\r' || c == '\U{b}' || c == '\U{c}' }

  function Strip(s: string): (r: string)
    ensures |r| <= |s|
    decreases |s|
  {
    if s == [] then s
    else if IsSpace(s[0]) then Strip(s[1..])
    else if IsSpace(s[|s| - 1]) then Strip(s[..|s| - 1])
    else s
  }

  predicate AllDigits(s: string) { forall k :: 0 <= k < |s| ==> IsDigit(s[k]) }

  /** The value of a base-10 integer literal as `int()` reads it. */
  function ParseIntLiteral(s: string): (r: Option<int>)
  {
    var t := Strip(s);
    if |t| > 0 && (t[0] == '+' || t[0] == '-') then
      var d := t[1..];
      var n: int := if |d| > 0 && AllDigits(d) then DigitsValue(d) else 0;
      if |d| > 0 && AllDigits(d) then Some(if t[0] == '-' then -n else n) else None
    else if |t| > 0 && AllDigits(t) then Some(DigitsValue(t))
    else None
  }

  /** `int(v)`: truncates a float toward zero, parses a string. */
  function IntOf(v: Json): (r: Result<int>)
    ensures v.JInt? ==> r == Ok(v.i)
    ensures r.Err? && r.error.ValueError? ==> v.JStr?
  {
    match v
    case JInt(i) => Ok(i)
    case JBool(b) => Ok(if b then 1 else 0)
    case JFloat(m, e) => Ok(if m >= 0 then m / Pow10(e) else -((-m) / Pow10(e)))
    case JStr(s) =>
      var p := ParseIntLiteral(s);
      if p.Some? then Ok(p.value)
      else Err(ValueError("invalid literal for int() with base 10: " + QuoteString(s)))
    case _ => Err(TypeError)
  }

  // ------------------------------------------------------ str(v), repr(v)

  /** The last e decimal digits of a, with leading zeros. */
  function LowDigits(a: nat, e: nat): (r: string)
    ensures |r| == e
  {
    if e == 0 then "" else LowDigits(a / 10, e - 1) + [DigitChar(a % 10)]
  }

  /** a / 10^e rounded toward zero. */
  function HighPart(a: nat, e: nat): nat
  {
    if e == 0 then a else HighPart(a / 10, e - 1)
  }

  /** The digits of a / 10^e with exactly e digits after the point. */
  function FixedPoint(a: nat, e: nat): string
  {
    NatToString(HighPart(a, e)) + "." + LowDigits(a, e)
  }

  /** `repr` of a float that holds m / 10^e, in its shortest decimal form. */
  function FloatToString(m: int, e: nat): string
    decreases e
  {
    if e > 0 && m % 10 == 0 then FloatToString(m / 10, e - 1)
    else if e == 0 then IntToString(m) + ".0"
    else if m < 0 then "-" + FixedPoint(-m, e)
    else FixedPoint(m, e)
  }

  function Repr(v: Json): string
    decreases v, 1
  {
    match v
    case JNull => "None"
    case JBool(b) => if b then "True" else "False"
    case JInt(i) => IntToString(i)
    case JFloat(m, e) => FloatToString(m, e)
    case JStr(s) => QuoteString(s)
    case JList(items) => "[" + Join(ReprItems(items), ", ") + "]"
    case JObj(ms) => "{" + Join(ReprMembers(ms), ", ") + "}"
  }

  function ReprItems(items: seq<Json>): (r: seq<string>)
    ensures |r| == |items|
    decreases items, 0
  {
    if items == [] then [] else [Repr(items[0])] + ReprItems(items[1..])
  }

  function ReprMembers(ms: seq<Member>): (r: seq<string>)
    ensures |r| == |ms|
    decreases ms, 0
  {
    if ms == [] then [] else [QuoteString(ms[0].key) + ": " + Repr(ms[0].val)] + ReprMembers(ms[1..])
  }

  /** `str(v)`, which is what an f-string inserts. */
  function Str(v: Json): string
  {
    if v.JStr? then v.s else Repr(v)
  }

  // ------------------------------------------------------------ lemmas

  lemma {:induction false} PyEqReflexive(v: Json)
    requires Wf(v)
    ensures PyEq(v, v)
    decreases v, 1
  {
    match v
    case JList(items) => ListEqReflexive(items);
    case JObj(ms) => MembersInSelf(ms, ms, 0);
    case _ =>
  }

  lemma {:induction false} ListEqReflexive(xs: seq<Json>)
    requires AllWf(xs)
    ensures ListEq(xs, xs)
    decreases xs, 0
  {
    if xs != [] {
      PyEqReflexive(xs[0]);
      ListEqReflexive(xs[1..]);
    }
  }

  lemma {:induction false} MembersInSelf(ms: seq<Member>, all: seq<Member>, k: nat)
    requires DistinctKeys(all) && AllMembersWf(all)
    requires k <= |all| && ms == all[k..]
    ensures MembersIn(ms, all)
    decreases ms, 0
  {
    if ms != [] {
      FindDistinct(all, k);
      PyEqReflexive(ms[0].val);
      MembersInSelf(ms[1..], all, k + 1);
    }
  }
}
