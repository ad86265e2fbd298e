/** Records: the generic attribute bag `Record`, and the three concrete kinds
    the bot logs. A `Set` is optional reps, duration and weight; an
    `Activity` is a name with an ordered list of sets; a `Pain` is a body
    part with a level from 0 to 3. */
module Records {
  import opened Wrappers
  import opened Text
  import opened Json
  import opened Seqs
  import opened Measurements

  /** An attribute value: a Measurement object or any other Python value. */
  datatype Value = Meas(m: Measurement) | Plain(v: Json)

  /** A value as a constructor may store it: a Measurement object is always
      valid, and a dict has been turned into a Measurement. */
  predicate ValidValue(x: Value)
  {
    match x
    case Meas(m) => Valid(m)
    case Plain(v) => !v.JObj?
  }

  predicate IsNone(x: Value) { x == Plain(JNull) }

  /** `bool(x)`: a Measurement defines no truth value, so it is always true. */
  predicate ValueTruthy(x: Value) { x.Meas? || Truthy(x.v) }

  /** `str(x)`. */
  function ValueStr(x: Value): string
  {
    match x
    case Meas(m) => Render(m)
    case Plain(v) => Str(v)
  }

  /** `x.to_dict() if hasattr(x, "to_dict") else x`. */
  function ValueDict(x: Value): Json
  {
    match x
    case Meas(m) => ToDict(m)
    case Plain(v) => v
  }

  /** `x != y` once both are known to be None or both not None: comparing a
      Measurement with anything but a Measurement reads a missing `amount`. */
  function ValueDiffers(x: Value, y: Value): (r: Result<bool>)
    ensures r.Err? <==> x.Meas? != y.Meas?
    ensures r.Err? ==> r.error == AttributeError
  {
    match (x, y)
    case (Meas(a), Meas(b)) => Ok(!Eq(a, b))
    case (Plain(a), Plain(b)) => Ok(!PyEq(a, b))
    case _ => Err(AttributeError)
  }

  /** One step of the attribute-wise `__eq__`: a None on one side only makes
      the values differ, otherwise `!=` decides. */
  function AttrDiffers(x: Value, y: Value): Result<bool>
  {
    if IsNone(x) != IsNone(y) then Ok(true) else ValueDiffers(x, y)
  }

  /** A duration or weight given as a dict becomes `Measurement(**dict)`. */
  function ConvertValue(x: Value): (r: Result<Value>)
    requires x.Meas? ==> Valid(x.m)
    ensures r.Ok? ==> ValidValue(r.value)
    ensures x.Plain? && x.v.JObj? ==> r.Ok? == FromKwargs(x.v).Ok?
    ensures !(x.Plain? && x.v.JObj?) ==> r == Ok(x)
  {
    if x.Plain? && x.v.JObj? then
      var m :- FromKwargs(x.v);
      Ok(Meas(m))
    else Ok(x)
  }

  // ------------------------------------------------------------------ Set

  datatype Set = Set(reps: Json, duration: Value, weight: Value)

  /** What `Set.__init__` lets through. */
  predicate ValidSet(s: Set)
  {
    (!Truthy(s.reps) || IsPyInt(s.reps)) && ValidValue(s.duration) && ValidValue(s.weight)
  }

  /** `Set(reps, duration, weight)`. */
  function NewSet(reps: Json, duration: Value, weight: Value): (r: Result<Set>)
    requires duration.Meas? ==> Valid(duration.m)
    requires weight.Meas? ==> Valid(weight.m)
    ensures Truthy(reps) && !IsPyInt(reps) ==> r == Err(TypeError)
    ensures r.Ok? <==> (!Truthy(reps) || IsPyInt(reps)) && ConvertValue(duration).Ok? && ConvertValue(weight).Ok?
    ensures r.Ok? ==> ValidSet(r.value) && r.value.reps == reps
    ensures r.Ok? ==> r.value.duration == ConvertValue(duration).value && r.value.weight == ConvertValue(weight).value
  {
    if Truthy(reps) && !IsPyInt(reps) then Err(TypeError)
    else
      var d :- ConvertValue(duration);
      var w :- ConvertValue(weight);
      Ok(Set(reps, d, w))
  }

  /** The value of a keyword argument, None when it is not passed. */
  function Kwarg(ms: seq<Member>, k: string): Json
  {
    var f := Find(ms, k);
    if f.Some? then f.value else JNull
  }

  /** `Set(**d)`. */
  function SetFromKwargs(d: Json): (r: Result<Set>)
    ensures r.Ok? ==> ValidSet(r.value)
    ensures r.Ok? ==> d.JObj? && OnlyKeys(d.members, {"reps", "duration", "weight"})
  {
    if !d.JObj? || !OnlyKeys(d.members, {"reps", "duration", "weight"}) then Err(TypeError)
    else NewSet(Kwarg(d.members, "reps"), Plain(Kwarg(d.members, "duration")), Plain(Kwarg(d.members, "weight")))
  }

  /** `s.to_dict()`: the truthy fields in the order reps, duration, weight. */
  function SetToDict(s: Set): Json
  {
    JObj((if Truthy(s.reps) then [Member("reps", s.reps)] else [])
      + (if ValueTruthy(s.duration) then [Member("duration", ValueDict(s.duration))] else [])
      + (if ValueTruthy(s.weight) then [Member("weight", ValueDict(s.weight))] else []))
  }

  /** `str(s)`: "<reps>x", duration and weight, skipping falsy parts. */
  function RenderSet(s: Set): string
  {
    Join((if Truthy(s.reps) then [Str(s.reps) + "x"] else [])
      + (if ValueTruthy(s.duration) then [ValueStr(s.duration)] else [])
      + (if ValueTruthy(s.weight) then [ValueStr(s.weight)] else []), " ")
  }

  /** `s1 == s2`, field by field in the order reps, duration, weight. */
  function SetEq(s1: Set, s2: Set): Result<bool>
  {
    if AttrDiffers(Plain(s1.reps), Plain(s2.reps)) == Ok(true) then Ok(false)
    else
      var d :- AttrDiffers(s1.duration, s2.duration);
      if d then Ok(false)
      else
        var w :- AttrDiffers(s1.weight, s2.weight);
        Ok(!w)
  }

  /** The set that `Set(**s.to_dict())` rebuilds: every falsy field is None. */
  function DropFalsy(s: Set): Set
  {
    Set(if Truthy(s.reps) then s.reps else JNull,
        if ValueTruthy(s.duration) then s.duration else Plain(JNull),
        if ValueTruthy(s.weight) then s.weight else Plain(JNull))
  }

  /** No field is falsy without being None (reps is not 0, no "" or []). */
  predicate NoneOrTruthy(s: Set)
  {
    (s.reps == JNull || Truthy(s.reps))
    && (IsNone(s.duration) || ValueTruthy(s.duration))
    && (IsNone(s.weight) || ValueTruthy(s.weight))
  }

  predicate WfSet(s: Set)
  {
    Wf(s.reps)
    && (s.duration.Meas? ==> Wf(s.duration.m.amount)) && (s.duration.Plain? ==> Wf(s.duration.v))
    && (s.weight.Meas? ==> Wf(s.weight.m.amount)) && (s.weight.Plain? ==> Wf(s.weight.v))
  }

  function SetsToDicts(sets: seq<Set>): (r: seq<Json>)
    ensures |r| == |sets| && forall i :: 0 <= i < |sets| ==> r[i] == SetToDict(sets[i])
  {
    if sets == [] then [] else [SetToDict(sets[0])] + SetsToDicts(sets[1..])
  }

  function RenderSets(sets: seq<Set>): (r: seq<string>)
    ensures |r| == |sets| && forall i :: 0 <= i < |sets| ==> r[i] == RenderSet(sets[i])
  {
    if sets == [] then [] else RenderSets(sets[..|sets| - 1]) + [RenderSet(sets[|sets| - 1])]
  }

  function DropFalsyAll(sets: seq<Set>): (r: seq<Set>)
    ensures |r| == |sets| && forall i :: 0 <= i < |sets| ==> r[i] == DropFalsy(sets[i])
  {
    if sets == [] then [] else DropFalsyAll(sets[..|sets| - 1]) + [DropFalsy(sets[|sets| - 1])]
  }

  /** Sets built one after another from the dicts of a `sets` list; the
      first dict that fails stops the loop. */
  function SetsFrom(items: seq<Json>): (r: Result<seq<Set>>)
    ensures r.Ok? ==> |r.value| == |items| && forall i :: 0 <= i < |items| ==> ValidSet(r.value[i])
  {
    if items == [] then Ok([])
    else
      var init :- SetsFrom(items[..|items| - 1]);
      var s :- SetFromKwargs(items[|items| - 1]);
      Ok(init + [s])
  }

  /** Once a prefix of the dicts fails, the whole list fails the same way. */
  lemma {:induction false} SetsFromStopsAtError(items: seq<Json>, k: nat)
    requires k <= |items| && SetsFrom(items[..k]).Err?
    ensures SetsFrom(items) == SetsFrom(items[..k])
    decreases |items|
  {
    if k < |items| {
      assert items[..|items| - 1][..k] == items[..k];
      SetsFromStopsAtError(items[..|items| - 1], k);
    } else {
      assert items[..k] == items;
    }
  }

  /** `xs != ys` on two lists of sets: lists of different lengths differ at
      once, otherwise the first pair that is not equal decides. */
  function SetsDiffer(xs: seq<Set>, ys: seq<Set>): Result<bool>
  {
    if |xs| != |ys| then Ok(true)
    else if xs == [] then Ok(false)
    else
      var e :- SetEq(xs[0], ys[0]);
      if !e then Ok(true) else SetsDiffer(xs[1..], ys[1..])
  }

  // ------------------------------------------------------------- Activity

  /** The `sets` argument of `Activity(name, sets)`. */
  datatype SetsArg =
    | NoSets                   // None
    | OneSet(s: Set)           // a single Set
    | SetList(items: seq<Set>) // a list whose every element is a Set
    | NotSets                  // anything else

  function InitialSets(arg: SetsArg): Result<seq<Set>>
  {
    match arg
    case NoSets => Ok([Set(JInt(1), Plain(JNull), Plain(JNull))])
    case OneSet(s) => Ok([s])
    case SetList(items) => Ok(items)
    case NotSets => Err(TypeError)
  }

  /** `activity_dict` read back into a name and its sets. */
  function ActivityFromDict(d: Json): (r: Result<(string, seq<Set>)>)
    ensures r.Ok? ==> forall j :: 0 <= j < |r.value.1| ==> ValidSet(r.value.1[j])
  {
    var n :- Subscript(d, "name");
    if !n.JStr? then Err(TypeError)
    else
      var ss :- Subscript(d, "sets");
      var items :- Iterate(ss);
      var sets :- SetsFrom(items);
      Ok((n.s, sets))
  }

  /** `activity.to_dict(include_name)`: "sets" first, then "name". */
  function ActivityDict(name: string, sets: seq<Set>, includeName: bool): Json
  {
    JObj([Member("sets", JList(SetsToDicts(sets)))] + if includeName then [Member("name", JStr(name))] else [])
  }

  /** `str(activity)`. */
  function RenderActivity(name: string, sets: seq<Set>): string
  {
    name + " " + IntToString(|sets|) + " sets: " + Join(RenderSets(sets), ", ")
  }

  /** `a1 == a2`: the base-class comparison visits the attribute names
      "name" and "sets" in the iteration order of a Python set, which the
      program does not fix; `nameFirst` says which of the two comes first.
      The first attribute that differs answers False, and comparing the set
      lists can raise. */
  function ActivityEq(name1: string, sets1: seq<Set>, name2: string, sets2: seq<Set>, nameFirst: bool): Result<bool>
  {
    if nameFirst then
      if name1 != name2 then Ok(false)
      else
        var d :- SetsDiffer(sets1, sets2);
        Ok(!d)
    else
      var d :- SetsDiffer(sets1, sets2);
      Ok(!d && name1 == name2)
  }

  class Activity {
    const name: string
    var sets: seq<Set>

    constructor(name: string, sets: seq<Set>)
      ensures this.name == name && this.sets == sets
    {
      this.name := name;
      this.sets := sets;
    }

    /** `Activity(name, sets)`. */
    static method Create(name: string, arg: SetsArg) returns (r: Result<Activity>)
      ensures r.Ok? <==> InitialSets(arg).Ok?
      ensures r.Ok? ==> fresh(r.value) && r.value.name == name && r.value.sets == InitialSets(arg).value
      ensures r.Err? ==> r.error == TypeError
    {
      var s := InitialSets(arg);
      if s.Err? {
        return Err(s.error);
      }
      var a := new Activity(name, s.value);
      return Ok(a);
    }

    /** `Activity.from_dict(d)`: an Activity with no sets, to which a Set
        built from each dict of `d["sets"]` is appended. */
    static method FromDict(d: Json) returns (r: Result<Activity>)
      ensures r.Ok? <==> ActivityFromDict(d).Ok?
      ensures r.Ok? ==> fresh(r.value) && (r.value.name, r.value.sets) == ActivityFromDict(d).value
      ensures r.Err? ==> r.error == ActivityFromDict(d).error
    {
      var n := Subscript(d, "name");
      if n.Err? {
        return Err(n.error);
      }
      if !n.value.JStr? {
        return Err(TypeError);
      }
      var activity := new Activity(n.value.s, []);
      var ss := Subscript(d, "sets");
      if ss.Err? {
        return Err(ss.error);
      }
      var items := Iterate(ss.value);
      if items.Err? {
        return Err(items.error);
      }
      var i := 0;
      while i < |items.value|
        invariant 0 <= i <= |items.value|
        invariant SetsFrom(items.value[..i]) == Ok(activity.sets)
        invariant fresh(activity) && activity.name == n.value.s
      {
        assert items.value[..i + 1][..i] == items.value[..i];
        var s := SetFromKwargs(items.value[i]);
        if s.Err? {
          SetsFromStopsAtError(items.value, i + 1);
          return Err(s.error);
        }
        activity.AddSet(s.value);
        i := i + 1;
      }
      assert items.value[..i] == items.value;
      return Ok(activity);
    }

    /** `add_set(s)`: appends at the end and changes nothing else. */
    method AddSet(s: Set)
      modifies this
      ensures sets == old(sets) + [s]
    {
      sets := sets + [s];
    }

    function ToDict(includeName: bool): Json
      reads this
    {
      ActivityDict(name, sets, includeName)
    }

    function Render(): string
      reads this
    {
      RenderActivity(name, sets)
    }

    function Eq(other: Activity, nameFirst: bool): Result<bool>
      reads this, other
    {
      ActivityEq(name, sets, other.name, other.sets, nameFirst)
    }
  }

  // ----------------------------------------------------------------- Pain

  const AllowedLevels: seq<int> := [0, 1, 2, 3]

  datatype Pain = Pain(name: string, level: Json)

  /** `level in ALLOWED_LEVELS`. */
  predicate LevelAllowed(level: Json)
  {
    exists k :: 0 <= k < |AllowedLevels| && PyEq(level, JInt(AllowedLevels[k]))
  }

  function LevelError(level: Json): Exc
  {
    ValueError("Invalid pain level: " + Str(level) + ". Allowed levels are: 0, 1, 2, 3")
  }

  /** `Pain(name, level)`. */
  function NewPain(name: string, level: Json): (r: Result<Pain>)
    ensures r.Ok? <==> LevelAllowed(level)
    ensures r.Ok? ==> r.value == Pain(name, level)
    ensures r.Err? ==> r.error == LevelError(level)
  {
    if LevelAllowed(level) then Ok(Pain(name, level)) else Err(LevelError(level))
  }

  /** `Pain(**d)`. */
  function PainFromKwargs(d: Json): (r: Result<Pain>)
    ensures r.Ok? ==> LevelAllowed(r.value.level)
  {
    if !d.JObj? || !OnlyKeys(d.members, {"name", "level"}) then Err(TypeError)
    else
      var n := Find(d.members, "name");
      var l := Find(d.members, "level");
      if n.None? || l.None? || !n.value.JStr? then Err(TypeError)
      else NewPain(n.value.s, l.value)
  }

  /** `pain.to_dict()`, the base-class conversion of its two attributes. */
  function PainDict(p: Pain): Json
  {
    JObj([Member("name", JStr(p.name)), Member("level", p.level)])
  }

  /** `str(pain)`. */
  function RenderPain(p: Pain): string
  {
    p.name + ": " + Str(p.level)
  }

  /** `p1 == p2`: the base-class comparison of name and level. */
  function PainEq(p1: Pain, p2: Pain): bool
  {
    p1.name == p2.name && PyEq(p1.level, p2.level)
  }

  // --------------------------------------------------------------- Record

  datatype Attr = Attr(key: string, val: Value)

  function AttrKeys(attrs: seq<Attr>): (r: seq<string>)
    ensures |r| == |attrs| && forall i :: 0 <= i < |attrs| ==> r[i] == attrs[i].key
  {
    if attrs == [] then [] else [attrs[0].key] + AttrKeys(attrs[1..])
  }

  predicate IsDunder(k: string) { |k| >= 2 && k[..2] == "__" }

  /** `setattr(obj, k, x)` on an attribute list. */
  function SetAttr(attrs: seq<Attr>, k: string, x: Value): (r: seq<Attr>)
    ensures k in AttrKeys(r)
    ensures k !in AttrKeys(attrs) ==> r == attrs + [Attr(k, x)]
  {
    if attrs == [] then [Attr(k, x)]
    else if attrs[0].key == k then [Attr(k, x)] + attrs[1..]
    else [attrs[0]] + SetAttr(attrs[1..], k, x)
  }

  /** The `attributes` property: every entry except the dunder ones. */
  function Visible(attrs: seq<Attr>): (r: seq<Attr>)
    ensures forall i :: 0 <= i < |r| ==> r[i] in attrs && !IsDunder(r[i].key)
    ensures forall i :: 0 <= i < |attrs| && !IsDunder(attrs[i].key) ==> attrs[i] in r
  {
    if attrs == [] then []
    else (if IsDunder(attrs[0].key) then [] else [attrs[0]]) + Visible(attrs[1..])
  }

  /** The dict `to_dict(include_name)` builds, one `x[k] = v` at a time. */
  function RecordMembers(attrs: seq<Attr>, includeName: bool): (r: seq<Member>)
    ensures !includeName ==> "name" !in Keys(r)
  {
    if attrs == [] then []
    else
      var init := RecordMembers(attrs[..|attrs| - 1], includeName);
      var last := attrs[|attrs| - 1];
      if !includeName && last.key == "name" then init
      else Assign(init, last.key, ValueDict(last.val))
  }

  /** Each attribute, in order, with a Measurement replaced by its dict and
      `name` left out unless asked for. */
  function DictEntries(attrs: seq<Attr>, includeName: bool): (r: seq<Member>)
  {
    if attrs == [] then []
    else
      (if !includeName && attrs[0].key == "name" then [] else [Member(attrs[0].key, ValueDict(attrs[0].val))])
      + DictEntries(attrs[1..], includeName)
  }

  predicate DistinctAttrKeys(attrs: seq<Attr>)
  {
    forall i, j :: 0 <= i < j < |attrs| ==> attrs[i].key != attrs[j].key
  }

  /** `str(x)` of an attribute value inside a record's rendering: a list
      shows as the list of its items' `str`. */
  function RecordValueStr(x: Value): string
  {
    if x.Plain? && x.v.JList? then "[" + Join(QuotedStrs(x.v.items), ", ") + "]"
    else ValueStr(x)
  }

  function QuotedStrs(items: seq<Json>): (r: seq<string>)
    ensures |r| == |items|
  {
    if items == [] then [] else [QuoteString(Str(items[0]))] + QuotedStrs(items[1..])
  }

  /** The parts of `str(record)`: every truthy attribute except `name`. */
  function RecordParts(attrs: seq<Attr>): seq<string>
  {
    if attrs == [] then []
    else
      (if attrs[0].key == "name" || !ValueTruthy(attrs[0].val) then []
       else [attrs[0].key + " " + RecordValueStr(attrs[0].val)])
      + RecordParts(attrs[1..])
  }

  /** `str(record)` of a record with this name and these attributes. */
  function RenderRecord(name: Json, attrs: seq<Attr>): string
  {
    Str(name) + ": " + Join(RecordParts(attrs), ", ")
  }

  function FindAttr(attrs: seq<Attr>, k: string): (r: Option<Value>)
    ensures r.Some? <==> k in AttrKeys(attrs)
  {
    if attrs == [] then None
    else if attrs[0].key == k then Some(attrs[0].val)
    else FindAttr(attrs[1..], k)
  }

  /** `r1 == r2`, visiting the attribute names in `order`, the iteration
      order of the set of both records' attribute names. */
  function RecordEq(a: seq<Attr>, b: seq<Attr>, order: seq<string>): Result<bool>
  {
    if order == [] then Ok(true)
    else
      var x := FindAttr(a, order[0]);
      var y := FindAttr(b, order[0]);
      if x.None? || y.None? then Err(AttributeError)
      else
        var d :- AttrDiffers(x.value, y.value);
        if d then Ok(false) else RecordEq(a, b, order[1..])
  }

  /** Setting the next keyword argument appends it: its name is new. */
  lemma SetNextKwarg(name: Json, kwargs: seq<Attr>, i: nat)
    requires DistinctAttrKeys(kwargs) && "name" !in AttrKeys(kwargs) && i < |kwargs|
    ensures SetAttr([Attr("name", Plain(name))] + kwargs[..i], kwargs[i].key, kwargs[i].val)
      == [Attr("name", Plain(name))] + kwargs[..i + 1]
  {
    var d := [Attr("name", Plain(name))] + kwargs[..i];
    assert AttrKeys(d)[1..] == AttrKeys(kwargs[..i]);
    assert kwargs[i].key == AttrKeys(kwargs)[i];
    assert kwargs[i].key !in AttrKeys(d);
    TakeOneMore(kwargs, i + 1);
  }

  /** One more attribute makes one more `x[k] = v` step, skipped for `name`
      when it is left out. */
  lemma RecordMembersStep(attrs: seq<Attr>, i: nat, includeName: bool)
    requires i < |attrs|
    ensures RecordMembers(attrs[..i + 1], includeName)
      == if includeName || attrs[i].key != "name"
         then Assign(RecordMembers(attrs[..i], includeName), attrs[i].key, ValueDict(attrs[i].val))
         else RecordMembers(attrs[..i], includeName)
  {
    TakeTake(attrs, i);
  }

  class Record {
    const name: Json
    /** The instance `__dict__`, in insertion order. */
    const dict: seq<Attr>

    /** `Record(name, **kwargs)`: Python's call syntax guarantees the keyword
        names are distinct and that none of them is `name`. */
    constructor(name: Json, kwargs: seq<Attr>)
      requires DistinctAttrKeys(kwargs)
      requires "name" !in AttrKeys(kwargs)
      ensures this.name == name
      ensures dict == [Attr("name", Plain(name))] + kwargs
    {
      var d := [Attr("name", Plain(name))];
      var i := 0;
      while i < |kwargs|
        invariant 0 <= i <= |kwargs|
        invariant d == [Attr("name", Plain(name))] + kwargs[..i]
      {
        SetNextKwarg(name, kwargs, i);
        d := SetAttr(d, kwargs[i].key, kwargs[i].val);
        i := i + 1;
      }
      TakeAll(kwargs);
      this.name := name;
      dict := d;
    }

    /** The `attributes` property. */
    function Attributes(): seq<Attr>
    {
      Visible(dict)
    }

    /** `to_dict(include_name)`. */
    method ToDict(includeName: bool) returns (r: Json)
      ensures r == JObj(RecordMembers(Attributes(), includeName))
    {
      var attrs := Attributes();
      var x: seq<Member> := [];
      var i := 0;
      while i < |attrs|
        invariant 0 <= i <= |attrs|
        invariant x == RecordMembers(attrs[..i], includeName)
      {
        RecordMembersStep(attrs, i, includeName);
        if includeName || attrs[i].key != "name" {
          x := Assign(x, attrs[i].key, ValueDict(attrs[i].val));
        }
        i := i + 1;
      }
      TakeAll(attrs);
      r := JObj(x);
    }

    /** `str(record)`. */
    function Render(): string
    {
      RenderRecord(name, Attributes())
    }

    function Eq(other: Record, order: seq<string>): Result<bool>
    {
      RecordEq(Attributes(), other.Attributes(), order)
    }
  }

  // --------------------------------------------------------------- lemmas

  /** One more attribute adds one more part to `str(record)`, unless it is
      `name` or falsy, which are skipped. */
  lemma {:induction false} RecordPartsSnoc(attrs: seq<Attr>, a: Attr)
    ensures RecordParts(attrs + [a])
      == RecordParts(attrs) + if a.key == "name" || !ValueTruthy(a.val) then [] else [a.key + " " + RecordValueStr(a.val)]
  {
    if attrs != [] {
      assert (attrs + [a])[1..] == attrs[1..] + [a];
      RecordPartsSnoc(attrs[1..], a);
    }
  }

  /** The parts of the docstring sample, built one attribute at a time. */
  lemma RecordSampleParts()
    ensures RecordParts([Attr("name", Plain(JStr("Name"))), Attr("reps", Plain(JInt(10))), Attr("other_attribute", Plain(JInt(5)))])
      == ["reps 10", "other_attribute 5"]
  {
    var a0, a1, a2 := Attr("name", Plain(JStr("Name"))), Attr("reps", Plain(JInt(10))), Attr("other_attribute", Plain(JInt(5)));
    TwoDigits(10);
    assert RecordValueStr(a1.val) == "10" && RecordValueStr(a2.val) == "5";
    assert ValueTruthy(a1.val) && ValueTruthy(a2.val);
    assert a1.key != "name" && a2.key != "name";
    assert a1.key + " " + RecordValueStr(a1.val) == "reps 10";
    assert a2.key + " " + RecordValueStr(a2.val) == "other_attribute 5";
    assert [] + [a0] == [a0] && [a0] + [a1] == [a0, a1] && [a0, a1] + [a2] == [a0, a1, a2];
    RecordPartsSnoc([], a0);
    RecordPartsSnoc([a0], a1);
    RecordPartsSnoc([a0, a1], a2);
  }

  lemma RecordSampleVisible(attrs: seq<Attr>)
    requires attrs == [Attr("name", Plain(JStr("Name"))), Attr("reps", Plain(JInt(10))), Attr("other_attribute", Plain(JInt(5)))]
    ensures Visible(attrs) == attrs
  {
    assert "name"[..2] == "na" && "reps"[..2] == "re" && "other_attribute"[..2] == "ot";
    VisibleKeepsAll(attrs);
  }

  lemma RecordSampleShown(attrs: seq<Attr>)
    requires attrs == [Attr("name", Plain(JStr("Name"))), Attr("reps", Plain(JInt(10))), Attr("other_attribute", Plain(JInt(5)))]
    ensures RecordParts(Visible(attrs)) == ["reps 10", "other_attribute 5"]
  {
    RecordSampleVisible(attrs);
    RecordSampleParts();
  }

  lemma RecordSampleText()
    ensures "Name" + ": " + "reps 10" + ", " + "other_attribute 5" == "Name: reps 10, other_attribute 5"
  {
  }

  /** The docstring sample: "Name: reps 10, other_attribute 5". */
  lemma RenderRecordSample(attrs: seq<Attr>)
    requires attrs == [Attr("name", Plain(JStr("Name"))), Attr("reps", Plain(JInt(10))), Attr("other_attribute", Plain(JInt(5)))]
    ensures RenderRecord(JStr("Name"), Visible(attrs)) == "Name: reps 10, other_attribute 5"
  {
    RecordSampleShown(attrs);
    RenderRecordOfTwo("Name", Visible(attrs), "reps 10", "other_attribute 5");
    RecordSampleText();
  }

  lemma RenderRecordOfTwo(name: string, attrs: seq<Attr>, p1: string, p2: string)
    requires RecordParts(attrs) == [p1, p2]
    ensures RenderRecord(JStr(name), attrs) == name + ": " + p1 + ", " + p2
  {
    JoinTwo(p1, p2, ", ");
  }

  /** An attribute named `name`, or a falsy one, leaves `str(record)` as it
      is. */
  lemma RenderRecordSkips(name: Json, attrs: seq<Attr>, a: Attr)
    requires !IsDunder(a.key) && (a.key == "name" || !ValueTruthy(a.val))
    ensures RenderRecord(name, Visible(attrs + [a])) == RenderRecord(name, Visible(attrs))
  {
    VisibleSnoc(attrs, a);
    RecordPartsSnoc(Visible(attrs), a);
    assert RecordParts(Visible(attrs)) + [] == RecordParts(Visible(attrs));
  }

  /** Any other attribute adds its part at the end, after ", ". */
  lemma RenderRecordAppends(name: Json, attrs: seq<Attr>, a: Attr)
    requires !IsDunder(a.key) && a.key != "name" && ValueTruthy(a.val) && RecordParts(Visible(attrs)) != []
    ensures RenderRecord(name, Visible(attrs + [a])) == RenderRecord(name, Visible(attrs)) + ", " + (a.key + " " + RecordValueStr(a.val))
  {
    VisibleSnoc(attrs, a);
    RecordPartsSnoc(Visible(attrs), a);
    RenderRecordOfMore(name, Visible(attrs), RecordParts(Visible(attrs)), a.key + " " + RecordValueStr(a.val));
  }

  lemma RenderRecordOfMore(name: Json, attrs: seq<Attr>, parts: seq<string>, part: string)
    requires RecordParts(attrs) == parts && parts != []
    ensures Str(name) + ": " + Join(parts + [part], ", ") == RenderRecord(name, attrs) + ", " + part
  {
    JoinAppend(parts, part, ", ");
  }

  lemma {:induction false} VisibleSnoc(attrs: seq<Attr>, a: Attr)
    requires !IsDunder(a.key)
    ensures Visible(attrs + [a]) == Visible(attrs) + [a]
  {
    if attrs != [] {
      assert (attrs + [a])[1..] == attrs[1..] + [a];
      VisibleSnoc(attrs[1..], a);
    }
  }

  lemma ConvertDictOfValue(x: Value)
    requires ValidValue(x) && ValueTruthy(x)
    ensures ConvertValue(Plain(ValueDict(x))) == Ok(x)
  {
    if x.Meas? {
      ToDictRoundTrip(x.m);
    }
  }

  /** The keyword arguments `Set(**s.to_dict())` receives: each truthy
      field, and None for the others. */
  lemma SetDictKwargs(s: Set)
    ensures Kwarg(SetToDict(s).members, "reps") == if Truthy(s.reps) then s.reps else JNull
    ensures Kwarg(SetToDict(s).members, "duration") == if ValueTruthy(s.duration) then ValueDict(s.duration) else JNull
    ensures Kwarg(SetToDict(s).members, "weight") == if ValueTruthy(s.weight) then ValueDict(s.weight) else JNull
  {
    var a := if Truthy(s.reps) then [Member("reps", s.reps)] else [];
    var b := if ValueTruthy(s.duration) then [Member("duration", ValueDict(s.duration))] else [];
    var c := if ValueTruthy(s.weight) then [Member("weight", ValueDict(s.weight))] else [];
    assert SetToDict(s).members == a + b + c;
    FindConcat(a + b, c, "reps");
    FindConcat(a, b, "reps");
    FindConcat(a + b, c, "duration");
    FindConcat(a, b, "duration");
    FindConcat(a + b, c, "weight");
    FindConcat(a, b, "weight");
  }

  /** `Set(**s.to_dict())` gives back `s` with every falsy field set to None. */
  lemma SetRoundTrip(s: Set)
    requires ValidSet(s)
    ensures SetFromKwargs(SetToDict(s)) == Ok(DropFalsy(s))
  {
    var ms := SetToDict(s).members;
    assert OnlyKeys(ms, {"reps", "duration", "weight"});
    assert SetFromKwargs(SetToDict(s))
      == NewSet(Kwarg(ms, "reps"), Plain(Kwarg(ms, "duration")), Plain(Kwarg(ms, "weight")));
    SetDictKwargs(s);
    if ValueTruthy(s.duration) {
      ConvertDictOfValue(s.duration);
    }
    if ValueTruthy(s.weight) {
      ConvertDictOfValue(s.weight);
    }
  }

  /** A set whose fields are each None or truthy survives the round trip
      unchanged; reps of 0 does not. */
  lemma SetRoundTripExact(s: Set)
    requires ValidSet(s) && NoneOrTruthy(s)
    ensures SetFromKwargs(SetToDict(s)) == Ok(s)
  {
    SetRoundTrip(s);
  }

  lemma SetRoundTripDropsZeroReps(s: Set)
    requires ValidSet(s) && s.reps == JInt(0)
    ensures SetFromKwargs(SetToDict(s)).Ok?
    ensures SetFromKwargs(SetToDict(s)).value.reps == JNull
    ensures SetEq(SetFromKwargs(SetToDict(s)).value, s) == Ok(false)
  {
    SetRoundTrip(s);
  }

  lemma ValueDiffersSelf(x: Value)
    requires x.Meas? ==> Wf(x.m.amount)
    requires x.Plain? ==> Wf(x.v)
    ensures AttrDiffers(x, x) == Ok(false)
  {
    match x
    case Meas(m) => EqReflexive(m);
    case Plain(v) => PyEqReflexive(v);
  }

  /** Every set equals itself. */
  lemma SetEqReflexive(s: Set)
    requires WfSet(s)
    ensures SetEq(s, s) == Ok(true)
  {
    ValueDiffersSelf(Plain(s.reps));
    ValueDiffersSelf(s.duration);
    ValueDiffersSelf(s.weight);
  }

  /** The round trip of a set with no falsy non-None field compares equal. */
  lemma SetRoundTripEq(s: Set)
    requires ValidSet(s) && NoneOrTruthy(s) && WfSet(s)
    ensures SetFromKwargs(SetToDict(s)).Ok? && SetEq(SetFromKwargs(SetToDict(s)).value, s) == Ok(true)
  {
    SetRoundTripExact(s);
    SetEqReflexive(s);
  }

  /** The rendering ignores the fields the round trip drops. */
  lemma RenderSetDropFalsy(s: Set)
    ensures RenderSet(DropFalsy(s)) == RenderSet(s)
  {
  }

  /** A list of sets renders as the list of their round-tripped sets. */
  lemma RenderSetsDropFalsy(sets: seq<Set>)
    ensures RenderSets(DropFalsyAll(sets)) == RenderSets(sets)
  {
    forall i | 0 <= i < |sets|
      ensures RenderSets(DropFalsyAll(sets))[i] == RenderSets(sets)[i]
    {
      RenderSetDropFalsy(sets[i]);
    }
  }

  /** A set with all three fields truthy renders them in order, separated
      by spaces. */
  lemma RenderFullSet(s: Set)
    requires Truthy(s.reps) && ValueTruthy(s.duration) && ValueTruthy(s.weight)
    ensures RenderSet(s) == Str(s.reps) + "x" + " " + ValueStr(s.duration) + " " + ValueStr(s.weight)
  {
    var parts := [Str(s.reps) + "x", ValueStr(s.duration), ValueStr(s.weight)];
    assert [Str(s.reps) + "x"] + [ValueStr(s.duration)] + [ValueStr(s.weight)] == parts;
    assert parts[1..] == [ValueStr(s.duration), ValueStr(s.weight)];
    assert Join(parts, " ") == parts[0] + " " + Join(parts[1..], " ");
    JoinTwo(ValueStr(s.duration), ValueStr(s.weight), " ");
  }

  /** The sample rendering of a set: 10 reps of 10 minutes with 5 kg. */
  lemma RenderSetSample()
    ensures RenderSet(Set(JInt(10), Meas(Measurement(JInt(10), "min")), Meas(Measurement(JInt(5), "kg"))))
      == "10x 10min 5kg"
  {
    RenderFullSet(Set(JInt(10), Meas(Measurement(JInt(10), "min")), Meas(Measurement(JInt(5), "kg"))));
    TwoDigits(10);
    assert Str(JInt(10)) == "10" && Str(JInt(5)) == "5";
  }

  lemma SetEqMeasurementVsNumber(m: Measurement)
    ensures SetEq(Set(JNull, Plain(JNull), Meas(m)), Set(JNull, Plain(JNull), Plain(JInt(5)))) == Err(AttributeError)
  {
  }

  lemma SetsFromSnoc(items: seq<Json>, a: seq<Set>, b: Set)
    requires items != []
    requires SetsFrom(items[..|items| - 1]) == Ok(a)
    requires SetFromKwargs(items[|items| - 1]) == Ok(b)
    ensures SetsFrom(items) == Ok(a + [b])
  {
    var init := SetsFrom(items[..|items| - 1]);
    var last := SetFromKwargs(items[|items| - 1]);
    assert init.Ok? && last.Ok?;
  }

  lemma {:induction false} SetsFromEach(items: seq<Json>, sets: seq<Set>)
    requires |items| == |sets|
    requires forall i :: 0 <= i < |items| ==> SetFromKwargs(items[i]) == Ok(DropFalsy(sets[i]))
    ensures SetsFrom(items) == Ok(DropFalsyAll(sets))
    decreases |items|
  {
    if items != [] {
      var n := |items|;
      SetsFromEach(items[..n - 1], sets[..n - 1]);
      SetsFromSnoc(items, DropFalsyAll(sets[..n - 1]), DropFalsy(sets[n - 1]));
      assert DropFalsyAll(sets) == DropFalsyAll(sets[..n - 1]) + [DropFalsy(sets[n - 1])];
    }
  }

  lemma SetsFromDicts(sets: seq<Set>)
    requires forall i :: 0 <= i < |sets| ==> ValidSet(sets[i])
    ensures SetsFrom(SetsToDicts(sets)) == Ok(DropFalsyAll(sets))
  {
    var items := SetsToDicts(sets);
    forall i | 0 <= i < |items|
      ensures SetFromKwargs(items[i]) == Ok(DropFalsy(sets[i]))
    {
      SetRoundTrip(sets[i]);
    }
    SetsFromEach(items, sets);
  }

  /** `Activity.from_dict(a.to_dict())` keeps the name and the sets, up to
      the falsy fields each set's own round trip drops. */
  lemma ActivityRoundTrip(name: string, sets: seq<Set>)
    requires forall i :: 0 <= i < |sets| ==> ValidSet(sets[i])
    ensures ActivityFromDict(ActivityDict(name, sets, true)) == Ok((name, DropFalsyAll(sets)))
  {
    ActivityDictKeys(name, sets, true);
    SetsFromDicts(sets);
    ActivityFromFields(ActivityDict(name, sets, true), name, SetsToDicts(sets), DropFalsyAll(sets));
  }

  /** A dict whose "name" is a string and whose "sets" list reads back as
      sets is read back as that activity. */
  lemma ActivityFromFields(d: Json, name: string, items: seq<Json>, sets: seq<Set>)
    requires Subscript(d, "name") == Ok(JStr(name)) && Subscript(d, "sets") == Ok(JList(items))
    requires SetsFrom(items) == Ok(sets)
    ensures ActivityFromDict(d) == Ok((name, sets))
  {
    assert Iterate(JList(items)) == Ok(items);
  }

  /** The dict holds the converted sets, and "name" exactly when asked. */
  lemma ActivityDictKeys(name: string, sets: seq<Set>, includeName: bool)
    ensures ActivityDict(name, sets, includeName).JObj?
    ensures Subscript(ActivityDict(name, sets, includeName), "sets") == Ok(JList(SetsToDicts(sets)))
    ensures Subscript(ActivityDict(name, sets, includeName), "name")
      == if includeName then Ok(JStr(name)) else Err(KeyError)
  {
  }

  /** Without its name the dict cannot be read back. */
  lemma ActivityDictWithoutName(name: string, sets: seq<Set>)
    ensures ActivityFromDict(ActivityDict(name, sets, false)) == Err(KeyError)
  {
  }

  lemma {:induction false} SetsDifferSelf(sets: seq<Set>)
    requires forall i :: 0 <= i < |sets| ==> WfSet(sets[i])
    ensures SetsDiffer(sets, sets) == Ok(false)
  {
    if sets != [] {
      SetEqReflexive(sets[0]);
      SetsDifferSelf(sets[1..]);
    }
  }

  /** Every activity equals itself, in either visiting order. */
  lemma ActivityEqReflexive(name: string, sets: seq<Set>, nameFirst: bool)
    requires forall i :: 0 <= i < |sets| ==> WfSet(sets[i])
    ensures ActivityEq(name, sets, name, sets, nameFirst) == Ok(true)
  {
    SetsDifferSelf(sets);
  }

  /** The visiting order only decides whether the comparison raises: when
      both orders give an answer, it is the same one, and it is True exactly
      when the names agree and the set lists do not differ. With different
      names, visiting "name" first answers False without comparing sets. */
  lemma ActivityEqOrder(name1: string, sets1: seq<Set>, name2: string, sets2: seq<Set>)
    ensures ActivityEq(name1, sets1, name2, sets2, true).Ok? && ActivityEq(name1, sets1, name2, sets2, false).Ok?
      ==> ActivityEq(name1, sets1, name2, sets2, true) == ActivityEq(name1, sets1, name2, sets2, false)
    ensures ActivityEq(name1, sets1, name2, sets2, false).Ok?
      ==> (ActivityEq(name1, sets1, name2, sets2, false).value <==> name1 == name2 && SetsDiffer(sets1, sets2) == Ok(false))
    ensures name1 != name2 ==> ActivityEq(name1, sets1, name2, sets2, true) == Ok(false)
    ensures ActivityEq(name1, sets1, name2, sets2, false).Err?
      ==> SetsDiffer(sets1, sets2).Err? && ActivityEq(name1, sets1, name2, sets2, false).error == SetsDiffer(sets1, sets2).error
  {
  }

  /** Two differently named activities whose weights are a Measurement and
      a plain number: visiting "name" first answers False, visiting "sets"
      first raises AttributeError. */
  lemma ActivityEqOrderMatters()
    ensures var s1 := Set(JInt(10), Plain(JNull), Meas(Measurement(JInt(5), "kg")));
            var s2 := Set(JInt(10), Plain(JNull), Plain(JInt(5)));
            ActivityEq("Squat", [s1], "Lunge", [s2], true) == Ok(false)
            && ActivityEq("Squat", [s1], "Lunge", [s2], false) == Err(AttributeError)
  {
  }

  /** Adding a set raises the count in the rendering by one and appends the
      set's own rendering. */
  lemma RenderActivityAppend(name: string, sets: seq<Set>, s: Set)
    requires sets != []
    ensures RenderActivity(name, sets + [s])
      == name + " " + IntToString(|sets| + 1) + " sets: " + (Join(RenderSets(sets), ", ") + ", " + RenderSet(s))
  {
    assert (sets + [s])[..|sets|] == sets;
    assert RenderSets(sets + [s]) == RenderSets(sets) + [RenderSet(s)];
    JoinAppend(RenderSets(sets), RenderSet(s), ", ");
  }

  /** A set of reps with a weight renders as "<reps>x <weight>". */
  lemma RenderRepsWeight(reps: nat, w: Measurement)
    requires reps > 0
    ensures RenderSet(Set(JInt(reps), Plain(JNull), Meas(w))) == NatToString(reps) + "x " + Render(w)
  {
    var parts := [NatToString(reps) + "x", Render(w)];
    assert Join(parts, " ") == parts[0] + " " + Join(parts[1..], " ");
  }

  /** An activity with two sets renders its name, the count and both sets. */
  lemma RenderTwoSets(name: string, s1: Set, s2: Set)
    ensures RenderActivity(name, [s1, s2]) == name + " " + "2" + " sets: " + RenderSet(s1) + ", " + RenderSet(s2)
  {
    assert [s1, s2][..1] == [s1];
    assert RenderSets([s1, s2]) == [RenderSet(s1), RenderSet(s2)];
    JoinTwo(RenderSet(s1), RenderSet(s2), ", ");
  }

  lemma RenderTenTwelve()
    ensures RenderSet(Set(JInt(10), Plain(JNull), Meas(Measurement(JInt(12), "kg")))) == "10x 12kg"
  {
    RenderRepsWeight(10, Measurement(JInt(12), "kg"));
    TwoDigits(10);
    TwoDigits(12);
  }

  lemma RenderEightTen()
    ensures RenderSet(Set(JInt(8), Plain(JNull), Meas(Measurement(JInt(10), "kg")))) == "8x 10kg"
  {
    RenderRepsWeight(8, Measurement(JInt(10), "kg"));
    TwoDigits(10);
  }

  /** The sample rendering of an activity. */
  lemma RenderActivitySample()
    ensures RenderActivity("Shoulder press",
      [Set(JInt(10), Plain(JNull), Meas(Measurement(JInt(12), "kg"))),
       Set(JInt(8), Plain(JNull), Meas(Measurement(JInt(10), "kg")))])
      == "Shoulder press 2 sets: 10x 12kg, 8x 10kg"
  {
    RenderTwoSets("Shoulder press",
      Set(JInt(10), Plain(JNull), Meas(Measurement(JInt(12), "kg"))),
      Set(JInt(8), Plain(JNull), Meas(Measurement(JInt(10), "kg"))));
    RenderTenTwelve();
    RenderEightTen();
  }

  /** An integer level is accepted exactly when it lies in 0..3. */
  lemma PainIntLevels(name: string, i: int)
    ensures NewPain(name, JInt(i)).Ok? <==> 0 <= i <= 3
  {
    if 0 <= i <= 3 {
      assert PyEq(JInt(i), JInt(AllowedLevels[i]));
    }
  }

  lemma PainLevelBoundaries()
    ensures NewPain("Hip", JInt(0)).Ok? && NewPain("Hip", JInt(3)).Ok?
    ensures NewPain("Hip", JInt(5)) == Err(LevelError(JInt(5)))
    ensures LevelError(JInt(5)).msg == "Invalid pain level: " + "5" + ". Allowed levels are: 0, 1, 2, 3"
  {
    PainIntLevels("Hip", 0);
    PainIntLevels("Hip", 3);
    PainIntLevels("Hip", 5);
    assert Str(JInt(5)) == "5";
  }

  /** The dict of two differently named plain attributes lists both, in order. */
  lemma RecordMembersOfTwo(k1: string, x1: Json, k2: string, x2: Json)
    requires k1 != k2
    ensures RecordMembers([Attr(k1, Plain(x1)), Attr(k2, Plain(x2))], true) == [Member(k1, x1), Member(k2, x2)]
  {
    var attrs := [Attr(k1, Plain(x1)), Attr(k2, Plain(x2))];
    assert attrs[..1][..0] == [];
    assert attrs[..1] == [attrs[0]];
    assert RecordMembers(attrs[..1], true) == [Member(k1, x1)];
    assert k2 !in Keys([Member(k1, x1)]);
  }

  /** A pain's dict is the base-class dict of its two attributes. */
  lemma PainDictIsRecordDict(p: Pain)
    ensures PainDict(p) == JObj(RecordMembers([Attr("name", Plain(JStr(p.name))), Attr("level", Plain(p.level))], true))
  {
    RecordMembersOfTwo("name", JStr(p.name), "level", p.level);
  }

  /** `Pain(**p.to_dict())` gives back the pain. */
  lemma PainRoundTrip(p: Pain)
    requires LevelAllowed(p.level)
    ensures PainFromKwargs(PainDict(p)) == Ok(p)
  {
  }

  /** A pain's dict handed over as the level is rejected. */
  lemma PainDictAsLevelRejected(name: string, p: Pain)
    ensures NewPain(name, PainDict(p)) == Err(LevelError(PainDict(p)))
  {
  }

  lemma RenderPainSample()
    ensures RenderPain(Pain("Left hip", JInt(3))) == "Left hip: 3"
  {
  }

  lemma PainEqReflexive(p: Pain)
    requires Wf(p.level)
    ensures PainEq(p, p)
  {
    PyEqReflexive(p.level);
  }

  lemma {:induction false} DictEntriesKeys(attrs: seq<Attr>, includeName: bool, k: string)
    ensures k !in AttrKeys(attrs) ==> k !in Keys(DictEntries(attrs, includeName))
  {
    if attrs != [] {
      var head := if !includeName && attrs[0].key == "name" then [] else [Member(attrs[0].key, ValueDict(attrs[0].val))];
      KeysConcat(head, DictEntries(attrs[1..], includeName));
      assert AttrKeys(attrs) == [attrs[0].key] + AttrKeys(attrs[1..]);
      DictEntriesKeys(attrs[1..], includeName, k);
    }
  }

  lemma {:induction false} DictEntriesSnoc(attrs: seq<Attr>, a: Attr, includeName: bool)
    ensures DictEntries(attrs + [a], includeName)
      == DictEntries(attrs, includeName) + (if !includeName && a.key == "name" then [] else [Member(a.key, ValueDict(a.val))])
  {
    if attrs != [] {
      assert (attrs + [a])[1..] == attrs[1..] + [a];
      DictEntriesSnoc(attrs[1..], a, includeName);
    }
  }

  /** With distinct attribute names, `to_dict` lists every attribute in order
      with Measurements turned into dicts, leaving out `name` exactly when
      `include_name` is false. */
  function EntryOf(a: Attr, includeName: bool): seq<Member>
  {
    if !includeName && a.key == "name" then [] else [Member(a.key, ValueDict(a.val))]
  }

  lemma DictEntriesLast(attrs: seq<Attr>, includeName: bool)
    requires attrs != []
    ensures DictEntries(attrs, includeName)
      == DictEntries(attrs[..|attrs| - 1], includeName) + EntryOf(attrs[|attrs| - 1], includeName)
  {
    DictEntriesSnoc(attrs[..|attrs| - 1], attrs[|attrs| - 1], includeName);
    assert attrs[..|attrs| - 1] + [attrs[|attrs| - 1]] == attrs;
  }

  lemma RecordMembersLast(attrs: seq<Attr>, includeName: bool)
    requires attrs != []
    requires attrs[|attrs| - 1].key !in Keys(RecordMembers(attrs[..|attrs| - 1], includeName))
    ensures RecordMembers(attrs, includeName)
      == RecordMembers(attrs[..|attrs| - 1], includeName) + EntryOf(attrs[|attrs| - 1], includeName)
  {
  }

  /** With distinct attribute names, `to_dict` lists every attribute in order
      with Measurements turned into dicts, leaving out `name` exactly when
      `include_name` is false. */
  lemma {:induction false} RecordMembersInOrder(attrs: seq<Attr>, includeName: bool)
    requires DistinctAttrKeys(attrs)
    ensures RecordMembers(attrs, includeName) == DictEntries(attrs, includeName)
    decreases |attrs|
  {
    if attrs != [] {
      var init := attrs[..|attrs| - 1];
      var last := attrs[|attrs| - 1];
      RecordMembersInOrder(init, includeName);
      assert last.key !in AttrKeys(init);
      DictEntriesKeys(init, includeName, last.key);
      RecordMembersLast(attrs, includeName);
      DictEntriesLast(attrs, includeName);
    }
  }

  lemma DistinctWithName(name: Json, kwargs: seq<Attr>)
    requires DistinctAttrKeys(kwargs) && "name" !in AttrKeys(kwargs)
    ensures DistinctAttrKeys([Attr("name", Plain(name))] + kwargs)
  {
    var all := [Attr("name", Plain(name))] + kwargs;
    forall i, j | 0 <= i < j < |all|
      ensures all[i].key != all[j].key
    {
      if i == 0 {
        assert AttrKeys(kwargs)[j - 1] == all[j].key;
      } else {
        assert all[i] == kwargs[i - 1] && all[j] == kwargs[j - 1];
      }
    }
  }

  /** `Record(name, **kwargs).to_dict(include_name=False)` drops only `name`
      and converts the Measurement values. */
  lemma RecordDictWithoutName(name: Json, kwargs: seq<Attr>)
    requires DistinctAttrKeys(kwargs) && "name" !in AttrKeys(kwargs)
    requires forall i :: 0 <= i < |kwargs| ==> !IsDunder(kwargs[i].key)
    ensures RecordMembers(Visible([Attr("name", Plain(name))] + kwargs), false) == DictEntries(kwargs, true)
  {
    NameNotDunder(name, kwargs);
    VisibleKeepsAll([Attr("name", Plain(name))] + kwargs);
    DistinctWithName(name, kwargs);
    RecordMembersInOrder([Attr("name", Plain(name))] + kwargs, false);
    DictEntriesDropsName(name, kwargs);
    NoNameEntries(kwargs);
  }

  lemma NameNotDunder(name: Json, kwargs: seq<Attr>)
    requires forall i :: 0 <= i < |kwargs| ==> !IsDunder(kwargs[i].key)
    ensures forall i :: 0 <= i < |[Attr("name", Plain(name))] + kwargs| ==>
      !IsDunder(([Attr("name", Plain(name))] + kwargs)[i].key)
  {
    var all := [Attr("name", Plain(name))] + kwargs;
    forall i | 0 <= i < |all|
      ensures !IsDunder(all[i].key)
    {
      if i == 0 {
        assert all[0].key[..2][0] == 'n';
      } else {
        assert all[i] == kwargs[i - 1];
      }
    }
  }

  lemma DictEntriesDropsName(name: Json, kwargs: seq<Attr>)
    ensures DictEntries([Attr("name", Plain(name))] + kwargs, false) == DictEntries(kwargs, false)
  {
    ConsTail(Attr("name", Plain(name)), kwargs);
  }

  lemma {:induction false} NoNameEntries(attrs: seq<Attr>)
    requires "name" !in AttrKeys(attrs)
    ensures DictEntries(attrs, false) == DictEntries(attrs, true)
  {
    if attrs != [] {
      assert AttrKeys(attrs[1..]) == AttrKeys(attrs)[1..];
      NoNameEntries(attrs[1..]);
    }
  }

  lemma {:induction false} VisibleKeepsAll(attrs: seq<Attr>)
    requires forall i :: 0 <= i < |attrs| ==> !IsDunder(attrs[i].key)
    ensures Visible(attrs) == attrs
  {
    if attrs != [] {
      VisibleKeepsAll(attrs[1..]);
    }
  }

  /** A record equals itself, whatever order the names are visited in. */
  lemma {:induction false} RecordEqSelf(attrs: seq<Attr>, order: seq<string>)
    requires forall i :: 0 <= i < |attrs| ==> (attrs[i].val.Meas? ==> Wf(attrs[i].val.m.amount)) && (attrs[i].val.Plain? ==> Wf(attrs[i].val.v))
    requires forall i :: 0 <= i < |order| ==> order[i] in AttrKeys(attrs)
    ensures RecordEq(attrs, attrs, order) == Ok(true)
  {
    if order != [] {
      var x := FindAttrIn(attrs, order[0]);
      ValueDiffersSelf(x);
      RecordEqSelf(attrs, order[1..]);
    }
  }

  lemma {:induction false} FindAttrIn(attrs: seq<Attr>, k: string) returns (x: Value)
    requires k in AttrKeys(attrs)
    ensures FindAttr(attrs, k) == Some(x) && exists i :: 0 <= i < |attrs| && attrs[i].val == x
  {
    if attrs[0].key == k {
      x := attrs[0].val;
    } else {
      assert AttrKeys(attrs[1..]) == AttrKeys(attrs)[1..];
      x := FindAttrIn(attrs[1..], k);
      var i :| 0 <= i < |attrs[1..]| && attrs[1..][i].val == x;
      assert attrs[i + 1].val == x;
    }
  }

  /** Records whose attribute names differ never compare equal: the visit
      either finds a differing value first or raises on the missing name. */
  lemma {:induction false} RecordEqMissingName(a: seq<Attr>, b: seq<Attr>, order: seq<string>, k: string)
    requires k in order && (k in AttrKeys(a)) != (k in AttrKeys(b))
    ensures RecordEq(a, b, order) != Ok(true)
  {
    if order[0] != k {
      RecordEqMissingName(a, b, order[1..], k);
    }
  }
}
