/** The translation layer from a Dialogflow webhook request to the inputs
    the logging model expects: the intent name is checked against a closed
    list, the user is resolved, the date is cut out of its timestamp and the
    entity parameters are normalised (names title-cased, a pain level read as
    an int, the parallel reps/weight/duration arrays zipped into set dicts). */
module Intents {
  import opened Wrappers
  import opened Text
  import opened Json
  import SI = SupportedIntents

  /** The intent names a request may carry. */
  const SupportedNames: seq<string> :=
    ["LogPain", "LogActivity", "GetNumLogs", "GetDailyLog", "DeleteDailyLog", "GetActivitySummary"]

  /** The intents that need a date. */
  const DatedNames: seq<string> := ["LogActivity", "LogPain", "GetDailyLog", "DeleteDailyLog"]

  const TestUser := JStr("MarkTheTester")

  const UnsupportedError := ValueError("Unsupported intent passed")
  const UserError :=
    ValueError("User info not found as expected in originalDetectIntentRequest from Dialogflow. Maybe it's not a FB call")
  const MissingDateError := ValueError("Input entity is missing a date among the attributes")
  const MismatchError := ValueError("Mismatched number of reps/weights/durations")

  /** A parsed request. `entity` is the raw parameters dict, `logInput` the
      dict it was normalised into. */
  datatype Intent = Intent(kind: string, entity: Json, logInput: Json, date: Option<string>, user: Json)

  /** `Intent.extract_date`: the date part of a timestamp. */
  function ExtractDate(timestamp: string): string
  {
    BeforeFirst(timestamp, 'T')
  }

  /** `_set_user`: the test user for a request that does not come through a
      messenger, otherwise the sender id from the original request. */
  function ResolveUser(req: Json): Result<Json>
  {
    var orig :- GetOr(req, "originalDetectIntentRequest", JNull);
    if !Truthy(orig) then Ok(TestUser)
    else
      var source :- Subscript(orig, "source");
      // a string equals only the same string
      if source == JStr("DIALOGFLOW_CONSOLE") then Ok(TestUser)
      else
        var payload :- GetOr(orig, "payload", EmptyObj);
        var data :- GetOr(payload, "data", EmptyObj);
        var sender :- GetOr(data, "sender", EmptyObj);
        var id :- GetOr(sender, "id", JNull);
        var user := if Truthy(id) then id else JStr("default_value");
        if user == JStr("default_value") then Err(UserError) else Ok(user)
  }

  /** The date step of `_extract_log_input`. */
  function DateOf(kind: string, raw: Json): Result<Option<string>>
  {
    if kind in DatedNames then
      var d :- GetOr(raw, "date", JNull);
      if !Truthy(d) then Err(MissingDateError)
      else if !d.JStr? then Err(AttributeError)   // only a string has `split`
      else Ok(Some(ExtractDate(d.s)))
    else Ok(None)
  }

  /** The distinct lengths of the parameters other than the activity and the
      date whose value is not `[]`, visited in order. */
  function Lengths(ms: seq<Member>): Result<set<nat>>
  {
    if ms == [] then Ok({})
    else
      var prev :- Lengths(ms[..|ms| - 1]);
      var m := ms[|ms| - 1];
      // only an empty list equals []
      if m.key in ["activity", "date"] || m.val == JList([]) then Ok(prev)
      else
        var n :- Len(m.val);
        Ok(prev + {n})
  }

  /** The reps entry of set `i`: `int(reps[i])` when the reps are truthy. */
  function RepsEntry(raw: Json, i: nat): Result<seq<Member>>
  {
    var reps :- Subscript(raw, "reps");
    if Truthy(reps) then (var x :- At(reps, i); var n :- IntOf(x); Ok([Member("reps", JInt(n))])) else Ok([])
  }

  /** Appends `key: raw[key][i]` when `raw[key]` is truthy. */
  function WithEntry(raw: Json, key: string, i: nat, acc: seq<Member>): Result<seq<Member>>
  {
    var v :- Subscript(raw, key);
    if Truthy(v) then (var x :- At(v, i); Ok(acc + [Member(key, x)])) else Ok(acc)
  }

  /** The set dict built in iteration `i` of the zip loop. */
  function SetAt(raw: Json, i: nat): Result<Json>
  {
    var m1 :- RepsEntry(raw, i);
    var m2 :- WithEntry(raw, "weight", i, m1);
    var m3 :- WithEntry(raw, "duration", i, m2);
    Ok(JObj(m3))
  }

  /** The values of a run of attempts, or the first failure among them. */
  function Collect<T>(rs: seq<Result<T>>): Result<seq<T>>
  {
    if rs == [] then Ok([])
    else
      var prev :- Collect(rs[..|rs| - 1]);
      var x :- rs[|rs| - 1];
      Ok(prev + [x])
  }

  /** What the first `n` iterations of the zip loop build, one by one. */
  function Attempts(raw: Json, n: nat): (r: seq<Result<Json>>)
  {
    seq(n, k requires 0 <= k => SetAt(raw, k))
  }

  /** The set dicts of the zip loop over `n` indices. */
  function ZipSets(raw: Json, n: nat): Result<seq<Json>>
  {
    Collect(Attempts(raw, n))
  }

  const DefaultSets: seq<Json> := [JObj([Member("reps", JInt(1))])]

  /** The `sets` list of a LogActivity input. */
  function SetsOf(raw: Json): Result<seq<Json>>
  {
    var items :- Items(raw);
    var lens :- Lengths(items);
    if |lens| > 1 then Err(MismatchError)
    else if |lens| == 1 then
      var reps :- Subscript(raw, "reps");
      var n :- Len(reps);
      ZipSets(raw, n)
    else Ok(DefaultSets)
  }

  /** `str.title()` on a parameter, which must be a string. */
  function TitleOf(v: Json): Result<string>
  {
    if v.JStr? then Ok(Title(v.s)) else Err(AttributeError)
  }

  /** The renaming step of `_extract_log_input`: the `log_input` dict. */
  function FieldsOf(kind: string, raw: Json): Result<Json>
  {
    if kind == "LogActivity" then
      var act :- Subscript(raw, "activity");
      var name :- TitleOf(act);
      var sets :- SetsOf(raw);
      Ok(JObj([Member("name", JStr(name)), Member("sets", JList(sets))]))
    else if kind == "LogPain" then
      var part :- Subscript(raw, "body_part");
      var name :- TitleOf(part);
      var level :- Subscript(raw, "pain_level");
      var n :- IntOf(level);
      Ok(JObj([Member("name", JStr(name)), Member("level", JInt(n))]))
    else if kind == "GetActivitySummary" then
      var act :- Subscript(raw, "activity");
      var name :- TitleOf(act);
      Ok(JObj([Member("name", JStr(name))]))
    else Ok(EmptyObj)
  }

  /** `_extract_log_input`: the date, then the log input. */
  function LogInputOf(kind: string, raw: Json): Result<(Option<string>, Json)>
  {
    var date :- DateOf(kind, raw);
    var input :- FieldsOf(kind, raw);
    Ok((date, input))
  }

  /** `Intent(req)`: what the constructor builds, or what it raises. */
  function IntentOf(req: Json): Result<Intent>
  {
    var query :- Subscript(req, "queryResult");
    var intent :- Subscript(query, "intent");
    var kind :- Subscript(intent, "displayName");
    var raw :- Subscript(query, "parameters");
    if !kind.JStr? || kind.s !in SupportedNames then Err(UnsupportedError)
    else
      var user :- ResolveUser(req);
      var li :- LogInputOf(kind.s, raw);
      Ok(Intent(kind.s, raw, li.1, li.0, user))
  }

  /** The zip loop of `_extract_log_input`, appending one set dict per
      index. */
  method ZipLoop(raw: Json, n: nat) returns (r: Result<seq<Json>>)
    ensures r == ZipSets(raw, n)
  {
    var sets: seq<Json> := [];
    for i := 0 to n
      invariant ZipSets(raw, i) == Ok(sets)
    {
      var s := SetAt(raw, i);
      if s.Err? {
        ZipSetsStopsAtError(raw, i, n);
        return Err(s.error);
      }
      ZipSetsNext(raw, i);
      sets := sets + [s.value];
    }
    r := Ok(sets);
  }

  /** The `sets` part of `_extract_log_input` for LogActivity: the length
      check, then the zip loop or the default single set. */
  method ActivitySets(raw: Json) returns (r: Result<seq<Json>>)
    ensures r == SetsOf(raw)
  {
    var items := Items(raw);
    if items.Err? {
      return Err(items.error);
    }
    var lens := Lengths(items.value);
    if lens.Err? {
      return Err(lens.error);
    }
    if |lens.value| > 1 {
      return Err(MismatchError);
    } else if |lens.value| == 1 {
      var reps := Subscript(raw, "reps");
      if reps.Err? {
        return Err(reps.error);
      }
      var n := Len(reps.value);
      if n.Err? {
        return Err(n.error);
      }
      r := ZipLoop(raw, n.value);
    } else {
      r := Ok(DefaultSets);
    }
  }

  /** `_extract_log_input`, step by step: the date first, then the
      renaming for the intent's kind. */
  method ExtractLogInput(kind: string, raw: Json) returns (r: Result<(Option<string>, Json)>)
    ensures r == LogInputOf(kind, raw)
  {
    var date := DateOf(kind, raw);
    if date.Err? {
      return Err(date.error);
    }
    var input: Json := EmptyObj;
    if kind == "LogActivity" || kind == "GetActivitySummary" {
      var act := Subscript(raw, "activity");
      if act.Err? {
        return Err(act.error);
      }
      var name := TitleOf(act.value);
      if name.Err? {
        return Err(name.error);
      }
      input := JObj([Member("name", JStr(name.value))]);
      if kind == "LogActivity" {
        var sets := ActivitySets(raw);
        if sets.Err? {
          return Err(sets.error);
        }
        input := JObj(input.members + [Member("sets", JList(sets.value))]);
        assert input.members == [Member("name", JStr(name.value)), Member("sets", JList(sets.value))];
      }
    } else if kind == "LogPain" {
      var part := Subscript(raw, "body_part");
      if part.Err? {
        return Err(part.error);
      }
      var name := TitleOf(part.value);
      if name.Err? {
        return Err(name.error);
      }
      var level := Subscript(raw, "pain_level");
      if level.Err? {
        return Err(level.error);
      }
      var n := IntOf(level.value);
      if n.Err? {
        return Err(n.error);
      }
      input := JObj([Member("name", JStr(name.value)), Member("level", JInt(n.value))]);
    }
    assert FieldsOf(kind, raw) == Ok(input);
    r := Ok((date.value, input));
  }

  /** `Intent(req)`, step by step: the type and the raw entity first, then
      the supported-name check, the user and the log input. */
  method Parse(req: Json) returns (r: Result<Intent>)
    ensures r == IntentOf(req)
  {
    var query := Subscript(req, "queryResult");
    if query.Err? {
      return Err(query.error);
    }
    var intent := Subscript(query.value, "intent");
    if intent.Err? {
      return Err(intent.error);
    }
    var kind := Subscript(intent.value, "displayName");
    if kind.Err? {
      return Err(kind.error);
    }
    var raw := Subscript(query.value, "parameters");
    if raw.Err? {
      return Err(raw.error);
    }
    if !kind.value.JStr? || kind.value.s !in SupportedNames {
      return Err(UnsupportedError);
    }
    var user := ResolveUser(req);
    if user.Err? {
      return Err(user.error);
    }
    var li := ExtractLogInput(kind.value.s, raw.value);
    if li.Err? {
      return Err(li.error);
    }
    r := Ok(Intent(kind.value.s, raw.value, li.value.1, li.value.0, user.value));
  }

  // ---------------------------------------------------------------- lemmas

  lemma {:induction false} CollectStopsAtError<T>(rs: seq<Result<T>>, i: nat)
    requires i < |rs| && Collect(rs[..i]).Ok? && rs[i].Err?
    ensures Collect(rs) == Err(rs[i].error)
    decreases |rs|
  {
    if i < |rs| - 1 {
      assert rs[..|rs| - 1][..i] == rs[..i];
      CollectStopsAtError(rs[..|rs| - 1], i);
    } else {
      assert rs[..|rs| - 1] == rs[..i];
    }
  }

  lemma {:induction false} CollectEach<T>(rs: seq<Result<T>>)
    requires Collect(rs).Ok?
    ensures |Collect(rs).value| == |rs|
    ensures forall k :: 0 <= k < |rs| ==> rs[k] == Ok(Collect(rs).value[k])
    decreases |rs|
  {
    if rs != [] {
      CollectEach(rs[..|rs| - 1]);
    }
  }

  lemma AttemptsPrefix(raw: Json, n: nat, i: nat)
    requires i <= n
    ensures Attempts(raw, n)[..i] == Attempts(raw, i)
  {
  }

  lemma ZipSetsNext(raw: Json, i: nat)
    requires ZipSets(raw, i).Ok? && SetAt(raw, i).Ok?
    ensures ZipSets(raw, i + 1) == Ok(ZipSets(raw, i).value + [SetAt(raw, i).value])
  {
    var rs := Attempts(raw, i + 1);
    AttemptsPrefix(raw, i + 1, i);
    assert rs[..|rs| - 1] == Attempts(raw, i);
    assert rs[i] == SetAt(raw, i);
  }

  lemma ZipSetsStopsAtError(raw: Json, i: nat, n: nat)
    requires i < n && ZipSets(raw, i).Ok? && SetAt(raw, i).Err?
    ensures ZipSets(raw, n) == Err(SetAt(raw, i).error)
  {
    AttemptsPrefix(raw, n, i);
    CollectStopsAtError(Attempts(raw, n), i);
  }

  /** The zip loop yields exactly `n` sets, set `k` being the dict built in
      iteration `k`. */
  lemma ZipSetsEach(raw: Json, n: nat)
    requires ZipSets(raw, n).Ok?
    ensures |ZipSets(raw, n).value| == n
    ensures forall k :: 0 <= k < n ==> SetAt(raw, k) == Ok(ZipSets(raw, n).value[k])
  {
    CollectEach(Attempts(raw, n));
  }

  /** Every name the constructor accepts is a member of the command table,
      and the command list is the one member it rejects. */
  lemma SupportedNamesAreMembers()
    ensures forall s :: s in SupportedNames ==> exists m :: SI.Name(m) == s
    ensures forall m :: SI.Name(m) !in SupportedNames <==> m == SI.GetCommandList
  {
    assert SI.Name(SI.LogPain) == SupportedNames[0];
    assert SI.Name(SI.LogActivity) == SupportedNames[1];
    assert SI.Name(SI.GetNumLogs) == SupportedNames[2];
    assert SI.Name(SI.GetDailyLog) == SupportedNames[3];
    assert SI.Name(SI.DeleteDailyLog) == SupportedNames[4];
    assert SI.Name(SI.GetActivitySummary) == SupportedNames[5];
  }

  /** A display name outside the list is rejected before the user, the date
      or any parameter is looked at. */
  lemma UnsupportedRejectedFirst(req: Json)
    requires Subscript(req, "queryResult").Ok?
    requires Subscript(Subscript(req, "queryResult").value, "intent").Ok?
    requires Subscript(Subscript(Subscript(req, "queryResult").value, "intent").value, "displayName").Ok?
    requires Subscript(Subscript(req, "queryResult").value, "parameters").Ok?
    requires var kind := Subscript(Subscript(Subscript(req, "queryResult").value, "intent").value, "displayName").value;
      !kind.JStr? || kind.s !in SupportedNames
    ensures IntentOf(req) == Err(UnsupportedError)
  {
  }

  /** A parsed intent has a supported kind, a date exactly when the kind
      needs one, and a resolved user. */
  lemma IntentShape(req: Json)
    requires IntentOf(req).Ok?
    ensures var it := IntentOf(req).value;
      it.kind in SupportedNames && (it.date.Some? <==> it.kind in DatedNames) &&
      ResolveUser(req) == Ok(it.user) && LogInputOf(it.kind, it.entity) == Ok((it.date, it.logInput))
  {
    var query := Subscript(req, "queryResult").value;
    var kind := Subscript(Subscript(query, "intent").value, "displayName").value;
    var raw := Subscript(query, "parameters").value;
    assert kind.JStr? && kind.s in SupportedNames;
    var li := LogInputOf(kind.s, raw);
    assert IntentOf(req) == Ok(Intent(kind.s, raw, li.value.1, li.value.0, ResolveUser(req).value));
    DateShape(kind.s, raw);
  }

  /** The date step gives a date exactly for the dated kinds. */
  lemma DateShape(kind: string, raw: Json)
    requires DateOf(kind, raw).Ok?
    ensures DateOf(kind, raw).value.Some? <==> kind in DatedNames
    ensures LogInputOf(kind, raw).Ok? ==> LogInputOf(kind, raw).value.0 == DateOf(kind, raw).value
  {
  }

  /** A request without an original-request section, or one sent from the
      Dialogflow console, is attributed to the test user. */
  lemma TestUserDefaults(req: Json, orig: Json)
    requires req.JObj? && GetOr(req, "originalDetectIntentRequest", JNull) == Ok(orig)
    requires !Truthy(orig) || (orig.JObj? && Find(orig.members, "source") == Some(JStr("DIALOGFLOW_CONSOLE")))
    ensures ResolveUser(req) == Ok(TestUser)
  {
  }

  /** A messenger request in the expected shape. */
  function MessengerRequest(source: Json, id: Json): Json
  {
    JObj([Member("originalDetectIntentRequest", JObj([
      Member("source", source),
      Member("payload", JObj([Member("data", JObj([Member("sender", JObj([Member("id", id)]))]))]))]))])
  }

  /** From a messenger the user is the sender id, which must be truthy and
      must not be the placeholder "default_value". */
  lemma MessengerUser(source: Json, id: Json)
    requires source != JStr("DIALOGFLOW_CONSOLE")
    ensures ResolveUser(MessengerRequest(source, id)) ==
      if Truthy(id) && id != JStr("default_value") then Ok(id) else Err(UserError)
  {
    var orig := MessengerRequest(source, id).members[0].val;
    assert Find(orig.members, "source") == Some(source);
    assert Find(orig.members, "payload") == Some(orig.members[1].val);
  }

  /** A resolved user is the test user or a truthy id other than the
      placeholder. */
  lemma ResolvedUserTruthy(req: Json)
    requires ResolveUser(req).Ok?
    ensures var u := ResolveUser(req).value;
      u == TestUser || (Truthy(u) && u != JStr("default_value"))
  {
    var orig := GetOr(req, "originalDetectIntentRequest", JNull).value;
    if Truthy(orig) && Subscript(orig, "source").value != JStr("DIALOGFLOW_CONSOLE") {
      var payload := GetOr(orig, "payload", EmptyObj).value;
      var data := GetOr(payload, "data", EmptyObj).value;
      var sender := GetOr(data, "sender", EmptyObj).value;
      var id := GetOr(sender, "id", JNull).value;
      assert ResolveUser(req) == Ok(if Truthy(id) then id else JStr("default_value"));
    }
  }

  /** `extract_date` keeps what precedes the first "T", or the whole text
      when there is none. */
  lemma ExtractDateSpec(timestamp: string)
    ensures var r := ExtractDate(timestamp);
      IsPrefix(r, timestamp) && 'T' !in r &&
      (if 'T' in timestamp then timestamp[|r|] == 'T' else r == timestamp)
  {
  }

  /** A timestamp loses its time of day; a word such as "today" is kept
      as it is. */
  lemma ExtractDateSamples()
    ensures ExtractDate("2023-07-24" + "T" + "12:00:00+01:00") == "2023-07-24"
    ensures ExtractDate("today") == "today"
  {
    BeforeFirstAt("2023-07-24", 'T', "12:00:00+01:00");
  }

  /** The dated intents require a truthy date; the others never carry one. */
  lemma DateRequired(kind: string, raw: Json)
    requires raw.JObj?
    ensures kind in DatedNames && !Truthy(GetOr(raw, "date", JNull).value) ==>
      DateOf(kind, raw) == Err(MissingDateError)
    ensures kind in DatedNames && GetOr(raw, "date", JNull) == Ok(JStr("")) ==>
      DateOf(kind, raw) == Err(MissingDateError)
    ensures kind !in DatedNames ==> DateOf(kind, raw) == Ok(None)
  {
  }

  /** More than one distinct length among the set parameters is refused. */
  lemma MismatchRaises(raw: Json)
    requires raw.JObj? && Lengths(raw.members).Ok? && |Lengths(raw.members).value| > 1
    ensures SetsOf(raw) == Err(MismatchError)
    ensures FieldsOf("LogActivity", raw).Ok? ==> false
  {
  }

  /** A LogActivity entity with the four parameters Dialogflow sends. */
  function ActivityEntity(activity: string, reps: Json, weight: Json, duration: Json): Json
  {
    JObj([Member("activity", JStr(activity)), Member("date", JStr("2023-07-24T12:00:00+01:00")),
          Member("reps", reps), Member("weight", weight), Member("duration", duration)])
  }

  /** The length check over a LogActivity entity: the activity and the date
      are skipped, then reps, weight and duration are visited in turn. */
  lemma ActivityEntityLengths(activity: string, reps: Json, weight: Json, duration: Json)
    ensures var ms := ActivityEntity(activity, reps, weight, duration).members;
      Lengths(ms) == (
        var l1 :- if reps == JList([]) then Ok({}) else (var n :- Len(reps); Ok({n}));
        var l2 :- if weight == JList([]) then Ok(l1) else (var n :- Len(weight); Ok(l1 + {n}));
        if duration == JList([]) then Ok(l2) else (var n :- Len(duration); Ok(l2 + {n})))
  {
    var ms := ActivityEntity(activity, reps, weight, duration).members;
    assert ms[..1][..0] == [];
    assert Lengths(ms[..1]) == Ok({});
    assert ms[..2][..1] == ms[..1];
    assert Lengths(ms[..2]) == Ok({});
    assert ms[..3][..2] == ms[..2];
    assert Lengths(ms[..3]) == if reps == JList([]) then Ok({}) else (var n :- Len(reps); Ok({} + {n}));
    if reps != JList([]) && Len(reps).Ok? {
      assert {} + {Len(reps).value} == {Len(reps).value};
    }
    assert ms[..4][..3] == ms[..3];
    assert ms[..5][..4] == ms[..4];
    assert ms[..5] == ms;
  }

  /** An empty-string parameter counts as length 0: one rep with an empty
      weight is a mismatch. */
  lemma EmptyStringCountsAsZero(x: Json)
    ensures SetsOf(ActivityEntity("yoga", JList([x]), JStr(""), JList([]))) == Err(MismatchError)
  {
    ActivityEntityLengths("yoga", JList([x]), JStr(""), JList([]));
    assert {1} + {0} == {0, 1};
  }

  /** A weight without reps passes the length check but yields no sets. */
  lemma WeightOnlyGivesNoSets(w: Json)
    ensures SetsOf(ActivityEntity("yoga", JList([]), JList([w]), JList([]))) == Ok([])
  {
    var raw := ActivityEntity("yoga", JList([]), JList([w]), JList([]));
    ActivityEntityLengths("yoga", JList([]), JList([w]), JList([]));
    assert JList([w]) != JList([]) && Len(JList([w])) == Ok(1);
    var one: set<nat> := {} + {1};
    assert Lengths(raw.members) == Ok(one);
    assert one == {1};
    FindDistinct(raw.members, 2);
    assert Attempts(raw, 0) == [];
  }

  /** With no set parameters the activity gets one set of one rep. */
  lemma NoSetParametersGiveOneRep(activity: string)
    ensures SetsOf(ActivityEntity(activity, JList([]), JList([]), JList([]))) == Ok(DefaultSets)
  {
    ActivityEntityLengths(activity, JList([]), JList([]), JList([]));
  }

  /** With consistent lengths there are exactly `len(reps)` sets; set `k`
      holds `int(reps[k])`, and the weight and duration at `k` only for
      parameters that are non-empty. */
  lemma ZippedSetContents(raw: Json, k: nat)
    requires SetsOf(raw).Ok? && raw.JObj?
    requires Lengths(raw.members).Ok? && |Lengths(raw.members).value| == 1
    ensures var reps := Find(raw.members, "reps").value;
      Len(reps).Ok? && |SetsOf(raw).value| == Len(reps).value
    ensures k < |SetsOf(raw).value| ==> SetAt(raw, k).Ok? && SetsOf(raw).value[k] == SetShape(raw, k)
  {
    var reps := Find(raw.members, "reps").value;
    var n := Len(reps).value;
    ZipSetsEach(raw, n);
    if k < n {
      SetAtShape(raw, k);
    }
  }

  /** Set `k` as the zip loop builds it from the parameters' values: each
      present only when its parameter is truthy. */
  function SetShape(raw: Json, k: nat): Json
    requires SetAt(raw, k).Ok?
  {
    var reps := Find(raw.members, "reps").value;
    var weight := Find(raw.members, "weight").value;
    var duration := Find(raw.members, "duration").value;
    JObj((if Truthy(reps) then [Member("reps", JInt(IntOf(At(reps, k).value).value))] else []) +
         (if Truthy(weight) then [Member("weight", At(weight, k).value)] else []) +
         (if Truthy(duration) then [Member("duration", At(duration, k).value)] else []))
  }

  lemma SetAtShape(raw: Json, k: nat)
    requires SetAt(raw, k).Ok?
    ensures SetAt(raw, k).value == SetShape(raw, k)
  {
    var m1 := RepsEntry(raw, k).value;
    var m2 := WithEntry(raw, "weight", k, m1).value;
    var m3 := WithEntry(raw, "duration", k, m2).value;
    assert SetAt(raw, k) == Ok(JObj(m3));
    var reps := Find(raw.members, "reps").value;
    assert m1 == if Truthy(reps) then [Member("reps", JInt(IntOf(At(reps, k).value).value))] else [];
    WithEntryShape(raw, "weight", k, m1);
    WithEntryShape(raw, "duration", k, m2);
  }

  lemma WithEntryShape(raw: Json, key: string, k: nat, acc: seq<Member>)
    requires WithEntry(raw, key, k, acc).Ok?
    ensures var v := Find(raw.members, key).value;
      WithEntry(raw, key, k, acc).value == acc + (if Truthy(v) then [Member(key, At(v, k).value)] else [])
  {
  }

  /** The normalised log input by kind: title-cased names, an int pain level,
      and an empty dict for the kinds that only need a date. */
  lemma FieldsByKind(kind: string, raw: Json)
    requires FieldsOf(kind, raw).Ok?
    ensures kind in ["GetNumLogs", "GetDailyLog", "DeleteDailyLog"] ==> FieldsOf(kind, raw) == Ok(EmptyObj)
    ensures kind in ["LogActivity", "GetActivitySummary"] ==>
      var act := Find(raw.members, "activity").value;
      act.JStr? && Find(FieldsOf(kind, raw).value.members, "name") == Some(JStr(Title(act.s)))
    ensures kind == "LogPain" ==>
      var part := Find(raw.members, "body_part").value;
      var level := Find(raw.members, "pain_level").value;
      part.JStr? && IntOf(level).Ok? &&
      FieldsOf(kind, raw) == Ok(JObj([Member("name", JStr(Title(part.s))), Member("level", JInt(IntOf(level).value))]))
  {
  }
}
