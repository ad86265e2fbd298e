/** The request executor: it parses a webhook request into an intent, runs
    the intent's action against the user's stored daily logs and turns the
    outcome, or the exception the action raised, into the reply the user
    sees. The database is a map from (user, date) to the stored log dict. */
module Executors {
  import opened Wrappers
  import opened Text
  import opened Json
  import opened Records
  import opened Dates
  import opened DailyLogs
  import opened Intents
  import SI = SupportedIntents

  // ------------------------------------------------------------- the store

  /** A stored log is found by the user's document and the date's document
      beneath it. */
  type Key = (Json, string)

  /** The stored log dicts, as `to_dict` wrote them. */
  type Docs = map<Key, Json>

  const InvalidDateError := ValueError("Invalid date provided. Must be a 'YYYY-MM-DD' string")

  /** `get_log(user, date, initialize_empty)`: the stored dict read back as a
      log; without one, a new empty log or None. */
  function GetLogV(docs: Docs, user: Json, date: string, initializeEmpty: bool): (r: Result<Option<LogView>>)
    ensures !IsValidDateFormat(date) ==> r == Err(InvalidDateError)
    ensures r.Ok? && initializeEmpty ==> r.value.Some?
    ensures r.Ok? && r.value.Some? ==> r.value.value.date == date
    ensures r.Ok? && (user, date) !in docs ==> r.value == if initializeEmpty then Some(EmptyView(date)) else None
  {
    if !IsValidDateFormat(date) then Err(InvalidDateError)
    else if (user, date) in docs then
      var v :- FromDictV(date, docs[(user, date)]);
      Ok(Some(v))
    else if initializeEmpty then Ok(Some(EmptyView(date)))
    else Ok(None)
  }

  /** `HipLogDB`: the collection of stored log dicts. */
  class LogStore {
    var docs: Docs

    constructor(docs: Docs)
      ensures this.docs == docs
    {
      this.docs := docs;
    }

    /** `get_log(user, date, initialize_empty)`: a fresh log object, or None. */
    method GetLog(user: Json, date: string, initializeEmpty: bool) returns (r: Result<Option<DailyLog>>)
      ensures r.Ok? <==> GetLogV(docs, user, date, initializeEmpty).Ok?
      ensures r.Err? ==> r.error == GetLogV(docs, user, date, initializeEmpty).error
      ensures r.Ok? ==> (r.value.Some? <==> GetLogV(docs, user, date, initializeEmpty).value.Some?)
      ensures r.Ok? && r.value.Some? ==> fresh(r.value.value) && r.value.value.Valid()
      ensures r.Ok? && r.value.Some? ==> r.value.value.View() == GetLogV(docs, user, date, initializeEmpty).value.value
      ensures r.Ok? && r.value.Some? ==>
                forall i :: 0 <= i < |r.value.value.activities| ==> fresh(r.value.value.activities[i])
    {
      if !IsValidDateFormat(date) {
        return Err(InvalidDateError);
      }
      if (user, date) in docs {
        var log := DailyLog.FromDict(date, docs[(user, date)]);
        if log.Err? {
          return Err(log.error);
        }
        return Ok(Some(log.value));
      }
      if initializeEmpty {
        var log := new DailyLog(date, [], [], JNull, JNull);
        return Ok(Some(log));
      }
      return Ok(None);
    }

    /** `upload_log(user, log)`: the log's dict is stored under its date,
        replacing what was there. */
    method UploadLog(user: Json, log: DailyLog)
      modifies this
      ensures docs == old(docs)[(user, log.date) := log.ToDict()]
    {
      docs := docs[(user, log.date) := log.ToDict()];
    }

    /** `delete_log(user, date)`: the document goes, if it was there. */
    method DeleteLog(user: Json, date: string)
      modifies this
      ensures docs == old(docs) - {(user, date)}
    {
      docs := docs - {(user, date)};
    }
  }

  // ------------------------------------------------- the actions, as values

  /** The reply of an action that changed a log: the log is rendered for the
      debug message first, so one that cannot be rendered is never uploaded;
      otherwise it is stored under its date and its rendering is the reply. */
  function SaveAndRenderV(docs: Docs, user: Json, v: LogView): (Result<string>, Docs)
  {
    match RenderV(v)
    case Err(e) => (Err(e), docs)
    case Ok(s) => (Ok(s), docs[(user, v.date) := ToDictV(v)])
  }

  /** GetDailyLog: the stored log, or an empty one, rendered. */
  function GetDailyLogV(docs: Docs, user: Json, date: string): (Result<string>, Docs)
  {
    match GetLogV(docs, user, date, true)
    case Err(e) => (Err(e), docs)
    case Ok(log) => (RenderV(log.value), docs)
  }

  /** LogActivity: the day's log is fetched, the activity read from the log
      input is added without overwriting, and the log is saved. */
  function LogActivityV(docs: Docs, user: Json, date: string, input: Json): (Result<string>, Docs)
  {
    match GetLogV(docs, user, date, true)
    case Err(e) => (Err(e), docs)
    case Ok(log) => AddActivityInputV(docs, user, log.value, input)
  }

  /** The activity read from the log input, added to `v` without
      overwriting; the log is then saved. */
  function AddActivityInputV(docs: Docs, user: Json, v: LogView, input: Json): (Result<string>, Docs)
  {
    match ActivityFromDict(input)
    case Err(e) => (Err(e), docs)
    case Ok(a) => SaveAndRenderV(docs, user, AddActivityV(v, a.0, a.1, false))
  }

  /** LogPain: the day's log is fetched, `Pain(**log_input)` is added and
      the log is saved. */
  function LogPainV(docs: Docs, user: Json, date: string, input: Json): (Result<string>, Docs)
  {
    match GetLogV(docs, user, date, true)
    case Err(e) => (Err(e), docs)
    case Ok(log) => AddPainInputV(docs, user, log.value, input)
  }

  /** `Pain(**log_input)` added to `v`; the log is then saved. */
  function AddPainInputV(docs: Docs, user: Json, v: LogView, input: Json): (Result<string>, Docs)
  {
    match PainFromKwargs(input)
    case Err(e) => (Err(e), docs)
    case Ok(p) => SaveAndRenderV(docs, user, AddPainV(v, p))
  }

  function DeleteReply(date: string): string
  {
    "Your entry '" + date + "' was deleted"
  }

  /** GetActivitySummary: a heading naming the activity, then one line per
      statistic. `count` is what the database's count query returns. */
  function SummaryV(input: Json, count: nat): Result<string>
  {
    var name :- Subscript(input, "name");
    Ok(Join(["**Summary Stats for '" + Str(name) + "'**\n", "total_count: " + IntToString(count)], "\n"))
  }

  /** The intent carries a date whenever its kind needs one, as parsing
      guarantees. */
  predicate Dated(it: Intent)
  {
    it.kind in DatedNames ==> it.date.Some?
  }

  /** `_decision_flow`: the reply, or the exception raised, and the stored
      logs afterwards. The kind is compared with each command in turn; a
      kind no branch assigns a reply to leaves `res` unbound. */
  function FlowV(docs: Docs, it: Intent, count: nat): (Result<string>, Docs)
    requires Dated(it)
  {
    // the database object has no public `get_num_logs_by_user`
    if SI.EqStr(SI.GetNumLogs, it.kind) then (Err(AttributeError), docs)
    else if SI.EqStr(SI.GetDailyLog, it.kind) then GetDailyLogV(docs, it.user, it.date.value)
    else if SI.EqStr(SI.LogActivity, it.kind) then LogActivityV(docs, it.user, it.date.value, it.logInput)
    else if SI.EqStr(SI.LogPain, it.kind) then LogPainV(docs, it.user, it.date.value, it.logInput)
    else if SI.EqStr(SI.DeleteDailyLog, it.kind) then
      (Ok(DeleteReply(it.date.value)), docs - {(it.user, it.date.value)})
    else if SI.EqStr(SI.GetActivitySummary, it.kind) then (SummaryV(it.logInput, count), docs)
    else if SI.EqStr(SI.GetCommandList, it.kind) then (Ok(SI.Summarize()), docs)
    else (Err(UnboundLocalError), docs)
  }

  const UnsupportedPhrase := "Unsupported intent"
  const MismatchPhrase := "Mismatched number of reps/weights/durations"
  const MismatchReply :=
    "It looks like you provided unmatched entries for reps/weights/durations (eg specified 2 sets of reps but only 1 weight). Check your log and try again"
  const FailedReply := "FAILED"

  function UnsupportedReply(name: Json): string
  {
    "We don't support this yet (intent = " + Str(name) + "))"
  }

  /** The handlers of `run`: a ValueError naming an unsupported intent or a
      mismatch is answered politely, any other ValueError is raised again,
      any other exception is answered with "FAILED". The unsupported-intent
      reply reads the intent's name from the request, and what that lookup
      raises escapes the handlers. */
  function Handled(res: Result<string>, request: Json): (r: Result<string>)
    ensures res.Ok? ==> r == res
    ensures res.Err? && !res.error.ValueError? ==> r == Ok(FailedReply)
    ensures r.Err? ==> r == res || r.error == KeyError || r.error == TypeError
    ensures res.Err? && res.error.ValueError? && !Contains(res.error.msg, UnsupportedPhrase) ==>
              r == if Contains(res.error.msg, MismatchPhrase) then Ok(MismatchReply) else res
  {
    match res
    case Ok(_) => res
    case Err(ValueError(msg)) =>
      if Contains(msg, UnsupportedPhrase) then
        var query :- Subscript(request, "queryResult");
        var intent :- Subscript(query, "intent");
        var name :- Subscript(intent, "displayName");
        Ok(UnsupportedReply(name))
      else if Contains(msg, MismatchPhrase) then Ok(MismatchReply)
      else res
    case Err(_) => Ok(FailedReply)
  }

  /** `run()`: the decision flow under the handlers. */
  function RunV(docs: Docs, it: Intent, request: Json, count: nat): (Result<string>, Docs)
    requires Dated(it)
  {
    var out := FlowV(docs, it, count);
    (Handled(out.0, request), out.1)
  }

  /** `Executor(request).run()`: the constructor parses the request before
      `run` is entered, so whatever parsing raises escapes the handlers. */
  function ExecuteV(docs: Docs, request: Json, count: nat): (Result<string>, Docs)
  {
    match IntentOf(request)
    case Err(e) => (Err(e), docs)
    case Ok(it) =>
      IntentIsDated(request);
      RunV(docs, it, request, count)
  }

  /** The executor with parsing moved inside the handlers, which the
      handlers' own messages call for. */
  function RespondV(docs: Docs, request: Json, count: nat): (Result<string>, Docs)
  {
    match IntentOf(request)
    case Err(e) => (Handled(Err(e), request), docs)
    case Ok(it) =>
      IntentIsDated(request);
      RunV(docs, it, request, count)
  }

  // ------------------------------------------------------------ the object

  class Executor {
    const intent: Intent
    const request: Json
    const store: LogStore

    predicate Valid()
    {
      Dated(intent)
    }

    constructor(intent: Intent, request: Json, store: LogStore)
      requires Dated(intent)
      ensures Valid() && this.intent == intent && this.request == request && this.store == store
    {
      this.intent := intent;
      this.request := request;
      this.store := store;
    }

    /** `Executor(request)`: the request is parsed here, and what parsing
        raises is raised to the caller. */
    static method Create(request: Json, store: LogStore) returns (r: Result<Executor>)
      ensures r.Ok? <==> IntentOf(request).Ok?
      ensures r.Err? ==> r.error == IntentOf(request).error
      ensures r.Ok? ==> fresh(r.value) && r.value.Valid()
      ensures r.Ok? ==> r.value.intent == IntentOf(request).value && r.value.request == request && r.value.store == store
    {
      var it := Parse(request);
      if it.Err? {
        return Err(it.error);
      }
      IntentIsDated(request);
      var e := new Executor(it.value, request, store);
      return Ok(e);
    }

    /** `Executor(request).run()`, as written. */
    static method Execute(request: Json, store: LogStore, count: nat) returns (r: Result<string>)
      modifies store
      ensures (r, store.docs) == ExecuteV(old(store.docs), request, count)
    {
      var e := Create(request, store);
      if e.Err? {
        return Err(e.error);
      }
      r := e.value.Run(count);
    }

    /** `run()`. */
    method Run(count: nat) returns (r: Result<string>)
      requires Valid()
      modifies store
      ensures (r, store.docs) == RunV(old(store.docs), intent, request, count)
    {
      var res := DecisionFlow(count);
      r := Handled(res, request);
    }

    /** `_decision_flow()`. */
    method DecisionFlow(count: nat) returns (res: Result<string>)
      requires Valid()
      modifies store
      ensures (res, store.docs) == FlowV(old(store.docs), intent, count)
    {
      var kind := intent.kind;
      if SI.EqStr(SI.GetNumLogs, kind) {
        res := Err(AttributeError);
      } else if SI.EqStr(SI.GetDailyLog, kind) {
        res := GetDailyLog();
      } else if SI.EqStr(SI.LogActivity, kind) {
        res := LogActivity();
      } else if SI.EqStr(SI.LogPain, kind) {
        res := LogPain();
      } else if SI.EqStr(SI.DeleteDailyLog, kind) {
        store.DeleteLog(intent.user, intent.date.value);
        res := Ok(DeleteReply(intent.date.value));
      } else if SI.EqStr(SI.GetActivitySummary, kind) {
        res := SummaryV(intent.logInput, count);
      } else if SI.EqStr(SI.GetCommandList, kind) {
        res := Ok(SI.Summarize());
      } else {
        res := Err(UnboundLocalError);
      }
    }

    /** The GetDailyLog branch: fetch, render for the debug message, render
        for the reply. */
    method GetDailyLog() returns (res: Result<string>)
      requires Valid() && intent.kind == "GetDailyLog"
      ensures res == GetDailyLogV(store.docs, intent.user, intent.date.value).0
    {
      var got := store.GetLog(intent.user, intent.date.value, true);
      if got.Err? {
        return Err(got.error);
      }
      res := Show(got.value.value);
    }

    /** The log rendered for the debug message, then again for the reply. */
    static method Show(log: DailyLog) returns (res: Result<string>)
      ensures res == RenderV(log.View())
    {
      var shown := log.Render();
      if shown.Err? {
        return shown;
      }
      res := log.Render();
    }

    /** The LogActivity branch: fetch, then add and save. */
    method LogActivity() returns (res: Result<string>)
      requires Valid() && intent.kind == "LogActivity"
      modifies store
      ensures (res, store.docs) == LogActivityV(old(store.docs), intent.user, intent.date.value, intent.logInput)
    {
      var got := store.GetLog(intent.user, intent.date.value, true);
      if got.Err? {
        return Err(got.error);
      }
      res := AddActivityInput(got.value.value);
    }

    /** `log.add_activity(Activity.from_dict(log_input))`, then the log is
        rendered and uploaded. */
    method AddActivityInput(log: DailyLog) returns (res: Result<string>)
      requires log.Valid()
      modifies store, log, log.activities
      ensures (res, store.docs) == AddActivityInputV(old(store.docs), intent.user, old(log.View()), intent.logInput)
    {
      var a := Activity.FromDict(intent.logInput);
      if a.Err? {
        return Err(a.error);
      }
      res := AddActivityAndSave(log, a.value);
    }

    method AddActivityAndSave(log: DailyLog, a: Activity) returns (res: Result<string>)
      requires log.Valid()
      modifies store, log, log.activities
      ensures (res, store.docs) == SaveAndRenderV(old(store.docs), intent.user, AddActivityV(old(log.View()), a.name, old(a.sets), false))
    {
      log.AddActivity(a, false);
      res := SaveAndRender(log);
    }

    /** The LogPain branch: fetch, then add and save. */
    method LogPain() returns (res: Result<string>)
      requires Valid() && intent.kind == "LogPain"
      modifies store
      ensures (res, store.docs) == LogPainV(old(store.docs), intent.user, intent.date.value, intent.logInput)
    {
      var got := store.GetLog(intent.user, intent.date.value, true);
      if got.Err? {
        return Err(got.error);
      }
      res := AddPainInput(got.value.value);
    }

    /** `log.add_pain(Pain(**log_input))`, then the log is rendered and
        uploaded. */
    method AddPainInput(log: DailyLog) returns (res: Result<string>)
      requires log.Valid()
      modifies store, log
      ensures (res, store.docs) == AddPainInputV(old(store.docs), intent.user, old(log.View()), intent.logInput)
    {
      var p := PainFromKwargs(intent.logInput);
      if p.Err? {
        return Err(p.error);
      }
      log.AddPain(p.value);
      res := SaveAndRender(log);
    }

    /** The common tail of the two logging branches: render for the debug
        message, upload, and reply with the rendering of the unchanged log. */
    method SaveAndRender(log: DailyLog) returns (res: Result<string>)
      modifies store
      ensures (res, store.docs) == SaveAndRenderV(old(store.docs), intent.user, log.View())
    {
      var shown := log.Render();
      if shown.Err? {
        return shown;
      }
      store.UploadLog(intent.user, log);
      res := shown;
    }
  }

  // ---------------------------------------------------------------- lemmas

  /** A parsed intent carries a date whenever its kind needs one. */
  lemma IntentIsDated(req: Json)
    requires IntentOf(req).Ok?
    ensures Dated(IntentOf(req).value)
  {
    IntentShape(req);
  }

  // ------------------------------------------------ the flow, kind by kind

  lemma FlowGetNumLogs(docs: Docs, it: Intent, count: nat)
    requires Dated(it) && it.kind == "GetNumLogs"
    ensures FlowV(docs, it, count) == (Err(AttributeError), docs)
  {
  }

  lemma FlowGetDailyLog(docs: Docs, it: Intent, count: nat)
    requires Dated(it) && it.kind == "GetDailyLog"
    ensures FlowV(docs, it, count) == GetDailyLogV(docs, it.user, it.date.value)
  {
  }

  lemma FlowLogActivity(docs: Docs, it: Intent, count: nat)
    requires Dated(it) && it.kind == "LogActivity"
    ensures FlowV(docs, it, count) == LogActivityV(docs, it.user, it.date.value, it.logInput)
  {
  }

  lemma FlowLogPain(docs: Docs, it: Intent, count: nat)
    requires Dated(it) && it.kind == "LogPain"
    ensures FlowV(docs, it, count) == LogPainV(docs, it.user, it.date.value, it.logInput)
  {
  }

  lemma FlowDelete(docs: Docs, it: Intent, count: nat)
    requires Dated(it) && it.kind == "DeleteDailyLog"
    ensures FlowV(docs, it, count) == (Ok(DeleteReply(it.date.value)), docs - {(it.user, it.date.value)})
  {
  }

  lemma FlowSummary(docs: Docs, it: Intent, count: nat)
    requires Dated(it) && it.kind == "GetActivitySummary"
    ensures FlowV(docs, it, count) == (SummaryV(it.logInput, count), docs)
  {
    assert !SI.EqStr(SI.GetNumLogs, it.kind) && !SI.EqStr(SI.GetDailyLog, it.kind);
    assert !SI.EqStr(SI.LogActivity, it.kind) && !SI.EqStr(SI.LogPain, it.kind);
    assert !SI.EqStr(SI.DeleteDailyLog, it.kind);
  }

  /** Past the six named commands only the command list gives a reply. */
  lemma FlowOther(docs: Docs, it: Intent, count: nat)
    requires Dated(it)
    requires !SI.EqStr(SI.GetNumLogs, it.kind) && !SI.EqStr(SI.GetDailyLog, it.kind)
    requires !SI.EqStr(SI.LogActivity, it.kind) && !SI.EqStr(SI.LogPain, it.kind)
    requires !SI.EqStr(SI.DeleteDailyLog, it.kind) && !SI.EqStr(SI.GetActivitySummary, it.kind)
    ensures FlowV(docs, it, count)
      == (if SI.EqStr(SI.GetCommandList, it.kind) then Ok(SI.Summarize()) else Err(UnboundLocalError), docs)
  {
  }

  /** The kinds outside the date-carrying ones change nothing. */
  lemma FlowUndated(docs: Docs, it: Intent, count: nat)
    requires Dated(it) && it.kind !in DatedNames
    ensures FlowV(docs, it, count).1 == docs
  {
    if it.kind == "GetNumLogs" {
      FlowGetNumLogs(docs, it, count);
    } else if it.kind == "GetActivitySummary" {
      FlowSummary(docs, it, count);
    } else {
      assert it.kind != DatedNames[0] && it.kind != DatedNames[1];
      assert it.kind != DatedNames[2] && it.kind != DatedNames[3];
      FlowOther(docs, it, count);
    }
  }

  /** A save that raises writes nothing. */
  lemma SaveFailureKeepsStore(docs: Docs, user: Json, v: LogView)
    ensures SaveAndRenderV(docs, user, v).0.Err? ==> SaveAndRenderV(docs, user, v).1 == docs
  {
  }

  // ---------------------------------------------------------- the store

  /** Saving writes the log's own date and nothing else. */
  lemma SaveTouchesOnlyItsDate(docs: Docs, user: Json, v: LogView)
    ensures SaveAndRenderV(docs, user, v).1 - {(user, v.date)} == docs - {(user, v.date)}
  {
    if RenderV(v).Ok? {
      var after := docs[(user, v.date) := ToDictV(v)];
      assert after - {(user, v.date)} == docs - {(user, v.date)};
    }
  }

  /** LogActivity writes at most the day's own log. */
  lemma LogActivityTouchesOnlyItsDate(docs: Docs, user: Json, date: string, input: Json)
    ensures LogActivityV(docs, user, date, input).1 - {(user, date)} == docs - {(user, date)}
  {
    var g := GetLogV(docs, user, date, true);
    if g.Ok? {
      var a := ActivityFromDict(input);
      if a.Ok? {
        SaveTouchesOnlyItsDate(docs, user, AddActivityV(g.value.value, a.value.0, a.value.1, false));
      }
    }
  }

  /** LogPain writes at most the day's own log. */
  lemma LogPainTouchesOnlyItsDate(docs: Docs, user: Json, date: string, input: Json)
    ensures LogPainV(docs, user, date, input).1 - {(user, date)} == docs - {(user, date)}
  {
    var g := GetLogV(docs, user, date, true);
    if g.Ok? {
      var p := PainFromKwargs(input);
      if p.Ok? {
        SaveTouchesOnlyItsDate(docs, user, AddPainV(g.value.value, p.value));
      }
    }
  }

  /** An action changes at most the stored log of the intent's own user and
      date; the commands without a date change nothing. */
  lemma StoreChangesOnlyAtDate(docs: Docs, it: Intent, count: nat)
    requires Dated(it)
    ensures it.kind !in DatedNames ==> FlowV(docs, it, count).1 == docs
    ensures it.kind in DatedNames ==>
              FlowV(docs, it, count).1 - {(it.user, it.date.value)} == docs - {(it.user, it.date.value)}
  {
    if it.kind !in DatedNames {
      FlowUndated(docs, it, count);
    } else if it.kind == "GetDailyLog" {
      FlowGetDailyLog(docs, it, count);
    } else if it.kind == "LogActivity" {
      FlowLogActivity(docs, it, count);
      LogActivityTouchesOnlyItsDate(docs, it.user, it.date.value, it.logInput);
    } else if it.kind == "LogPain" {
      FlowLogPain(docs, it, count);
      LogPainTouchesOnlyItsDate(docs, it.user, it.date.value, it.logInput);
    } else {
      FlowDelete(docs, it, count);
    }
  }

  /** An action that raises leaves every stored log as it was. */
  lemma FailureKeepsStore(docs: Docs, it: Intent, count: nat)
    requires Dated(it)
    ensures FlowV(docs, it, count).0.Err? ==> FlowV(docs, it, count).1 == docs
  {
    if it.kind !in DatedNames {
      FlowUndated(docs, it, count);
    } else if it.kind == "GetDailyLog" {
      FlowGetDailyLog(docs, it, count);
    } else if it.kind == "LogActivity" {
      FlowLogActivity(docs, it, count);
      var g := GetLogV(docs, it.user, it.date.value, true);
      var a := ActivityFromDict(it.logInput);
      if g.Ok? && a.Ok? {
        SaveFailureKeepsStore(docs, it.user, AddActivityV(g.value.value, a.value.0, a.value.1, false));
      }
    } else if it.kind == "LogPain" {
      FlowLogPain(docs, it, count);
      var g := GetLogV(docs, it.user, it.date.value, true);
      var p := PainFromKwargs(it.logInput);
      if g.Ok? && p.Ok? {
        SaveFailureKeepsStore(docs, it.user, AddPainV(g.value.value, p.value));
      }
    } else {
      FlowDelete(docs, it, count);
    }
  }

  /** What the bot answers after logging an activity is what it answers when
      asked for that day's log next: the stored dict reads back as a log that
      renders the same, and reading changes nothing. This needs a day without
      pains, which cannot be read back at all. */
  lemma LoggedActivityReadsBack(docs: Docs, user: Json, date: string, input: Json)
    requires GetLogV(docs, user, date, true).Ok?
    requires var v := GetLogV(docs, user, date, true).value.value;
      ValidView(v) && v.pains == [] && AllSetsValid(v.activities)
    requires LogActivityV(docs, user, date, input).0.Ok?
    ensures GetDailyLogV(LogActivityV(docs, user, date, input).1, user, date) == LogActivityV(docs, user, date, input)
  {
    var v := GetLogV(docs, user, date, true).value.value;
    var a := ActivityFromDict(input).value;
    var v2 := AddActivityV(v, a.0, a.1, false);
    AddActivityKeepsValid(v, a.0, a.1, false);
    var s := RenderV(v2).value;
    var after := docs[(user, date) := ToDictV(v2)];
    assert LogActivityV(docs, user, date, input) == (Ok(s), after);
    FromDictRoundTrip(date, v2);
    RenderReadBack(v2);
  }

  /** The first log of a day reads back as it was answered. */
  lemma FirstActivityReadsBack(docs: Docs, user: Json, date: string, input: Json)
    requires (user, date) !in docs
    requires LogActivityV(docs, user, date, input).0.Ok?
    ensures GetDailyLogV(LogActivityV(docs, user, date, input).1, user, date) == LogActivityV(docs, user, date, input)
  {
    LoggedActivityReadsBack(docs, user, date, input);
  }

  /** A day whose log cannot be fetched fails every action that reads it. */
  lemma UnreadableDay(docs: Docs, user: Json, date: string, e: Exc, input: Json)
    requires GetLogV(docs, user, date, true) == Err(e)
    ensures GetDailyLogV(docs, user, date) == (Err(e), docs)
    ensures LogActivityV(docs, user, date, input) == (Err(e), docs)
    ensures LogPainV(docs, user, date, input) == (Err(e), docs)
  {
  }

  /** Logging a pain stores a log that holds it. */
  lemma LoggedPainStored(docs: Docs, user: Json, date: string, input: Json)
    requires GetLogV(docs, user, date, true).Ok?
    requires LogPainV(docs, user, date, input).0.Ok?
    ensures var v := GetLogV(docs, user, date, true).value.value;
      var v2 := AddPainV(v, PainFromKwargs(input).value);
      LogPainV(docs, user, date, input).1 == docs[(user, date) := ToDictV(v2)] && v2.date == date
  {
  }

  /** Once a pain is logged, the day's stored log can no longer be read: a
      request for the log, and any further activity or pain for that day,
      raises the ValueError of the first stored pain. */
  lemma LoggedPainBreaksDay(docs: Docs, user: Json, date: string, input: Json, input2: Json)
    requires GetLogV(docs, user, date, true).Ok?
    requires var v := GetLogV(docs, user, date, true).value.value;
      ValidView(v) && AllSetsValid(v.activities)
    requires LogPainV(docs, user, date, input).0.Ok?
    ensures var v := GetLogV(docs, user, date, true).value.value;
      var after := LogPainV(docs, user, date, input).1;
      var e := LevelError(PainDict(AddPainV(v, PainFromKwargs(input).value).pains[0]));
      && GetDailyLogV(after, user, date) == (Err(e), after)
      && LogActivityV(after, user, date, input2) == (Err(e), after)
      && LogPainV(after, user, date, input2) == (Err(e), after)
  {
    var v := GetLogV(docs, user, date, true).value.value;
    var p := PainFromKwargs(input).value;
    var v2 := AddPainV(v, p);
    AddPainPlacement(v, p);
    LoggedPainStored(docs, user, date, input);
    var after := docs[(user, date) := ToDictV(v2)];
    FromDictRejectsPains(date, v2);
    var e := LevelError(PainDict(v2.pains[0]));
    assert GetLogV(after, user, date, true) == Err(e);
    UnreadableDay(after, user, date, e, input2);
  }

  /** After a delete, the day reads as a new empty log. */
  lemma DeletedDayReadsEmpty(docs: Docs, user: Json, date: string)
    requires IsValidDateFormat(date)
    ensures GetDailyLogV(docs - {(user, date)}, user, date) == (RenderV(EmptyView(date)), docs - {(user, date)})
  {
  }

  /** The count request always fails, and the failure is answered as such. */
  lemma GetNumLogsFails(docs: Docs, it: Intent, request: Json, count: nat)
    requires Dated(it) && it.kind == "GetNumLogs"
    ensures RunV(docs, it, request, count) == (Ok(FailedReply), docs)
  {
    FlowGetNumLogs(docs, it, count);
  }

  /** The summary reply for an activity name. */
  lemma SummaryReply(name: string, count: nat)
    ensures var heading := "**Summary Stats for '" + name + "'**\n";
      var stat := "total_count: " + IntToString(count);
      SummaryV(JObj([Member("name", JStr(name))]), count) == Ok(heading + "\n" + stat)
  {
    assert Subscript(JObj([Member("name", JStr(name))]), "name") == Ok(JStr(name));
    JoinTwo("**Summary Stats for '" + name + "'**\n", "total_count: " + IntToString(count), "\n");
  }

  /** No parsed intent asks for the command list, so that branch of the
      flow is never taken. */
  lemma CommandListUnreachable(req: Json)
    requires IntentOf(req).Ok?
    ensures IntentOf(req).value.kind != "GetCommandList"
  {
    IntentShape(req);
  }

  // ------------------------------------------------ parsing outside `run`

  /** A request typed into the console: an intent name and its parameters. */
  function ConsoleRequest(kind: string, raw: Json): Json
  {
    JObj([Member("queryResult", JObj([
      Member("intent", JObj([Member("displayName", JStr(kind))])),
      Member("parameters", raw)]))])
  }

  /** A console request has no original request, so it comes from the
      test user. */
  lemma ConsoleUser(kind: string, raw: Json)
    ensures ResolveUser(ConsoleRequest(kind, raw)) == Ok(TestUser)
  {
    assert Find(ConsoleRequest(kind, raw).members, "originalDetectIntentRequest") == None;
  }

  /** The console request carries the kind and the parameters where the
      parser looks for them. */
  lemma ConsoleFields(kind: string, raw: Json)
    ensures var req := ConsoleRequest(kind, raw);
      && Subscript(req, "queryResult").Ok?
      && Subscript(Subscript(req, "queryResult").value, "intent").Ok?
      && Subscript(Subscript(Subscript(req, "queryResult").value, "intent").value, "displayName") == Ok(JStr(kind))
      && Subscript(Subscript(req, "queryResult").value, "parameters") == Ok(raw)
  {
    var q := JObj([Member("intent", JObj([Member("displayName", JStr(kind))])), Member("parameters", raw)]);
    assert Find(q.members[1..], "parameters") == Some(raw);
  }

  /** A console request of a supported kind goes to the test user, and its
      parameters decide the rest. */
  lemma ConsoleRequestParsed(kind: string, raw: Json)
    requires kind in SupportedNames
    ensures IntentOf(ConsoleRequest(kind, raw)) == match LogInputOf(kind, raw)
      case Err(e) => Err(e)
      case Ok(li) => Ok(Intent(kind, raw, li.1, li.0, TestUser))
  {
    ConsoleUser(kind, raw);
    ConsoleFields(kind, raw);
  }

  /** The parameters of the test request whose reps and weights do not
      match: one rep, two weights, no duration. */
  function MismatchEntity(): Json
  {
    var weight := JObj([Member("amount", JStr("45.0")), Member("unit", JStr("kg"))]);
    var weight2 := JObj([Member("amount", JStr("20.0")), Member("unit", JStr("kg"))]);
    ActivityEntity("Hip Adductions", JList([JStr("1")]), JList([weight, weight2]), JList([]))
  }

  lemma MismatchEntitySets()
    ensures SetsOf(MismatchEntity()) == Err(MismatchError)
  {
    var weight := JObj([Member("amount", JStr("45.0")), Member("unit", JStr("kg"))]);
    var weight2 := JObj([Member("amount", JStr("20.0")), Member("unit", JStr("kg"))]);
    ActivityEntityLengths("Hip Adductions", JList([JStr("1")]), JList([weight, weight2]), JList([]));
    assert {} + {1} + {2} == {1, 2};
  }

  /** The test entity fails at its sets, after its activity name was read. */
  lemma MismatchEntityFields()
    ensures FieldsOf("LogActivity", MismatchEntity()) == Err(MismatchError)
  {
    MismatchEntitySets();
    var raw := MismatchEntity();
    assert raw.members[0] == Member("activity", JStr("Hip Adductions"));
    assert Find(raw.members, "activity") == Some(JStr("Hip Adductions"));
  }

  /** The test entity carries a date. */
  lemma MismatchEntityDate()
    ensures DateOf("LogActivity", MismatchEntity()).Ok?
  {
    var raw := MismatchEntity();
    assert raw.members[1] == Member("date", JStr("2023-07-24T12:00:00+01:00"));
    assert Find(raw.members[1..], "date") == Some(JStr("2023-07-24T12:00:00+01:00"));
    assert Find(raw.members, "date") == Some(JStr("2023-07-24T12:00:00+01:00"));
  }

  lemma MismatchRequestRejected()
    ensures IntentOf(ConsoleRequest("LogActivity", MismatchEntity())) == Err(MismatchError)
  {
    MismatchEntityFields();
    MismatchEntityDate();
    ConsoleRequestParsed("LogActivity", MismatchEntity());
  }

  /** What the two executors make of a request that does not parse. */
  lemma ParseError(docs: Docs, req: Json, count: nat)
    requires IntentOf(req).Err?
    ensures ExecuteV(docs, req, count) == (Err(IntentOf(req).error), docs)
    ensures RespondV(docs, req, count) == (Handled(Err(IntentOf(req).error), req), docs)
  {
  }

  /** As written: the mismatch raised while the executor is constructed
      escapes, though `run` has a reply for it. */
  lemma MismatchEscapes(docs: Docs, count: nat)
    ensures ExecuteV(docs, ConsoleRequest("LogActivity", MismatchEntity()), count) == (Err(MismatchError), docs)
  {
    MismatchRequestRejected();
    ParseError(docs, ConsoleRequest("LogActivity", MismatchEntity()), count);
  }

  lemma MismatchPhraseLacksU()
    ensures forall k :: 0 <= k < |MismatchPhrase| ==> MismatchPhrase[k] != 'U'
  {
  }

  /** The mismatch message holds the mismatch phrase and not the
      unsupported-intent one. */
  lemma MismatchMessage()
    ensures Contains(MismatchError.msg, MismatchPhrase)
    ensures !Contains(MismatchError.msg, UnsupportedPhrase)
  {
    MismatchPhraseLacksU();
    NotContainsFirst(MismatchPhrase, UnsupportedPhrase);
    ContainsPrefix(MismatchPhrase, "");
    assert MismatchPhrase + "" == MismatchPhrase;
  }

  /** The handlers answer a mismatch with the tailored reply. */
  lemma HandledMismatch(req: Json)
    ensures Handled(Err(MismatchError), req) == Ok(MismatchReply)
  {
    MismatchMessage();
  }

  /** With parsing inside the handlers, a mismatch is answered with the
      tailored reply and the store is untouched. */
  lemma MismatchAnswered(docs: Docs, req: Json, count: nat)
    requires IntentOf(req) == Err(MismatchError)
    ensures RespondV(docs, req, count) == (Ok(MismatchReply), docs)
  {
    ParseError(docs, req, count);
    HandledMismatch(req);
  }

  /** The unsupported-intent message holds its phrase. */
  lemma UnsupportedMessage()
    ensures Contains(UnsupportedError.msg, UnsupportedPhrase)
  {
    ContainsPrefix(UnsupportedPhrase, " passed");
    assert UnsupportedPhrase + " passed" == UnsupportedError.msg;
  }

  /** The handlers answer an unsupported intent with the name the request
      carried. */
  lemma HandledUnsupported(req: Json)
    requires Subscript(req, "queryResult").Ok?
    requires Subscript(Subscript(req, "queryResult").value, "intent").Ok?
    requires Subscript(Subscript(Subscript(req, "queryResult").value, "intent").value, "displayName").Ok?
    ensures Handled(Err(UnsupportedError), req)
      == Ok(UnsupportedReply(Subscript(Subscript(Subscript(req, "queryResult").value, "intent").value, "displayName").value))
  {
    UnsupportedMessage();
  }

  /** An unsupported intent name escapes as written, and is answered with
      the name it carried once parsing is inside the handlers. */
  lemma UnsupportedAnswered(docs: Docs, req: Json, count: nat)
    requires Subscript(req, "queryResult").Ok?
    requires Subscript(Subscript(req, "queryResult").value, "intent").Ok?
    requires Subscript(Subscript(Subscript(req, "queryResult").value, "intent").value, "displayName").Ok?
    requires Subscript(Subscript(req, "queryResult").value, "parameters").Ok?
    requires var kind := Subscript(Subscript(Subscript(req, "queryResult").value, "intent").value, "displayName").value;
      !kind.JStr? || kind.s !in SupportedNames
    ensures ExecuteV(docs, req, count) == (Err(UnsupportedError), docs)
    ensures RespondV(docs, req, count)
      == (Ok(UnsupportedReply(Subscript(Subscript(Subscript(req, "queryResult").value, "intent").value, "displayName").value)), docs)
  {
    UnsupportedRejectedFirst(req);
    ParseError(docs, req, count);
    HandledUnsupported(req);
  }

  /** The correction changes nothing for a request that parses. */
  lemma RespondAgreesWhenParsed(docs: Docs, req: Json, count: nat)
    requires IntentOf(req).Ok?
    ensures RespondV(docs, req, count) == ExecuteV(docs, req, count)
  {
  }
}
