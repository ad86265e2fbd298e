/** A user's record of one day: the activities and the pain records logged
    that day, each kept by name in the order the name was first logged, and a
    free-form note for each of the two groups. */
module DailyLogs {
  import opened Wrappers
  import opened Text
  import opened Json
  import opened Records
  import opened Dates
  import opened Seqs

  /** One activity of a log as it stands: its name and its current sets. */
  datatype Entry = Entry(name: string, sets: seq<Set>)

  /** Everything a DailyLog holds, as a value: the date text, the activities
      and pains in the order of their names, and the two notes. */
  datatype LogView = LogView(date: string, activities: seq<Entry>, pains: seq<Pain>, activityNotes: Json, painNotes: Json)

  function EntryNames(es: seq<Entry>): (r: seq<string>)
    ensures |r| == |es| && forall i :: 0 <= i < |es| ==> r[i] == es[i].name
  {
    seq(|es|, i requires 0 <= i < |es| => es[i].name)
  }

  function PainNames(ps: seq<Pain>): (r: seq<string>)
    ensures |r| == |ps| && forall i :: 0 <= i < |ps| ==> r[i] == ps[i].name
  {
    seq(|ps|, i requires 0 <= i < |ps| => ps[i].name)
  }

  /** The keys of a dict never repeat. */
  predicate Distinct(ns: seq<string>)
  {
    forall i, j :: 0 <= i < j < |ns| ==> ns[i] != ns[j]
  }

  predicate ValidView(v: LogView)
  {
    Distinct(EntryNames(v.activities)) && Distinct(PainNames(v.pains))
  }

  /** Where `n` sits among the keys of a dict, if it is one of them. */
  function Position(ns: seq<string>, n: string): (r: Option<nat>)
    ensures r.Some? <==> n in ns
    ensures r.Some? ==> r.value < |ns| && ns[r.value] == n
  {
    if ns == [] then None
    else if ns[0] == n then Some(0)
    else
      match Position(ns[1..], n)
      case None => None
      case Some(k) => Some(k + 1)
  }

  // ------------------------------------------------------ the log as a value

  /** `DailyLog(date)`: no activities, no pains, no notes. */
  function EmptyView(date: string): LogView
  {
    LogView(date, [], [], JNull, JNull)
  }

  /** `add_activity` with a name and the sets the added activity holds: an
      unknown name goes last; a known one keeps its place and either takes the
      new sets or has them appended to its own. */
  function AddActivityV(v: LogView, name: string, sets: seq<Set>, overwrite: bool): LogView
  {
    match Position(EntryNames(v.activities), name)
    case None => v.(activities := v.activities + [Entry(name, sets)])
    case Some(k) =>
      var kept := if overwrite then sets else v.activities[k].sets + sets;
      v.(activities := v.activities[k := Entry(name, kept)])
  }

  /** `delete_activity`: the entry of that name, if any, is removed. */
  function DeleteActivityV(v: LogView, name: string): LogView
  {
    match Position(EntryNames(v.activities), name)
    case None => v
    case Some(k) => v.(activities := v.activities[..k] + v.activities[k + 1..])
  }

  /** `add_pain`: a pain replaces the one of the same name in its place, or
      goes last. */
  function AddPainV(v: LogView, p: Pain): LogView
  {
    match Position(PainNames(v.pains), p.name)
    case None => v.(pains := v.pains + [p])
    case Some(k) => v.(pains := v.pains[k := p])
  }

  /** `delete_pain`. */
  function DeletePainV(v: LogView, name: string): LogView
  {
    match Position(PainNames(v.pains), name)
    case None => v
    case Some(k) => v.(pains := v.pains[..k] + v.pains[k + 1..])
  }

  /** Each entry added in turn without overwriting. */
  function AddActivitiesV(v: LogView, es: seq<Entry>): LogView
  {
    if es == [] then v
    else
      var last := es[|es| - 1];
      AddActivityV(AddActivitiesV(v, es[..|es| - 1]), last.name, last.sets, false)
  }

  function AddPainsV(v: LogView, ps: seq<Pain>): LogView
  {
    if ps == [] then v else AddPainV(AddPainsV(v, ps[..|ps| - 1]), ps[|ps| - 1])
  }

  /** `DailyLog(date, activities, pains, activity_notes, pain_notes)`. */
  function InitV(date: string, es: seq<Entry>, ps: seq<Pain>, activityNotes: Json, painNotes: Json): LogView
  {
    AddPainsV(AddActivitiesV(LogView(date, [], [], activityNotes, painNotes), es), ps)
  }

  // ------------------------------------------------------------- to_dict

  /** The "activities" dict: each activity's dict without its name, under
      its name. */
  function ActivityMembers(es: seq<Entry>): (r: seq<Member>)
    ensures |r| == |es|
    ensures forall i :: 0 <= i < |es| ==> r[i] == Member(es[i].name, ActivityDict(es[i].name, es[i].sets, false))
  {
    seq(|es|, i requires 0 <= i < |es| => Member(es[i].name, ActivityDict(es[i].name, es[i].sets, false)))
  }

  /** The "pains" dict: each pain's own dict under its name. */
  function PainMembers(ps: seq<Pain>): (r: seq<Member>)
    ensures |r| == |ps|
    ensures forall i :: 0 <= i < |ps| ==> r[i] == Member(ps[i].name, PainDict(ps[i]))
  {
    seq(|ps|, i requires 0 <= i < |ps| => Member(ps[i].name, PainDict(ps[i])))
  }

  /** `daily_log.to_dict()`. */
  function ToDictV(v: LogView): Json
  {
    JObj([Member("date", JStr(v.date)),
          Member("activities", JObj(ActivityMembers(v.activities))),
          Member("pains", JObj(PainMembers(v.pains))),
          Member("pain_notes", v.painNotes),
          Member("activity_notes", v.activityNotes)])
  }

  // ----------------------------------------------------------- from_dict

  /** The items of the stored "activities" dict (`ofActivities`) or of the
      "pains" dict, taken in turn; the first item that raises ends the fold. */
  function Steps(v: LogView, ms: seq<Member>, ofActivities: bool): (r: Result<LogView>)
    ensures r.Ok? ==> r.value.date == v.date
  {
    if ms == [] then Ok(v)
    else
      var prev :- Steps(v, ms[..|ms| - 1], ofActivities);
      ItemStep(prev, ms[|ms| - 1], ofActivities)
  }

  function ItemStep(v: LogView, m: Member, ofActivities: bool): Result<LogView>
  {
    if ofActivities then AddActivityFrom(v, m) else AddPainFrom(v, m)
  }

  /** One item of the stored "activities" dict: the name is written into
      the activity's dict, which is read back and added without overwriting. */
  function AddActivityFrom(v: LogView, m: Member): Result<LogView>
  {
    var d :- SetItem(m.val, "name", JStr(m.key));
    var a :- ActivityFromDict(d);
    Ok(AddActivityV(v, a.0, a.1, false))
  }

  /** One item of the stored "pains" dict: `Pain(name, value)`. */
  function AddPainFrom(v: LogView, m: Member): Result<LogView>
  {
    var p :- NewPain(m.key, m.val);
    Ok(AddPainV(v, p))
  }

  /** A truthy collection has its items folded in; a falsy one is skipped. */
  function AddAll(v: LogView, coll: Json, ofActivities: bool): Result<LogView>
  {
    if !Truthy(coll) then Ok(v)
    else
      var ms :- Items(coll);
      Steps(v, ms, ofActivities)
  }

  /** A note is set only when it is truthy. */
  function KeptNote(n: Json): (r: Json)
    ensures Truthy(r) == Truthy(n)
  {
    if Truthy(n) then n else JNull
  }

  /** `DailyLog.from_dict(date, d)`. */
  function FromDictV(date: string, d: Json): (r: Result<LogView>)
    ensures r.Ok? ==> r.value.date == date
  {
    var an :- GetOr(d, "activity_notes", JNull);
    var pn := GetOr(d, "pain_notes", JNull).value;   // `d` is a dict by now
    FillV(LogView(date, [], [], KeptNote(an), KeptNote(pn)), d)
  }

  /** The two loops of `from_dict`: the stored activities, then the stored
      pains. */
  function FillV(v: LogView, d: Json): Result<LogView>
  {
    var acts :- GetOr(d, "activities", JNull);
    var v1 :- AddAll(v, acts, true);
    var ps :- GetOr(d, "pains", JNull);
    AddAll(v1, ps, false)
  }

  // ----------------------------------------------------------- rendering

  function ActivityLines(es: seq<Entry>): (r: seq<string>)
    ensures |r| == |es|
    ensures forall i :: 0 <= i < |es| ==> r[i] == "* " + RenderActivity(es[i].name, es[i].sets)
  {
    seq(|es|, i requires 0 <= i < |es| => "* " + RenderActivity(es[i].name, es[i].sets))
  }

  function PainLines(ps: seq<Pain>): (r: seq<string>)
    ensures |r| == |ps|
    ensures forall i :: 0 <= i < |ps| ==> r[i] == "* " + RenderPain(ps[i])
  {
    seq(|ps|, i requires 0 <= i < |ps| => "* " + RenderPain(ps[i]))
  }

  /** A truthy note is one more line; joining a note that is not a string
      raises TypeError. */
  function NoteLines(n: Json): Result<seq<string>>
  {
    if !Truthy(n) then Ok([])
    else if n.JStr? then Ok([n.s])
    else Err(TypeError)
  }

  /** The lines of the rendering: header, blank, activity count, activity
      lines, activity notes, blank, pain count, pain lines, pain notes. */
  function ReportLines(v: LogView, formatted: string, an: seq<string>, pn: seq<string>): seq<string>
  {
    ActivitySection(v, formatted, an) + PainSection(v, pn)
  }

  function ActivitySection(v: LogView, formatted: string, an: seq<string>): seq<string>
  {
    [formatted + " Log:", "", IntToString(|v.activities|) + "x activities:"] + ActivityLines(v.activities) + an
  }

  function PainSection(v: LogView, pn: seq<string>): seq<string>
  {
    ["", IntToString(|v.pains|) + "x pain records:"] + PainLines(v.pains) + pn
  }

  /** The activity section as `str` builds it, a piece at a time. */
  lemma ActivitySectionSteps(v: LogView, formatted: string, an: seq<string>)
    ensures ActivitySection(v, formatted, an)
      == ([formatted + " Log:", ""] + [IntToString(|v.activities|) + "x activities:"]) + ActivityLines(v.activities) + an
  {
    assert [formatted + " Log:", ""] + [IntToString(|v.activities|) + "x activities:"]
      == [formatted + " Log:", "", IntToString(|v.activities|) + "x activities:"];
  }

  /** `str(daily_log)`. */
  function RenderV(v: LogView): Result<string>
  {
    var dt :- Strptime(v.date);
    var lines :- LinesV(v, FormatDate(dt));
    Ok(Join(lines, "\n"))
  }

  /** The lines to join, given the formatted date. */
  function LinesV(v: LogView, formatted: string): Result<seq<string>>
  {
    var an :- NoteLines(v.activityNotes);
    var pn :- NoteLines(v.painNotes);
    Ok(ReportLines(v, formatted, an, pn))
  }

  // ----------------------------------------------------- the mutable log

  /** The names of activity objects; a name never changes. */
  function ActivityNames(acts: seq<Activity>): (r: seq<string>)
    ensures |r| == |acts| && forall i :: 0 <= i < |acts| ==> r[i] == acts[i].name
  {
    seq(|acts|, i requires 0 <= i < |acts| => acts[i].name)
  }

  /** What the activity objects currently hold. */
  function Entries(acts: seq<Activity>): (r: seq<Entry>)
    reads acts
    ensures |r| == |acts| && forall i :: 0 <= i < |acts| ==> r[i] == Entry(acts[i].name, acts[i].sets)
  {
    if acts == [] then []
    else Entries(acts[..|acts| - 1]) + [Entry(acts[|acts| - 1].name, acts[|acts| - 1].sets)]
  }

  lemma {:induction false} EntriesConcat(a: seq<Activity>, b: seq<Activity>)
    ensures Entries(a + b) == Entries(a) + Entries(b)
    decreases |b|
  {
    if b == [] {
      assert a + b == a;
    } else {
      var init := b[..|b| - 1];
      assert (a + b)[..|a + b| - 1] == a + init;
      EntriesConcat(a, init);
    }
  }

  /** Taking out the object at `k` takes out its entry. */
  lemma RemovedEntries(acts: seq<Activity>, k: nat)
    requires k < |acts|
    ensures Entries(acts[..k] + acts[k + 1..]) == Entries(acts)[..k] + Entries(acts)[k + 1..]
  {
    SplitAt(acts, k);
    EntriesConcat(acts[..k] + [acts[k]], acts[k + 1..]);
    EntriesConcat(acts[..k], [acts[k]]);
    EntriesConcat(acts[..k], acts[k + 1..]);
    AroundSplit(Entries(acts[..k]), Entry(acts[k].name, acts[k].sets), Entries(acts[k + 1..]));
  }

  /** No object occurs twice in the list. */
  predicate DistinctObjects(acts: seq<Activity>)
  {
    forall i, j :: 0 <= i < j < |acts| ==> acts[i] != acts[j]
  }

  class DailyLog {
    var date: string
    var activityNotes: Json
    var painNotes: Json
    /** The values of the name → Activity dict, in key order. */
    var activities: seq<Activity>
    /** The values of the name → Pain dict, in key order. */
    var pains: seq<Pain>

    /** Each dict has one entry per name. */
    predicate Valid()
      reads this
    {
      Distinct(ActivityNames(activities)) && Distinct(PainNames(pains))
    }

    function View(): (v: LogView)
      reads this, activities
      ensures EntryNames(v.activities) == ActivityNames(activities)
    {
      var es := Entries(activities);
      assert EntryNames(es) == ActivityNames(activities);
      LogView(date, es, pains, activityNotes, painNotes)
    }

    /** `DailyLog(date, activities, pains, activity_notes, pain_notes)`: the
        activities are added in turn without overwriting, then the pains.
        Objects listed more than once are left out of the description, as an
        object merged into is read again after it changed. */
    constructor(date: string, acts: seq<Activity>, ps: seq<Pain>, activityNotes: Json, painNotes: Json)
      modifies acts
      ensures Valid()
      ensures DistinctObjects(acts) ==> View() == InitV(date, old(Entries(acts)), ps, activityNotes, painNotes)
      ensures forall j :: 0 <= j < |activities| ==> activities[j] in acts
    {
      this.date := date;
      this.activityNotes := activityNotes;
      this.painNotes := painNotes;
      this.activities := [];
      this.pains := [];
      new;
      AddEach(acts);
      AddEachPain(ps);
    }

    /** The constructor's first loop: each listed activity added in turn
        without overwriting. */
    method AddEach(acts: seq<Activity>)
      requires Valid() && activities == []
      modifies this, acts
      ensures Valid()
      ensures DistinctObjects(acts) ==> View() == AddActivitiesV(old(View()), old(Entries(acts)))
      ensures forall j :: 0 <= j < |activities| ==> activities[j] in acts
    {
      ghost var es := Entries(acts);
      ghost var v0 := View();
      var i := 0;
      while i < |acts|
        invariant 0 <= i <= |acts|
        invariant Valid()
        invariant forall j :: 0 <= j < |activities| ==> activities[j] in acts[..i]
        invariant DistinctObjects(acts) ==> View() == AddActivitiesV(v0, es[..i])
        invariant DistinctObjects(acts) ==> forall j :: i <= j < |acts| ==> acts[j].sets == es[j].sets
      {
        AddAt(acts, i, es, v0);
        i := i + 1;
      }
      forall j | 0 <= j < |activities|
        ensures activities[j] in acts
      {
        assert activities[j] in acts[..i];
      }
      assert es[..i] == es;
    }

    /** The body of that loop: the `i`-th listed activity added after the
        ones before it. */
    method AddAt(acts: seq<Activity>, i: nat, ghost es: seq<Entry>, ghost v0: LogView)
      requires Valid() && i < |acts| == |es|
      requires forall j :: 0 <= j < |acts| ==> es[j].name == acts[j].name
      requires forall j :: 0 <= j < |activities| ==> activities[j] in acts[..i]
      requires DistinctObjects(acts) ==> View() == AddActivitiesV(v0, es[..i])
      requires DistinctObjects(acts) ==> forall j :: i <= j < |acts| ==> acts[j].sets == es[j].sets
      modifies this, acts
      ensures Valid()
      ensures forall j :: 0 <= j < |activities| ==> activities[j] in acts[..i + 1]
      ensures DistinctObjects(acts) ==> View() == AddActivitiesV(v0, es[..i + 1])
      ensures DistinctObjects(acts) ==> forall j :: i < j < |acts| ==> acts[j].sets == es[j].sets
    {
      assert es[..i + 1][..i] == es[..i];
      ghost var distinct := DistinctObjects(acts);
      if distinct {
        NotYetStored(acts, activities, i);
      }
      ghost var before := View();
      AddActivity(acts[i], false);
      if distinct {
        assert es[..i + 1][i] == es[i];
      }
    }

    /** The constructor's second loop: each listed pain added in turn. */
    method AddEachPain(ps: seq<Pain>)
      requires Valid()
      modifies this
      ensures Valid()
      ensures View() == AddPainsV(old(View()), ps)
      ensures activities == old(activities)
    {
      var k := 0;
      while k < |ps|
        invariant 0 <= k <= |ps|
        invariant Valid()
        invariant activities == old(activities)
        invariant View() == AddPainsV(old(View()), ps[..k])
      {
        assert ps[..k + 1][..k] == ps[..k];
        AddPain(ps[k]);
        k := k + 1;
      }
      assert ps[..k] == ps;
    }

    /** `add_activity(a, overwrite)`: the log changes as AddActivityV says,
        with the sets `a` held on entry. */
    method AddActivity(a: Activity, overwrite: bool)
      requires Valid()
      modifies this, activities
      ensures Valid()
      ensures View() == AddActivityV(old(View()), a.name, old(a.sets), overwrite)
      ensures forall i :: 0 <= i < |activities| ==> activities[i] in old(activities) || activities[i] == a
    {
      var k := Position(ActivityNames(activities), a.name);
      assert k == Position(EntryNames(View().activities), a.name);
      if k.Some? {
        if overwrite {
          ReplaceAt(k.value, a);
        } else {
          ExtendAt(k.value, a.sets);
        }
      } else {
        Append(a);
      }
    }

    /** The stored activity at `k` is replaced by `a`, of the same name. */
    method ReplaceAt(k: nat, a: Activity)
      requires Valid() && k < |activities| && activities[k].name == a.name
      modifies this
      ensures Valid()
      ensures activities == old(activities)[k := a]
      ensures View() == old(View()).(activities := old(View()).activities[k := Entry(a.name, a.sets)])
    {
      ghost var es := Entries(activities);
      activities := activities[k := a];
      assert ActivityNames(activities) == ActivityNames(old(activities));
      assert Entries(activities) == es[k := Entry(a.name, a.sets)];
    }

    /** `a`, whose name is new, is stored last. */
    method Append(a: Activity)
      requires Valid() && a.name !in ActivityNames(activities)
      modifies this
      ensures Valid()
      ensures activities == old(activities) + [a]
      ensures View() == old(View()).(activities := old(View()).activities + [Entry(a.name, a.sets)])
    {
      ghost var es := Entries(activities);
      activities := activities + [a];
      assert Entries(activities) == es + [Entry(a.name, a.sets)];
    }

    /** The stored activity at `k` has `added` appended to its sets; no other
        stored activity changes, as each has its own name. */
    method ExtendAt(k: nat, added: seq<Set>)
      requires Valid() && k < |activities|
      modifies activities[k]
      ensures View() == old(View()).(activities := old(View()).activities[k := Entry(activities[k].name, old(activities[k].sets) + added)])
    {
      ghost var es := Entries(activities);
      var stored := activities[k];
      forall j | 0 <= j < |activities| && j != k
        ensures activities[j] != stored
      {
        assert ActivityNames(activities)[j] != ActivityNames(activities)[k];
      }
      stored.sets := stored.sets + added;
      assert Entries(activities) == es[k := Entry(stored.name, old(stored.sets) + added)];
    }

    /** The stored activity at `k` is taken out. */
    method RemoveAt(k: nat)
      requires k < |activities|
      modifies this
      ensures activities == old(activities)[..k] + old(activities)[k + 1..]
      ensures View() == old(View()).(activities := old(View()).activities[..k] + old(View()).activities[k + 1..])
    {
      ghost var es := Entries(activities);
      RemovedEntries(activities, k);
      activities := activities[..k] + activities[k + 1..];
      assert Entries(activities) == es[..k] + es[k + 1..];
    }

    /** `delete_activity(name)`: true exactly when the name was present. */
    method DeleteActivity(name: string) returns (present: bool)
      requires Valid()
      modifies this
      ensures Valid()
      ensures present <==> name in old(ActivityNames(activities))
      ensures View() == DeleteActivityV(old(View()), name)
    {
      var k := Position(ActivityNames(activities), name);
      if k.Some? {
        RemoveAt(k.value);
        DeleteActivityExact(old(View()), name);
        return true;
      }
      return false;
    }

    /** `get_activity(name)`: the stored object, or None when the name is
        absent (an Activity object is always truthy). */
    function GetActivity(name: string): (r: Option<Activity>)
      reads this
      ensures r.Some? <==> name in ActivityNames(activities)
      ensures r.Some? ==> r.value in activities && r.value.name == name
    {
      match Position(ActivityNames(activities), name)
      case None => None
      case Some(k) => Some(activities[k])
    }

    /** `add_pain(p)`. */
    method AddPain(p: Pain)
      requires Valid()
      modifies this
      ensures Valid()
      ensures View() == AddPainV(old(View()), p)
      ensures activities == old(activities)
    {
      var k := Position(PainNames(pains), p.name);
      if k.Some? {
        pains := pains[k.value := p];
        assert PainNames(pains) == PainNames(old(pains));
      } else {
        pains := pains + [p];
      }
    }

    /** `delete_pain(name)`. */
    method DeletePain(name: string)
      requires Valid()
      modifies this
      ensures Valid()
      ensures View() == DeletePainV(old(View()), name)
      ensures activities == old(activities)
    {
      var k := Position(PainNames(pains), name);
      if k.Some? {
        pains := pains[..k.value] + pains[k.value + 1..];
        assert PainNames(pains) == PainNames(old(pains))[..k.value] + PainNames(old(pains))[k.value + 1..];
      }
    }

    method SetActivityNotes(notes: Json)
      modifies this
      ensures View() == old(View()).(activityNotes := notes)
      ensures activities == old(activities) && pains == old(pains)
    {
      activityNotes := notes;
    }

    method SetPainNotes(notes: Json)
      modifies this
      ensures View() == old(View()).(painNotes := notes)
      ensures activities == old(activities) && pains == old(pains)
    {
      painNotes := notes;
    }

    /** `daily_log.to_dict()`. */
    function ToDict(): Json
      reads this, activities
    {
      ToDictV(View())
    }

    /** `DailyLog.from_dict(date, d)`: a fresh log filled from the dict. */
    static method FromDict(date: string, d: Json) returns (r: Result<DailyLog>)
      ensures r.Ok? <==> FromDictV(date, d).Ok?
      ensures r.Ok? ==> fresh(r.value) && r.value.Valid() && r.value.View() == FromDictV(date, d).value
      ensures r.Ok? ==> forall i :: 0 <= i < |r.value.activities| ==> fresh(r.value.activities[i])
      ensures r.Err? ==> r.error == FromDictV(date, d).error
    {
      var log := new DailyLog(date, [], [], JNull, JNull);
      var an := GetOr(d, "activity_notes", JNull);
      if an.Err? {
        return Err(an.error);
      }
      if Truthy(an.value) {
        log.SetActivityNotes(an.value);
      }
      // `d` is a dict from here on, so its other lookups cannot raise
      var pn := GetOr(d, "pain_notes", JNull).value;
      if Truthy(pn) {
        log.SetPainNotes(pn);
      }
      assert log.View() == LogView(date, [], [], KeptNote(an.value), KeptNote(pn));
      var done := log.Fill(d);
      if done.Err? {
        return Err(done.error);
      }
      return Ok(log);
    }

    /** The two loops of `from_dict`, on a log holding no activity yet. */
    method Fill(d: Json) returns (r: Result<()>)
      requires Valid() && activities == []
      modifies this
      ensures Valid()
      ensures r.Ok? <==> FillV(old(View()), d).Ok?
      ensures r.Ok? ==> View() == FillV(old(View()), d).value
      ensures r.Err? ==> r.error == FillV(old(View()), d).error
      ensures forall i :: 0 <= i < |activities| ==> fresh(activities[i])
    {
      var acts := GetOr(d, "activities", JNull);
      if acts.Err? {
        return Err(acts.error);
      }
      var done := AddAllFrom(acts.value, true);
      if done.Err? {
        return Err(done.error);
      }
      // `d` is a dict from here on, so this lookup cannot raise
      var ps := GetOr(d, "pains", JNull).value;
      done := AddAllFrom(ps, false);
      if done.Err? {
        return Err(done.error);
      }
      return Ok(());
    }

    /** The `if d.get(key): for name, x in d[key].items(): ...` loops of
        `from_dict`, for either dict: each item is one step. */
    method AddAllFrom(coll: Json, ofActivities: bool) returns (r: Result<()>)
      requires Valid()
      modifies this, activities
      ensures Valid()
      ensures r.Ok? <==> AddAll(old(View()), coll, ofActivities).Ok?
      ensures r.Ok? ==> View() == AddAll(old(View()), coll, ofActivities).value
      ensures r.Err? ==> r.error == AddAll(old(View()), coll, ofActivities).error
      ensures forall i :: 0 <= i < |activities| ==> activities[i] in old(activities) || fresh(activities[i])
    {
      if !Truthy(coll) {
        return Ok(());
      }
      var items := Items(coll);
      if items.Err? {
        return Err(items.error);
      }
      r := AddItems(items.value, ofActivities);
    }

    /** The loop over the items of one stored dict. */
    method AddItems(ms: seq<Member>, ofActivities: bool) returns (r: Result<()>)
      requires Valid()
      modifies this, activities
      ensures Valid()
      ensures r.Ok? <==> Steps(old(View()), ms, ofActivities).Ok?
      ensures r.Ok? ==> View() == Steps(old(View()), ms, ofActivities).value
      ensures r.Err? ==> r.error == Steps(old(View()), ms, ofActivities).error
      ensures forall i :: 0 <= i < |activities| ==> activities[i] in old(activities) || fresh(activities[i])
    {
      ghost var v0 := View();
      var i := 0;
      while i < |ms|
        invariant 0 <= i <= |ms|
        invariant Valid()
        invariant forall j :: 0 <= j < |activities| ==> activities[j] in old(activities) || fresh(activities[j])
        invariant Steps(v0, ms[..i], ofActivities) == Ok(View())
      {
        var e := StepAt(v0, ms, i, ofActivities);
        if e.Err? {
          return e;
        }
        i := i + 1;
      }
      TakeAll(ms);
      return Ok(());
    }

    /** The body of that loop: item `i` taken after the ones before it. */
    method StepAt(ghost v0: LogView, ms: seq<Member>, i: nat, ofActivities: bool) returns (r: Result<()>)
      requires Valid() && i < |ms| && Steps(v0, ms[..i], ofActivities) == Ok(View())
      modifies this, activities
      ensures Valid()
      ensures r.Ok? ==> Steps(v0, ms[..i + 1], ofActivities) == Ok(View())
      ensures r.Err? ==> Steps(v0, ms, ofActivities) == Err(r.error)
      ensures forall j :: 0 <= j < |activities| ==> activities[j] in old(activities) || fresh(activities[j])
    {
      ghost var before := View();
      r := Step(ms[i], ofActivities);
      StepsSnoc(v0, ms, ofActivities, i + 1, before);
      if r.Err? {
        StepsStopsAtError(v0, ms, ofActivities, i + 1);
      }
    }

    /** One item of a stored dict: an activity read back from its dict and
        added without overwriting, or a pain built from the name and value. */
    method Step(m: Member, ofActivities: bool) returns (r: Result<()>)
      requires Valid()
      modifies this, activities
      ensures Valid()
      ensures r.Ok? <==> ItemStep(old(View()), m, ofActivities).Ok?
      ensures r.Ok? ==> View() == ItemStep(old(View()), m, ofActivities).value
      ensures r.Err? ==> r.error == ItemStep(old(View()), m, ofActivities).error
      ensures forall i :: 0 <= i < |activities| ==> activities[i] in old(activities) || fresh(activities[i])
    {
      if ofActivities {
        var ad := SetItem(m.val, "name", JStr(m.key));
        if ad.Err? {
          return Err(ad.error);
        }
        var a := Activity.FromDict(ad.value);
        if a.Err? {
          return Err(a.error);
        }
        AddActivity(a.value, false);
      } else {
        var p := NewPain(m.key, m.val);
        if p.Err? {
          return Err(p.error);
        }
        AddPain(p.value);
      }
      return Ok(());
    }

    /** `str(daily_log)`: the lines are collected one by one and joined. */
    method Render() returns (r: Result<string>)
      ensures r == RenderV(View())
    {
      var dt := Strptime(date);
      if dt.Err? {
        return Err(dt.error);
      }
      var output := Lines(FormatDate(dt.value));
      if output.Err? {
        return Err(output.error);
      }
      return Ok(Join(output.value, "\n"));
    }

    /** The lines `str` joins; a note that is not a string makes the join
        raise TypeError. */
    method Lines(formatted: string) returns (r: Result<seq<string>>)
      ensures r == LinesV(View(), formatted)
    {
      var output, activityJoinable := ActivityPart(formatted);
      var painJoinable;
      output, painJoinable := PainPart(output);
      if !activityJoinable || !painJoinable {
        return Err(TypeError);
      }
      return Ok(output);
    }

    /** The header, the activity count, one line per activity and the
        activity notes; `joinable` is false when the notes are not a string. */
    method ActivityPart(formatted: string) returns (output: seq<string>, joinable: bool)
      ensures joinable <==> NoteLines(activityNotes).Ok?
      ensures joinable ==> output == ActivitySection(View(), formatted, NoteLines(activityNotes).value)
    {
      output := [formatted + " Log:", ""];
      output := output + [IntToString(|activities|) + "x activities:"];
      output := AppendActivityLines(output);
      var an := NoteLines(activityNotes);
      joinable := an.Ok?;
      if joinable {
        output := output + an.value;
        ActivitySectionSteps(View(), formatted, an.value);
      }
    }

    /** A blank line, the pain count, one line per pain and the pain notes,
        after `output`. */
    method PainPart(output: seq<string>) returns (out: seq<string>, joinable: bool)
      ensures joinable <==> NoteLines(painNotes).Ok?
      ensures joinable ==> out == output + PainSection(View(), NoteLines(painNotes).value)
    {
      var head := ["", IntToString(|pains|) + "x pain records:"];
      out := output + head;
      out := AppendPainLines(out);
      Assoc(output, head, PainLines(pains));
      var pn := NoteLines(painNotes);
      joinable := pn.Ok?;
      if joinable {
        Assoc(output, head + PainLines(pains), pn.value);
        out := out + pn.value;
      }
    }

    /** The `* <activity>` lines, in the order of the names. */
    method AppendActivityLines(output: seq<string>) returns (out: seq<string>)
      ensures out == output + ActivityLines(View().activities)
    {
      ghost var lines := ActivityLines(View().activities);
      out := output;
      var i := 0;
      while i < |activities|
        invariant 0 <= i <= |activities|
        invariant out == output + lines[..i]
      {
        assert lines[i] == "* " + activities[i].Render();
        TakeOneMore(lines, i + 1);
        out := out + ["* " + activities[i].Render()];
        i := i + 1;
      }
      TakeAll(lines);
    }

    /** The `* <pain>` lines, in the order of the names. */
    method AppendPainLines(output: seq<string>) returns (out: seq<string>)
      ensures out == output + PainLines(pains)
    {
      out := output;
      var k := 0;
      while k < |pains|
        invariant 0 <= k <= |pains|
        invariant out == output + PainLines(pains)[..k]
      {
        TakeOneMore(PainLines(pains), k + 1);
        out := out + ["* " + RenderPain(pains[k])];
        k := k + 1;
      }
      TakeAll(PainLines(pains));
    }
  }

  // ---------------------------------------------------------------- lemmas

  /** With no object listed twice, the objects stored from the first `i`
      are none of the rest. */
  lemma NotYetStored(acts: seq<Activity>, stored: seq<Activity>, i: nat)
    requires DistinctObjects(acts) && i <= |acts|
    requires forall j :: 0 <= j < |stored| ==> stored[j] in acts[..i]
    ensures forall j :: i <= j < |acts| ==> acts[j] !in stored
  {
    forall j, m | i <= j < |acts| && 0 <= m < |stored|
      ensures stored[m] != acts[j]
    {
      assert stored[m] in acts[..i];
      var q :| 0 <= q < i && acts[..i][q] == stored[m];
      assert acts[q] != acts[j];
    }
  }

  lemma {:induction false} StepsStopsAtError(v: LogView, ms: seq<Member>, ofActivities: bool, k: nat)
    requires k <= |ms| && Steps(v, ms[..k], ofActivities).Err?
    ensures Steps(v, ms, ofActivities) == Steps(v, ms[..k], ofActivities)
    decreases |ms|
  {
    if k < |ms| {
      assert ms[..|ms| - 1][..k] == ms[..k];
      StepsStopsAtError(v, ms[..|ms| - 1], ofActivities, k);
    } else {
      assert ms[..k] == ms;
    }
  }

  // ------------------------------------------------ merging and deleting

  /** A name new to the log is stored after all the others, which stay as
      they were. */
  lemma AddActivityNew(v: LogView, name: string, sets: seq<Set>, overwrite: bool)
    requires ValidView(v) && name !in EntryNames(v.activities)
    ensures AddActivityV(v, name, sets, overwrite) == v.(activities := v.activities + [Entry(name, sets)])
    ensures ValidView(AddActivityV(v, name, sets, overwrite))
  {
    var r := AddActivityV(v, name, sets, overwrite);
    assert EntryNames(r.activities) == EntryNames(v.activities) + [name];
  }

  /** A name already in the log keeps its place and the count stays the
      same: without overwriting its sets become the old ones followed by the
      new ones, with overwriting the new ones alone. */
  lemma AddActivityExisting(v: LogView, name: string, sets: seq<Set>, overwrite: bool, k: nat)
    requires ValidView(v) && k < |v.activities| && v.activities[k].name == name
    ensures var r := AddActivityV(v, name, sets, overwrite);
      && |r.activities| == |v.activities|
      && EntryNames(r.activities) == EntryNames(v.activities)
      && r.activities[k] == Entry(name, if overwrite then sets else v.activities[k].sets + sets)
      && (forall j :: 0 <= j < |v.activities| && j != k ==> r.activities[j] == v.activities[j])
      && r.pains == v.pains && r.date == v.date
      && r.activityNotes == v.activityNotes && r.painNotes == v.painNotes
      && ValidView(r)
  {
    var names := EntryNames(v.activities);
    var pos := Position(names, name);
    assert pos.Some? && names[pos.value] == name && names[k] == name;
    assert pos.value == k;
    var r := AddActivityV(v, name, sets, overwrite);
    assert EntryNames(r.activities) == names;
  }

  /** Adding an activity keeps one entry per name and only valid sets, and
      touches nothing but the activities. */
  lemma AddActivityKeepsValid(v: LogView, name: string, sets: seq<Set>, overwrite: bool)
    requires ValidView(v) && AllSetsValid(v.activities)
    requires forall j :: 0 <= j < |sets| ==> ValidSet(sets[j])
    ensures var r := AddActivityV(v, name, sets, overwrite);
      ValidView(r) && AllSetsValid(r.activities) && r.pains == v.pains && r.date == v.date
      && r.activityNotes == v.activityNotes && r.painNotes == v.painNotes
  {
    match Position(EntryNames(v.activities), name)
    case None =>
      AddActivityNew(v, name, sets, overwrite);
    case Some(k) =>
      AddActivityExisting(v, name, sets, overwrite, k);
  }

  /** Adding the same sets twice under a new name stores them twice over:
      re-adding an activity object already in the log doubles its sets. */
  lemma ReAddDoubles(v: LogView, name: string, sets: seq<Set>)
    requires ValidView(v) && name !in EntryNames(v.activities)
    ensures AddActivityV(AddActivityV(v, name, sets, false), name, sets, false)
      == v.(activities := v.activities + [Entry(name, sets + sets)])
  {
    AddActivityNew(v, name, sets, false);
    var v1 := AddActivityV(v, name, sets, false);
    var k := |v.activities|;
    assert v1.activities[k].name == name;
    AddActivityExisting(v1, name, sets, false, k);
    var r := AddActivityV(v1, name, sets, false);
    assert r.activities == v.activities + [Entry(name, sets + sets)];
  }

  /** The constructor merges activities listed under one name into a single
      entry holding all their sets. */
  lemma InitMergesDuplicates(date: string, name: string, s1: seq<Set>, s2: seq<Set>, an: Json, pn: Json)
    ensures InitV(date, [Entry(name, s1), Entry(name, s2)], [], an, pn)
      == LogView(date, [Entry(name, s1 + s2)], [], an, pn)
  {
    var es := [Entry(name, s1), Entry(name, s2)];
    var v0 := LogView(date, [], [], an, pn);
    assert es[..1] == [Entry(name, s1)] && es[..1][..0] == [];
    assert AddActivitiesV(v0, es[..1][..0]) == v0;
    assert EntryNames(v0.activities) == [];
    var v1 := AddActivitiesV(v0, es[..1]);
    assert v1 == AddActivityV(v0, name, s1, false);
    assert v1 == v0.(activities := [Entry(name, s1)]);
    assert EntryNames(v1.activities) == [name];
    assert AddActivitiesV(v0, es) == AddActivityV(v1, name, s2, false);
  }

  /** Pains: a new name goes last, a known one is replaced in place, and the
      log keeps one pain per name. */
  lemma AddPainPlacement(v: LogView, p: Pain)
    requires ValidView(v)
    ensures var r := AddPainV(v, p);
      && r.activities == v.activities && r.date == v.date
      && r.activityNotes == v.activityNotes && r.painNotes == v.painNotes
      && (p.name !in PainNames(v.pains) ==> r.pains == v.pains + [p])
      && (forall k :: 0 <= k < |v.pains| && v.pains[k].name == p.name ==> r.pains == v.pains[k := p])
      && ValidView(r)
  {
    var names := PainNames(v.pains);
    var r := AddPainV(v, p);
    var pos := Position(names, p.name);
    if pos.Some? {
      forall k | 0 <= k < |v.pains| && v.pains[k].name == p.name
        ensures k == pos.value
      {
        assert names[k] == names[pos.value];
      }
      assert PainNames(r.pains) == names;
    } else {
      assert PainNames(r.pains) == names + [p.name];
    }
  }

  /** The last pain given under a name wins, and a repeated name raises
      nothing. */
  lemma AddPainLastWins(v: LogView, p: Pain, q: Pain)
    requires ValidView(v) && p.name == q.name
    ensures AddPainV(AddPainV(v, p), q) == AddPainV(v, q)
  {
    AddPainPlacement(v, p);
    var v1 := AddPainV(v, p);
    AddPainPlacement(v1, q);
    AddPainPlacement(v, q);
    if p.name in PainNames(v.pains) {
      var k :| 0 <= k < |v.pains| && PainNames(v.pains)[k] == p.name;
      assert v1.pains[k].name == q.name;
    } else {
      var k := |v.pains|;
      assert v1.pains[k].name == q.name;
    }
  }

  /** Deleting removes exactly the entry of that name, keeping the order of
      the others; an absent name leaves the log as it was. */
  lemma DeleteActivityExact(v: LogView, name: string)
    requires ValidView(v)
    ensures var r := DeleteActivityV(v, name);
      && name !in EntryNames(r.activities)
      && (name !in EntryNames(v.activities) ==> r == v)
      && (forall k :: 0 <= k < |v.activities| && v.activities[k].name == name
            ==> r == v.(activities := v.activities[..k] + v.activities[k + 1..]))
      && ValidView(r)
  {
    var names := EntryNames(v.activities);
    var r := DeleteActivityV(v, name);
    var pos := Position(names, name);
    if pos.Some? {
      var k := pos.value;
      forall j | 0 <= j < |v.activities| && v.activities[j].name == name
        ensures j == k
      {
        assert names[j] == names[k];
      }
      assert EntryNames(r.activities) == names[..k] + names[k + 1..];
    }
  }

  /** Deleting a name just added gives back the log as it was. */
  lemma DeleteUndoesAdd(v: LogView, name: string, sets: seq<Set>, overwrite: bool)
    requires ValidView(v) && name !in EntryNames(v.activities)
    ensures DeleteActivityV(AddActivityV(v, name, sets, overwrite), name) == v
  {
    AddActivityNew(v, name, sets, overwrite);
    var v1 := AddActivityV(v, name, sets, overwrite);
    var k := |v.activities|;
    DeleteActivityExact(v1, name);
    assert v1.activities[k].name == name;
    assert v1.activities[..k] + v1.activities[k + 1..] == v.activities;
  }

  /** The same for pains. */
  lemma DeletePainExact(v: LogView, name: string)
    requires ValidView(v)
    ensures var r := DeletePainV(v, name);
      && name !in PainNames(r.pains)
      && (name !in PainNames(v.pains) ==> r == v)
      && (forall k :: 0 <= k < |v.pains| && v.pains[k].name == name
            ==> r == v.(pains := v.pains[..k] + v.pains[k + 1..]))
      && ValidView(r)
  {
    var names := PainNames(v.pains);
    var r := DeletePainV(v, name);
    var pos := Position(names, name);
    if pos.Some? {
      var k := pos.value;
      forall j | 0 <= j < |v.pains| && v.pains[j].name == name
        ensures j == k
      {
        assert names[j] == names[k];
      }
      assert PainNames(r.pains) == names[..k] + names[k + 1..];
    }
  }

  lemma DeletePainUndoesAdd(v: LogView, p: Pain)
    requires ValidView(v) && p.name !in PainNames(v.pains)
    ensures DeletePainV(AddPainV(v, p), p.name) == v
  {
    AddPainPlacement(v, p);
    var v1 := AddPainV(v, p);
    var k := |v.pains|;
    DeletePainExact(v1, p.name);
    assert v1.pains[k].name == p.name;
    assert v1.pains[..k] + v1.pains[k + 1..] == v.pains;
  }

  // ------------------------------------------------------ to_dict / from_dict

  /** `to_dict` stores the date, one entry per activity under its name
      without a "name" key of its own, one entry per pain under its name
      holding name and level, and the two notes. */
  lemma {:induction false} ToDictShape(v: LogView)
    ensures ToDictV(v).JObj?
    ensures Keys(ToDictV(v).members) == ["date", "activities", "pains", "pain_notes", "activity_notes"]
    ensures Keys(ActivityMembers(v.activities)) == EntryNames(v.activities)
    ensures Keys(PainMembers(v.pains)) == PainNames(v.pains)
    ensures forall i :: 0 <= i < |v.activities| ==>
      Subscript(ActivityMembers(v.activities)[i].val, "name") == Err(KeyError)
    ensures forall i :: 0 <= i < |v.pains| ==>
      Keys(PainMembers(v.pains)[i].val.members) == ["name", "level"]
  {
    forall i | 0 <= i < |v.activities|
      ensures Subscript(ActivityMembers(v.activities)[i].val, "name") == Err(KeyError)
    {
      ActivityDictKeys(v.activities[i].name, v.activities[i].sets, false);
    }
  }

  /** The entries as `from_dict` rebuilds them: each set loses the falsy
      fields its own round trip drops. */
  function DroppedEntries(es: seq<Entry>): (r: seq<Entry>)
    ensures |r| == |es|
    ensures forall i :: 0 <= i < |es| ==> r[i] == Entry(es[i].name, DropFalsyAll(es[i].sets))
  {
    seq(|es|, i requires 0 <= i < |es| => Entry(es[i].name, DropFalsyAll(es[i].sets)))
  }

  predicate AllSetsValid(es: seq<Entry>)
  {
    forall i, j :: 0 <= i < |es| && 0 <= j < |es[i].sets| ==> ValidSet(es[i].sets[j])
  }

  /** One stored activity item: writing its key back in as "name" gives the
      activity's full dict, which reads back as the activity. */
  lemma {:induction false} ActivityItemRestores(v: LogView, e: Entry)
    requires forall j :: 0 <= j < |e.sets| ==> ValidSet(e.sets[j])
    ensures AddActivityFrom(v, Member(e.name, ActivityDict(e.name, e.sets, false)))
      == Ok(AddActivityV(v, e.name, DropFalsyAll(e.sets), false))
  {
    ActivityDictNamed(e.name, e.sets);
    ActivityRoundTrip(e.name, e.sets);
  }

  /** Putting the name back into a stored activity dict gives the full dict. */
  lemma ActivityDictNamed(name: string, sets: seq<Set>)
    ensures SetItem(ActivityDict(name, sets, false), "name", JStr(name)) == Ok(ActivityDict(name, sets, true))
  {
    var ms := [Member("sets", JList(SetsToDicts(sets)))];
    assert ActivityDict(name, sets, false) == JObj(ms);
    assert Keys(ms) == ["sets"];
    assert Assign(ms, "name", JStr(name)) == ms + [Member("name", JStr(name))];
  }

  /** One more item folded in after the first `i - 1` succeeded. */
  lemma {:induction false} StepsSnoc(v: LogView, ms: seq<Member>, ofActivities: bool, i: nat, prev: LogView)
    requires 0 < i <= |ms| && Steps(v, ms[..i - 1], ofActivities) == Ok(prev)
    ensures Steps(v, ms[..i], ofActivities) == ItemStep(prev, ms[i - 1], ofActivities)
  {
    assert ms[..i][..i - 1] == ms[..i - 1];
  }

  /** Folding the first `i` stored activity items into a log without
      activities rebuilds the first `i` entries. */
  lemma {:induction false} StepsRestoreActivities(v: LogView, es: seq<Entry>, i: nat)
    requires ValidView(v) && v.activities == [] && i <= |es|
    requires Distinct(EntryNames(es)) && AllSetsValid(es)
    ensures Steps(v, ActivityMembers(es)[..i], true) == Ok(v.(activities := DroppedEntries(es)[..i]))
  {
    var ms := ActivityMembers(es);
    if i == 0 {
      assert DroppedEntries(es)[..0] == [];
    } else {
      StepsRestoreActivities(v, es, i - 1);
      var prev := v.(activities := DroppedEntries(es)[..i - 1]);
      StepsSnoc(v, ms, true, i, prev);
      var e := es[i - 1];
      assert ms[i - 1] == Member(e.name, ActivityDict(e.name, e.sets, false));
      ActivityItemRestores(prev, e);
      var names := EntryNames(prev.activities);
      assert Distinct(names) && e.name !in names by {
        forall a, b | 0 <= a < b < |names|
          ensures names[a] != names[b]
        {
          assert EntryNames(es)[a] != EntryNames(es)[b];
        }
        forall a | 0 <= a < |names|
          ensures names[a] != e.name
        {
          assert EntryNames(es)[a] != EntryNames(es)[i - 1];
        }
      }
      AddActivityNew(prev, e.name, DropFalsyAll(e.sets), false);
      var dropped := DroppedEntries(es);
      assert dropped[i - 1] == Entry(e.name, DropFalsyAll(e.sets));
      TakeOneMore(dropped, i);
    }
  }

  /** What `from_dict` reads out of a `to_dict` result. */
  lemma {:induction false} ToDictFields(v: LogView)
    ensures GetOr(ToDictV(v), "activity_notes", JNull) == Ok(v.activityNotes)
    ensures GetOr(ToDictV(v), "pain_notes", JNull) == Ok(v.painNotes)
    ensures GetOr(ToDictV(v), "activities", JNull) == Ok(JObj(ActivityMembers(v.activities)))
    ensures GetOr(ToDictV(v), "pains", JNull) == Ok(JObj(PainMembers(v.pains)))
  {
    var ms := ToDictV(v).members;
    assert DistinctKeys(ms);
    FindDistinct(ms, 1);
    FindDistinct(ms, 2);
    FindDistinct(ms, 3);
    FindDistinct(ms, 4);
  }

  /** The stored activities of a valid log fold back into a log without
      activities as the dropped entries. */
  lemma {:induction false} AddAllActivities(v0: LogView, es: seq<Entry>)
    requires ValidView(v0) && v0.activities == []
    requires Distinct(EntryNames(es)) && AllSetsValid(es)
    ensures AddAll(v0, JObj(ActivityMembers(es)), true) == Ok(v0.(activities := DroppedEntries(es)))
  {
    var ms := ActivityMembers(es);
    var dropped := DroppedEntries(es);
    StepsRestoreActivities(v0, es, |es|);
    TakeAll(ms);
    TakeAll(dropped);
    if es == [] {
      assert ms == [] && dropped == [];
      assert v0.(activities := dropped) == v0;
    } else {
      assert Truthy(JObj(ms));
    }
  }

  /** A log without pains survives `to_dict` followed by `from_dict`: the
      same activities in the same order (sets up to their dropped falsy
      fields), and the truthy notes. */
  lemma {:induction false} FromDictRoundTrip(date: string, v: LogView)
    requires ValidView(v) && v.pains == [] && AllSetsValid(v.activities)
    ensures FromDictV(date, ToDictV(v))
      == Ok(LogView(date, DroppedEntries(v.activities), [], KeptNote(v.activityNotes), KeptNote(v.painNotes)))
  {
    var d := ToDictV(v);
    ToDictFields(v);
    var v0 := LogView(date, [], [], KeptNote(v.activityNotes), KeptNote(v.painNotes));
    assert FromDictV(date, d) == FillV(v0, d);
    AddAllActivities(v0, v.activities);
    var v1 := v0.(activities := DroppedEntries(v.activities));
    assert PainMembers(v.pains) == [];
    assert FillV(v0, d) == AddAll(v1, JObj([]), false);
  }

  /** The log `from_dict` reads back renders exactly as the log that was
      stored: the dropped falsy set fields and falsy notes print nothing. */
  lemma RenderReadBack(v: LogView)
    requires v.pains == []
    ensures RenderV(LogView(v.date, DroppedEntries(v.activities), [], KeptNote(v.activityNotes), KeptNote(v.painNotes)))
      == RenderV(v)
  {
    var w := LogView(v.date, DroppedEntries(v.activities), [], KeptNote(v.activityNotes), KeptNote(v.painNotes));
    forall i | 0 <= i < |v.activities|
      ensures ActivityLines(w.activities)[i] == ActivityLines(v.activities)[i]
    {
      RenderSetsDropFalsy(v.activities[i].sets);
    }
    assert ActivityLines(w.activities) == ActivityLines(v.activities);
    assert NoteLines(w.activityNotes) == NoteLines(v.activityNotes);
    assert NoteLines(w.painNotes) == NoteLines(v.painNotes);
    forall formatted: string
      ensures LinesV(w, formatted) == LinesV(v, formatted)
    {
      if LinesV(v, formatted).Ok? {
        var an := NoteLines(v.activityNotes).value;
        var pn := NoteLines(v.painNotes).value;
        assert ActivitySection(w, formatted, an) == ActivitySection(v, formatted, an);
        assert PainSection(w, pn) == PainSection(v, pn);
      }
    }
  }

  /** A log holding a pain cannot be read back: `from_dict` hands the pain's
      whole dict to `Pain` as the level, which rejects it. */
  lemma {:induction false} FromDictRejectsPains(date: string, v: LogView)
    requires ValidView(v) && |v.pains| > 0 && AllSetsValid(v.activities)
    ensures FromDictV(date, ToDictV(v)) == Err(LevelError(PainDict(v.pains[0])))
  {
    FromDictReachesPains(date, v);
    var v0 := LogView(date, [], [], KeptNote(v.activityNotes), KeptNote(v.painNotes));
    FirstPainRejected(v0.(activities := DroppedEntries(v.activities)), v.pains);
  }

  /** Reading back a stored log gets through the activities and hands the
      pain dicts to the pain loop. */
  lemma {:induction false} FromDictReachesPains(date: string, v: LogView)
    requires ValidView(v) && AllSetsValid(v.activities)
    ensures FromDictV(date, ToDictV(v))
      == AddAll(LogView(date, DroppedEntries(v.activities), [], KeptNote(v.activityNotes), KeptNote(v.painNotes)),
                JObj(PainMembers(v.pains)), false)
  {
    var d := ToDictV(v);
    ToDictFields(v);
    var v0 := LogView(date, [], [], KeptNote(v.activityNotes), KeptNote(v.painNotes));
    assert FromDictV(date, d) == FillV(v0, d);
    AddAllActivities(v0, v.activities);
  }

  /** The first stored pain, whose value is a dict, stops the pain loop. */
  lemma FirstPainRejected(v1: LogView, pains: seq<Pain>)
    requires |pains| > 0
    ensures AddAll(v1, JObj(PainMembers(pains)), false) == Err(LevelError(PainDict(pains[0])))
  {
    var pms := PainMembers(pains);
    PainDictAsLevelRejected(pains[0].name, pains[0]);
    assert pms[..1][..0] == [];
    assert Steps(v1, pms[..1], false) == Err(LevelError(PainDict(pains[0])));
    StepsStopsAtError(v1, pms, false, 1);
  }

  // ------------------------------------------------------------ rendering

  /** The lines of a log with nothing in it. */
  lemma {:induction false} EmptyLogLines(date: string, formatted: string)
    ensures LinesV(EmptyView(date), formatted)
      == Ok([formatted + " Log:", "", "0x activities:", "", "0x pain records:"])
  {
    var v := EmptyView(date);
    assert IntToString(0) == "0";
    assert "0" + "x activities:" == "0x activities:";
    assert "0" + "x pain records:" == "0x pain records:";
    assert ActivityLines([]) == [] && PainLines([]) == [];
    assert ActivitySection(v, formatted, []) == [formatted + " Log:", "", "0x activities:"];
    assert PainSection(v, []) == ["", "0x pain records:"];
    assert NoteLines(JNull) == Ok([]);
    assert ReportLines(v, formatted, [], []) == [formatted + " Log:", "", "0x activities:", "", "0x pain records:"];
  }

  /** An empty log for 3 November 2023 renders as its header and two zero
      counts. */
  lemma {:induction false} RenderEmptyLog()
    ensures RenderV(EmptyView("2023-11-03"))
      == Ok(Join(["Nov. 3, 2023 Log:", "", "0x activities:", "", "0x pain records:"], "\n"))
  {
    SampleDateParses();
    FormatSample();
    EmptyLogRendered("2023-11-03", Date(2023, 11, 3));
    assert "Nov. 3, 2023" + " Log:" == "Nov. 3, 2023 Log:";
  }

  lemma SampleDateParses()
    ensures Strptime("2023-11-03") == Ok(Date(2023, 11, 3))
  {
    assert IsoDate(Date(2023, 11, 3)) == "2023-11-03";
    IsoDateRoundTrip(Date(2023, 11, 3));
  }

  /** An empty log whose date parses renders its header and two empty
      sections. */
  lemma EmptyLogRendered(date: string, dt: Date)
    requires Strptime(date) == Ok(dt)
    ensures RenderV(EmptyView(date))
      == Ok(Join([FormatDate(dt) + " Log:", "", "0x activities:", "", "0x pain records:"], "\n"))
  {
    EmptyLogLines(date, FormatDate(dt));
  }

  /** `a + sep + b` joins the concatenation of two non-empty lists. */
  lemma {:induction false} JoinConcat(a: seq<string>, b: seq<string>, sep: string)
    requires |a| > 0 && |b| > 0
    ensures Join(a + b, sep) == Join(a, sep) + sep + Join(b, sep)
    decreases |a|
  {
    assert (a + b)[0] == a[0];
    assert (a + b)[1..] == a[1..] + b;
    if |a| > 1 {
      JoinConcat(a[1..], b, sep);
      assert Join(a + b, sep) == a[0] + sep + (Join(a[1..], sep) + sep + Join(b, sep));
    }
  }

  /** The join of some leading lines is a prefix of the join of all. */
  lemma {:induction false} JoinPrefix(head: seq<string>, rest: seq<string>, sep: string)
    requires |head| > 0
    ensures IsPrefix(Join(head, sep), Join(head + rest, sep))
  {
    var j := Join(head, sep);
    if rest == [] {
      assert head + rest == head;
      assert j[..|j|] == j;
    } else {
      JoinConcat(head, rest, sep);
      assert Join(head + rest, sep) == j + (sep + Join(rest, sep));
      assert (j + (sep + Join(rest, sep)))[..|j|] == j;
    }
  }

  /** Every line of a run of consecutive lines occurs in their join. */
  lemma {:induction false} JoinContainsRun(pre: seq<string>, run: seq<string>, post: seq<string>)
    ensures forall i :: 0 <= i < |run| ==> Contains(Join(pre + run + post, "\n"), run[i])
  {
    var lines := pre + run + post;
    forall i | 0 <= i < |run|
      ensures Contains(Join(lines, "\n"), run[i])
    {
      assert lines[|pre| + i] == run[i];
      JoinContains(lines, "\n", |pre| + i);
    }
  }

  /** A log whose date parses and whose notes are strings or falsy renders:
      the text opens with the lines of the formatted date, a blank line and
      the activity count, and holds the pain count and the line of every
      activity and every pain. */
  lemma {:induction false} RenderShape(v: LogView)
    requires Strptime(v.date).Ok?
    requires !Truthy(v.activityNotes) || v.activityNotes.JStr?
    requires !Truthy(v.painNotes) || v.painNotes.JStr?
    ensures RenderV(v).Ok?
    ensures IsPrefix(Join([FormatDate(Strptime(v.date).value) + " Log:", "",
                           IntToString(|v.activities|) + "x activities:"], "\n"), RenderV(v).value)
    ensures Contains(RenderV(v).value, IntToString(|v.pains|) + "x pain records:")
    ensures forall i :: 0 <= i < |v.activities| ==> Contains(RenderV(v).value, ActivityLines(v.activities)[i])
    ensures forall i :: 0 <= i < |v.pains| ==> Contains(RenderV(v).value, PainLines(v.pains)[i])
  {
    var formatted := FormatDate(Strptime(v.date).value);
    var an := NoteLines(v.activityNotes).value;
    var pn := NoteLines(v.painNotes).value;
    var lines := ReportLines(v, formatted, an, pn);
    assert RenderV(v) == Ok(Join(lines, "\n"));
    var head := [formatted + " Log:", "", IntToString(|v.activities|) + "x activities:"];
    var al := ActivityLines(v.activities);
    var pl := PainLines(v.pains);
    var counts := ["", IntToString(|v.pains|) + "x pain records:"];
    var first := ActivitySection(v, formatted, an);
    var second := PainSection(v, pn);
    assert lines == first + second;
    assert first == (head + al) + an;
    assert second == (counts + pl) + pn;
    Assoc(head + al, an, second);
    JoinContainsRun(head, al, an + second);
    Assoc(al, an, second);
    Assoc(head, al, an + second);
    JoinPrefix(head, al + (an + second), "\n");
    Assoc(first, counts + pl, pn);
    Assoc(first, counts, pl);
    JoinContainsRun(first + counts, pl, pn);
    Assoc(counts, pl, pn);
    Assoc(first, counts, pl + pn);
    JoinContainsRun(first, counts, pl + pn);
    assert counts[1] == IntToString(|v.pains|) + "x pain records:";
  }

  /** A date that does not parse raises strptime's ValueError; a truthy note
      that is not a string raises TypeError. */
  lemma RenderErrors(v: LogView)
    ensures Strptime(v.date).Err? ==> RenderV(v) == Err(Strptime(v.date).error)
    ensures Strptime(v.date).Ok? && Truthy(v.activityNotes) && !v.activityNotes.JStr?
      ==> RenderV(v) == Err(TypeError)
    ensures Strptime(v.date).Ok? && Truthy(v.painNotes) && !v.painNotes.JStr?
      ==> RenderV(v) == Err(TypeError)
  {
  }
}
