/** The closed table of chat commands the bot understands: each member holds
    its intent name, a description and example phrasings. */
module SupportedIntents {
  import opened Text

  datatype SupportedIntent =
    | LogActivity
    | LogPain
    | GetDailyLog
    | GetNumLogs
    | GetActivitySummary
    | DeleteDailyLog
    | GetCommandList

  /** The members in declaration order, which is the order iteration visits. */
  const Members: seq<SupportedIntent> :=
    [LogActivity, LogPain, GetDailyLog, GetNumLogs, GetActivitySummary, DeleteDailyLog, GetCommandList]

  /** The member's identifier, `member.name`. */
  function Name(i: SupportedIntent): string
  {
    match i
    case LogActivity => "LogActivity"
    case LogPain => "LogPain"
    case GetDailyLog => "GetDailyLog"
    case GetNumLogs => "GetNumLogs"
    case GetActivitySummary => "GetActivitySummary"
    case DeleteDailyLog => "DeleteDailyLog"
    case GetCommandList => "GetCommandList"
  }

  /** The member's value: (intent name, description, examples). */
  function Value(i: SupportedIntent): (string, string, string)
  {
    match i
    case LogActivity =>
      ("LogActivity", "Log an activity",
       "I did yoga today, I did 10 pullups, I held plank for 30 seconds")
    case LogPain =>
      ("LogPain", "Log a pain (on a scale of 1 to 3)",
       "Left hip 1, Right knee high, Left leg none today")
    case GetDailyLog =>
      ("GetDailyLog", "Get a daily log", "What did I do yesterday? Show me today")
    case GetNumLogs =>
      ("GetNumLogs", "See how many days you’ve logged", "How many days have I logged")
    case GetActivitySummary =>
      ("GetActivitySummary", "Get an activity's summary",
       "Show me my pushup stats, What’s my cycling history?")
    case DeleteDailyLog =>
      ("DeleteDailyLog", "Delete a daily log", "Reset today’s log, Delete last Saturday’s log")
    case GetCommandList =>
      ("GetCommandList", "Get a list of supported commands",
       "What can you do? What can I say? What features are there?")
  }

  /** `str(member)`: the first element of the value, which is the name. */
  function Str(i: SupportedIntent): (r: string)
    ensures r == Name(i)
  {
    Value(i).0
  }

  function Description(i: SupportedIntent): string { Value(i).1 }

  function Examples(i: SupportedIntent): string { Value(i).2 }

  /** `member == other` with a string on either side: the string must be the
      member's name (a string on the left falls back to the member's `__eq__`). */
  predicate EqStr(i: SupportedIntent, other: string)
  {
    other == Name(i)
  }

  /** `i == j` for two members: `j == i.name` is decided by `j.__eq__`, which
      compares the two names. */
  predicate Eq(i: SupportedIntent, j: SupportedIntent)
  {
    EqStr(j, Name(i))
  }

  /** The names of the given members, in order. */
  function Names(ms: seq<SupportedIntent>): (r: seq<string>)
    ensures |r| == |ms| && forall k :: 0 <= k < |ms| ==> r[k] == Name(ms[k])
  {
    if ms == [] then [] else [Name(ms[0])] + Names(ms[1..])
  }

  /** `SupportedIntents.all()`. */
  function All(): seq<string>
  {
    Names(Members)
  }

  /** The summary line of one member. */
  function Line(i: SupportedIntent): string
  {
    "- *" + Description(i) + "*: " + Examples(i)
  }

  function Lines(ms: seq<SupportedIntent>): (r: seq<string>)
    ensures |r| == |ms| && forall k :: 0 <= k < |ms| ==> r[k] == Line(ms[k])
  {
    if ms == [] then [] else [Line(ms[0])] + Lines(ms[1..])
  }

  const Header := "The following are supported commands:"

  /** `SupportedIntents.summarize()`. */
  function Summarize(): string
  {
    Join([Header, ""] + Lines(Members), "\n")
  }

  // ---------------------------------------------------------------- lemmas

  /** There are exactly seven members, every value of the type is one of
      them, and no two share a name. */
  lemma MembersExact()
    ensures |Members| == 7
    ensures forall i: SupportedIntent :: i in Members
    ensures forall a, b :: 0 <= a < b < |Members| ==> Name(Members[a]) != Name(Members[b])
  {
    forall i: SupportedIntent
      ensures i in Members
    {
      match i
      case LogActivity => assert Members[0] == i;
      case LogPain => assert Members[1] == i;
      case GetDailyLog => assert Members[2] == i;
      case GetNumLogs => assert Members[3] == i;
      case GetActivitySummary => assert Members[4] == i;
      case DeleteDailyLog => assert Members[5] == i;
      case GetCommandList => assert Members[6] == i;
    }
  }

  /** `all()` lists the seven names in declaration order. */
  lemma AllNames()
    ensures All() == ["LogActivity", "LogPain", "GetDailyLog", "GetNumLogs",
                      "GetActivitySummary", "DeleteDailyLog", "GetCommandList"]
  {
  }

  /** A member equals the string of its own name and no other string, and
      `str` gives that same name. */
  lemma EqStrIffName(i: SupportedIntent, s: string)
    ensures EqStr(i, s) <==> s == Str(i)
    ensures EqStr(i, Name(i))
  {
  }

  /** Two members are equal exactly when they are the same member. */
  lemma EqIffSame(i: SupportedIntent, j: SupportedIntent)
    ensures Eq(i, j) <==> i == j
  {
  }

  /** Where a member sits in declaration order. */
  function Position(i: SupportedIntent): (k: nat)
    ensures k < |Members| && Members[k] == i
  {
    match i
    case LogActivity => 0
    case LogPain => 1
    case GetDailyLog => 2
    case GetNumLogs => 3
    case GetActivitySummary => 4
    case DeleteDailyLog => 5
    case GetCommandList => 6
  }

  lemma JoinAfterBlank(h: string, ls: seq<string>)
    requires |ls| > 0
    ensures Join([h, ""] + ls, "\n") == h + "\n" + "\n" + Join(ls, "\n")
  {
    JoinTwoThenRest(h, "", ls, "\n");
    assert h + "\n" + "" == h + "\n";
  }

  /** `summarize()` is the header, a blank line and one line per member in
      declaration order. */
  lemma SummarizeHead()
    ensures Summarize() == Header + "\n" + "\n" + Join(Lines(Members), "\n")
  {
    JoinAfterBlank(Header, Lines(Members));
  }

  /** Every member's line is found in a summary of the members. */
  lemma LineInSummary(h: string, ms: seq<SupportedIntent>, k: nat)
    requires k < |ms|
    ensures Contains(Join([h, ""] + Lines(ms), "\n"), Line(ms[k]))
  {
    var parts := [h, ""] + Lines(ms);
    assert parts[k + 2] == Line(ms[k]);
    JoinContains(parts, "\n", k + 2);
  }

  /** The line of the member at position `k` is in `summarize()`. */
  lemma SummaryHasLine(k: nat)
    requires k < |Members|
    ensures Contains(Summarize(), Line(Members[k]))
  {
    LineInSummary(Header, Members, k);
  }

  /** Every member's line is in `summarize()`. */
  lemma SummarizeShape(i: SupportedIntent)
    ensures Contains(Summarize(), Line(i))
  {
    SummaryHasLine(Position(i));
  }

  /** The activity-logging line reads exactly as users see it. */
  lemma SummarizeLogActivityLine()
    ensures Contains(Summarize(),
      "- *" + "Log an activity" + "*: " + "I did yoga today, I did 10 pullups, I held plank for 30 seconds")
  {
    SummarizeShape(LogActivity);
  }
}
