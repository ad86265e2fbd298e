# HipLogBot core, modelled in Dafny

HipLogBot is a chat bot for logging workouts and pains. A Dialogflow request names an
intent (LogActivity, LogPain, GetDailyLog, GetNumLogs, GetActivitySummary,
DeleteDailyLog, GetCommandList) and carries its parameters. The bot turns these into a
per-user, per-date daily log held in a document store, and answers with a text reply.
This project models the translation from request to log and the merge engine of the daily
log, and proves properties of both.

- `wrappers.dfy` defines `Result`, `Option` and the Python exceptions the core raises
  (`Exc`). Only `ValueError` carries its message, because `run` inspects it.
- `json.dfy` models Python values (None, bool, int, float as an exact decimal, str, list,
  insertion-ordered dict) together with the built-ins the core uses: `d[k]`, `d.get`,
  `len`, `int()`, `str()`, truthiness and `==`.
- `text.dfy` and `seqs.dfy` hold string and sequence helpers: digits, `join`,
  `split(...)[0]`, `in` on strings and `str.title()` (ASCII letters only; see Left out).
- `dates.dfy` models `datetime.strptime(s, "%Y-%m-%d")` as CPython's pattern accepts it,
  and `strftime("%b. %-d, %Y")` in the C locale.
- `measurement.dfy` models `Measurement`: the unit allow-list, `__eq__`, `__str__`,
  `to_dict`, and `to_kilograms` as an in-place method on an object.
- `record.dfy` models `Record`, `Set`, `Activity` and `Pain`. A Set and a Pain are values.
  Activity and Record are classes, because their lists and attributes are updated in place.
- `daily_log.dfy` models `DailyLog` as a class that holds Activity objects. Its methods
  are proved against functions on a value view (`LogView`), and the merge, delete,
  serialisation and rendering properties are proved about those functions.
- `intent.dfy` models `Intent` as an imperative parser (`Parse`, `ExtractLogInput`,
  `ActivitySets`, `ZipLoop`). The parser is proved equal to a functional specification
  (`IntentOf`).
- `supported_intents.dfy` models the `SupportedIntents` enum table and `summarize()`.
- `executor.dfy` models `Executor` over an abstract store: a map from (user, date) to the
  stored `to_dict()` document, standing in for the `HipLogDB` Firestore service. It covers
  the decision flow and the exception handlers of `run`.

Some of the results concern the system as a whole:

- A logged activity reads back as the same reply (`LoggedActivityReadsBack`).
- A day that holds a pain can never be read again, because `from_dict` passes the stored
  pain dict as the level (`LoggedPainBreaksDay`, `FromDictRejectsPains`).
- Every action changes at most its own day's document, and an action that raises changes
  nothing (`StoreChangesOnlyAtDate`, `FailureKeepsStore`).
- The tailored error replies of `run` are unreachable as written (see Findings).

Where the code and its tests disagree, the model follows the code:

- `strptime` accepts "2023-1-1", which a test of `is_valid_date_format` expects to fail
  (`SingleDigitMonthAccepted`).
- The report says "pain records", where a test expects "symptom records".
- `.title()` capitalises names, where tests expect lower case.
- `extract_date("today")` returns "today" unchanged, where a test expects today's date.
- GetNumLogs ends in "FAILED": the service calls `get_num_logs_by_user`, which the database
  class does not define (only `_get_num_logs_by_user` exists). A test expects
  "There are N logs".
- GetCommandList is rejected by `Intent` before dispatch, so its branch is never taken
  (`CommandListUnreachable`). A test expects the command list.

## Model

| member | source | states |
|---|---|---|
| Measurements.New | hip-log-bot-cloud-function/src/models/measurement.py:28-36 | a non-string unit raises TypeError; a string outside the allow-list raises ValueError; otherwise the amount is kept unchecked and the unit stored |
| Measurements.FromKwargs | hip-log-bot-cloud-function/src/models/measurement.py:28-36 | `Measurement(**d)` succeeds only on a dict, and the result carries the dict's own amount and unit |
| Measurements.MeasurementObject.constructor | hip-log-bot-cloud-function/src/models/measurement.py:28-36 | the object holds the given measurement |
| Measurements.Render | hip-log-bot-cloud-function/src/models/measurement.py:38-39 | `str(m)`: the amount followed directly by the unit; `Records.RenderFullSet` and the samples pin it down |
| Measurements.Eq | hip-log-bot-cloud-function/src/models/measurement.py:41-42 | `m1 == m2`: Python `==` on the amounts and equal units; reflexive (`EqReflexive`) and kept by the dict round trip (`ToDictRoundTripEq`) |
| Measurements.ToDict | hip-log-bot-cloud-function/src/models/measurement.py:61-62 | `m.to_dict()`: the amount and unit under their keyword names, so that `Measurement(**d)` rebuilds m (`ToDictRoundTrip`) |
| Measurements.Converted | hip-log-bot-cloud-function/src/models/measurement.py:45-58 | the state `to_kilograms` leaves, or what it raises: kg unchanged, lb scaled by the factor, any other unit rejected (`ConvertKgUnchanged`, `ConvertLbThenIdempotent`, `ConvertOtherUnitFails`) |
| Measurements.TimesLbFactor | hip-log-bot-cloud-function/src/models/measurement.py:53 | multiplying by the pound factor succeeds exactly on numbers and yields a float |
| Measurements.MeasurementObject.ToKilograms | hip-log-bot-cloud-function/src/models/measurement.py:45-58 | the object's new amount and unit are the conversion of the old ones; when the conversion raises, the object is left as it was and the error is the conversion's |
| Measurements.UnitsListed | hip-log-bot-cloud-function/src/models/measurement.py:7-25 | the unit check accepts exactly the strings in the 17-entry list |
| Measurements.AllowedUnitsDistinct | hip-log-bot-cloud-function/src/models/measurement.py:7-25 | the list has 17 entries, no two equal |
| Measurements.EqReflexive | hip-log-bot-cloud-function/src/models/measurement.py:41-42 | a measurement equals itself under `__eq__` |
| Measurements.ToDictRoundTrip | hip-log-bot-cloud-function/src/models/measurement.py:61-62 | `Measurement(**m.to_dict())` rebuilds m exactly |
| Measurements.ToDictRoundTripEq | hip-log-bot-cloud-function/src/models/measurement.py:41-42 | the rebuilt measurement compares equal to m under `__eq__` |
| Measurements.ConvertKgUnchanged | hip-log-bot-cloud-function/src/models/measurement.py:55-56 | converting a kilogram measurement changes nothing |
| Measurements.ConvertLbThenIdempotent | hip-log-bot-cloud-function/src/models/measurement.py:51-56 | a pound measurement becomes a valid kilogram one, and converting again changes nothing |
| Measurements.ConvertOtherUnitFails | hip-log-bot-cloud-function/src/models/measurement.py:57-58 | any other unit raises "Cannot convert <unit> to kilograms" |
| Measurements.ConvertTwoPounds | hip-log-bot-cloud-function/src/models/measurement.py:53 | 2 lb converts to 0.907184 kg |
| Records.ValueDiffers | hip-log-bot-cloud-function/src/models/record.py:139-147 | comparing a Measurement with a non-Measurement attribute raises AttributeError, and only then |
| Records.ValueDiffersSelf | hip-log-bot-cloud-function/src/models/record.py:139-147 | an attribute compared with itself never differs |
| Records.AttrDiffers | hip-log-bot-cloud-function/src/models/record.py:139-147 | `x != y` on two attribute values: a Measurement compared with anything else reaches `.amount` and raises (`ValueDiffers`); nothing differs from itself (`ValueDiffersSelf`) |
| Records.ConvertValue | hip-log-bot-cloud-function/src/models/record.py:112-115 | a dict attribute is converted to a Measurement and fails exactly when `Measurement(**d)` fails; any other value is kept |
| Records.NewSet | hip-log-bot-cloud-function/src/models/record.py:105-118 | a truthy non-int reps raises TypeError; None or 0 are accepted; the set succeeds exactly when reps is acceptable and both dict conversions succeed, and holds the converted values |
| Records.SetFromKwargs | hip-log-bot-cloud-function/src/models/record.py:105-118 | `Set(**d)` takes only the keys reps, duration and weight, and builds a valid set |
| Records.SetsFrom | hip-log-bot-cloud-function/src/models/record.py:201-202 | the sets built from a list of dicts are one valid set per dict |
| Records.SetsFromStopsAtError | hip-log-bot-cloud-function/src/models/record.py:201-202 | the first dict that fails decides the failure of the whole loop |
| Records.SetToDict | hip-log-bot-cloud-function/src/models/record.py:152-164 | `s.to_dict()`: only the truthy fields, Measurements as dicts, so a rebuild drops falsy fields (`SetDictKwargs`, `SetRoundTrip`) |
| Records.RenderSet | hip-log-bot-cloud-function/src/models/record.py:120-133 | `str(s)`: "<reps>x", duration and weight joined by spaces, skipping falsy parts (`RenderFullSet`, `RenderSetDropFalsy`, `RenderSetSample`) |
| Records.SetEq | hip-log-bot-cloud-function/src/models/record.py:135-149 | `s1 == s2` field by field: reflexive (`SetEqReflexive`), kept by the dict round trip (`SetRoundTripEq`), and raising on a Measurement against a number (`SetEqMeasurementVsNumber`) |
| Records.SetsDiffer | hip-log-bot-cloud-function/src/models/record.py:56 | `sets1 != sets2` on two lists: different lengths differ at once, otherwise the first unequal pair decides; a list never differs from itself (`SetsDifferSelf`) |
| Records.InitialSets | hip-log-bot-cloud-function/src/models/record.py:169-183 | the `sets` argument of `Activity(...)` as `Activity.Create` states it |
| Records.ActivityFromDict | hip-log-bot-cloud-function/src/models/record.py:198-204 | `Activity.from_dict` yields only valid sets |
| Records.Activity.Create | hip-log-bot-cloud-function/src/models/record.py:169-183 | no sets gives `[Set(reps=1)]`, a single Set becomes a one-element list, a list of Sets is kept as is, and anything else raises TypeError |
| Records.Activity.constructor | hip-log-bot-cloud-function/src/models/record.py:169-183 | the object holds the given name and set list |
| Records.Activity.FromDict | hip-log-bot-cloud-function/src/models/record.py:198-204 | the loop that appends each `Set(**s)` to a fresh activity builds the name and sets of `ActivityFromDict`, or raises its error |
| Records.Activity.AddSet | hip-log-bot-cloud-function/src/models/record.py:207-208 | the set is appended at the end and nothing else changes |
| Records.ActivityDict | hip-log-bot-cloud-function/src/models/record.py:210-226 | `activity.to_dict(include_name)`: "sets" always, "name" only on request (`ActivityDictKeys`), read back by `from_dict` up to falsy-field dropping (`ActivityRoundTrip`) |
| Records.Activity.ToDict | hip-log-bot-cloud-function/src/models/record.py:210-226 | the object's `to_dict`, the dict of its current name and sets |
| Records.RenderActivity | hip-log-bot-cloud-function/src/models/record.py:186-195 | `str(activity)`: "<name> <n> sets: " and the sets joined by ", " (`RenderActivityAppend`, `RenderTwoSets`, `RenderActivitySample`) |
| Records.Activity.Render | hip-log-bot-cloud-function/src/models/record.py:186-195 | the object's `str`, the rendering of its current name and sets |
| Records.ActivityEq | hip-log-bot-cloud-function/src/models/record.py:45-59 | `a1 == a2` through the base class, with the visiting order of "name" and "sets" as a parameter (`ActivityEqReflexive`, `ActivityEqOrder`, `ActivityEqOrderMatters`) |
| Records.Activity.Eq | hip-log-bot-cloud-function/src/models/record.py:45-59 | the objects' `==`, comparing their current names and sets in the given order |
| Records.ActivityEqOrder | hip-log-bot-cloud-function/src/models/record.py:49-57 | the visiting order only decides whether the comparison raises: when both orders answer, the answers agree, and the answer is True exactly when the names agree and the set lists do not differ; different names visited first answer False; a raise is the set comparison's |
| Records.ActivityEqOrderMatters | hip-log-bot-cloud-function/src/models/record.py:49-57 | two differently named activities whose weights are a Measurement and a number compare False when "name" is visited first and raise AttributeError when "sets" is |
| Records.NewPain | hip-log-bot-cloud-function/src/models/record.py:232-239 | a pain is built exactly when the level is one of 0..3, and otherwise raises the "Invalid pain level" ValueError |
| Records.PainFromKwargs | hip-log-bot-cloud-function/src/models/record.py:232-239 | `Pain(**d)` only ever holds an allowed level |
| Records.PainDict | hip-log-bot-cloud-function/src/models/record.py:79-100 | `pain.to_dict()`, the base-class dict of name and level (`PainDictIsRecordDict`), which rebuilds the pain (`PainRoundTrip`) |
| Records.RenderPain | hip-log-bot-cloud-function/src/models/record.py:242-249 | `str(pain)`: "<name>: <level>" (`RenderPainSample`) |
| Records.PainEq | hip-log-bot-cloud-function/src/models/record.py:45-59 | `p1 == p2` through the base class: names equal and levels equal under Python `==`; comparing strings and numbers never raises, so the visiting order does not matter (`PainEqReflexive`) |
| Records.SetAttr | hip-log-bot-cloud-function/src/models/record.py:21-22 | `setattr` makes the key present, and a new key is appended last |
| Records.Visible | hip-log-bot-cloud-function/src/models/record.py:71-76 | `attributes` keeps exactly the non-dunder attributes |
| Records.RecordMembers | hip-log-bot-cloud-function/src/models/record.py:89-100 | without `include_name` the dict has no "name" key |
| Records.Record.constructor | hip-log-bot-cloud-function/src/models/record.py:19-22 | the record holds "name" followed by each keyword attribute, in order |
| Records.Record.ToDict | hip-log-bot-cloud-function/src/models/record.py:79-100 | the loop builds the dict of the visible attributes, with Measurements turned into dicts |
| Records.RenderRecord | hip-log-bot-cloud-function/src/models/record.py:27-43 | `str(record)`: "<name>: " and the parts of the truthy attributes other than `name`, joined by ", " (`RecordPartsSnoc`, `RenderRecordSkips`, `RenderRecordAppends`, `RenderRecordSample`) |
| Records.Record.Render | hip-log-bot-cloud-function/src/models/record.py:27-43 | the object's `str`, the rendering of its name and visible attributes |
| Records.RecordEq | hip-log-bot-cloud-function/src/models/record.py:45-59 | `r1 == r2` with the visiting order of the attribute-name set as a parameter (`RecordEqSelf`, `RecordEqMissingName`) |
| Records.Record.Eq | hip-log-bot-cloud-function/src/models/record.py:45-59 | the objects' `==` over their visible attributes, in the given order |
| Records.RecordPartsSnoc | hip-log-bot-cloud-function/src/models/record.py:33-41 | one more attribute adds exactly one part "<key> <value>" at the end, unless it is `name` or falsy, which add nothing |
| Records.VisibleSnoc | hip-log-bot-cloud-function/src/models/record.py:71-76 | a non-dunder attribute set last is the last visible attribute |
| Records.RenderRecordSkips | hip-log-bot-cloud-function/src/models/record.py:35-36 | an attribute named `name`, or a falsy one, leaves `str(record)` unchanged |
| Records.RenderRecordAppends | hip-log-bot-cloud-function/src/models/record.py:33-43 | any other attribute adds ", <key> <value>" at the end of a non-empty rendering |
| Records.RenderRecordSample | hip-log-bot-cloud-function/src/models/record.py:27-31 | the docstring sample: name "Name" with reps 10 and other_attribute 5 renders as "Name: reps 10, other_attribute 5" |
| Records.RecordMembersStep | hip-log-bot-cloud-function/src/models/record.py:90-96 | each loop step assigns one key, skipping "name" when it is excluded |
| Records.RecordMembersInOrder | hip-log-bot-cloud-function/src/models/record.py:79-100 | with distinct keys, `to_dict` lists the attributes in their order with converted values |
| Records.RecordDictWithoutName | hip-log-bot-cloud-function/src/models/record.py:19-100 | `Record(name, **kw).to_dict(include_name=False)` is exactly the converted kw dict |
| Records.RecordEqSelf | hip-log-bot-cloud-function/src/models/record.py:45-59 | a record equals itself, whatever order the attribute set is visited in |
| Records.RecordEqMissingName | hip-log-bot-cloud-function/src/models/record.py:49-57 | an attribute present on one side only never lets the records compare equal: the answer is False or an AttributeError |
| Records.SetDictKwargs | hip-log-bot-cloud-function/src/models/record.py:152-164 | `Set.to_dict` keeps each field exactly when it is truthy, with Measurements as dicts |
| Records.ConvertDictOfValue | hip-log-bot-cloud-function/src/models/record.py:112-115 | the dict of a truthy value converts back to that value |
| Records.SetRoundTrip | hip-log-bot-cloud-function/src/models/record.py:105-164 | `Set(**s.to_dict())` gives s with its falsy fields set to None |
| Records.SetRoundTripExact | hip-log-bot-cloud-function/src/models/record.py:105-164 | a set whose fields are None or truthy rebuilds exactly |
| Records.SetRoundTripDropsZeroReps | hip-log-bot-cloud-function/src/models/record.py:152-164 | reps 0 comes back as None, and the rebuilt set does not equal the original |
| Records.SetEqReflexive | hip-log-bot-cloud-function/src/models/record.py:135-149 | a set equals itself |
| Records.SetRoundTripEq | hip-log-bot-cloud-function/src/models/record.py:135-164 | the rebuilt set compares equal to the original under `__eq__` |
| Records.SetEqMeasurementVsNumber | hip-log-bot-cloud-function/src/models/record.py:143-146 | comparing a Measurement weight with a plain number raises AttributeError |
| Records.RenderSetDropFalsy | hip-log-bot-cloud-function/src/models/record.py:120-133 | dropping falsy fields does not change a set's rendering |
| Records.RenderSetsDropFalsy | hip-log-bot-cloud-function/src/models/record.py:120-133 | nor the rendering of a list of sets |
| Records.RenderFullSet | hip-log-bot-cloud-function/src/models/record.py:120-133 | a full set renders as "<reps>x <duration> <weight>" |
| Records.RenderSetSample | hip-log-bot-cloud-function/src/models/record.py:120-125 | the documented sample renders as "10x 10min 5kg" |
| Records.SetsFromSnoc | hip-log-bot-cloud-function/src/models/record.py:201-202 | one more dict appends one more set |
| Records.SetsFromEach | hip-log-bot-cloud-function/src/models/record.py:201-202 | the sets built are the per-dict sets, in order |
| Records.SetsFromDicts | hip-log-bot-cloud-function/src/models/record.py:201-222 | the sets rebuilt from an activity's set dicts are its sets with falsy fields dropped |
| Records.ActivityRoundTrip | hip-log-bot-cloud-function/src/models/record.py:198-226 | `Activity.from_dict(a.to_dict())` gives the same name and the same sets, up to falsy-field dropping |
| Records.ActivityFromFields | hip-log-bot-cloud-function/src/models/record.py:198-204 | from_dict reads exactly the "name" and "sets" entries |
| Records.ActivityDictKeys | hip-log-bot-cloud-function/src/models/record.py:210-226 | `to_dict` always has "sets", and has "name" exactly when `include_name` is set |
| Records.ActivityDictWithoutName | hip-log-bot-cloud-function/src/models/record.py:198-226 | a dict made without the name cannot be read back: KeyError |
| Records.SetsDifferSelf | hip-log-bot-cloud-function/src/models/record.py:45-59 | comparing a list of sets with itself finds no difference |
| Records.ActivityEqReflexive | hip-log-bot-cloud-function/src/models/record.py:45-59 | an activity equals itself |
| Records.RenderActivityAppend | hip-log-bot-cloud-function/src/models/record.py:186-208 | after `add_set` the header counts one more set, and the new set is rendered last after ", " |
| Records.RenderTwoSets | hip-log-bot-cloud-function/src/models/record.py:186-195 | two sets render as "<name> 2 sets: <s1>, <s2>" |
| Records.RenderRepsWeight | hip-log-bot-cloud-function/src/models/record.py:120-133 | reps with a weight renders as "<reps>x <weight>" |
| Records.RenderTenTwelve | hip-log-bot-cloud-function/src/models/record.py:120-133 | 10 reps at 12 kg renders as "10x 12kg" |
| Records.RenderEightTen | hip-log-bot-cloud-function/src/models/record.py:120-133 | 8 reps at 10 kg renders as "8x 10kg" |
| Records.RenderActivitySample | hip-log-bot-cloud-function/src/models/record.py:186-195 | the documented sample renders as "Shoulder press 2 sets: 10x 12kg, 8x 10kg" |
| Records.PainIntLevels | hip-log-bot-cloud-function/src/models/record.py:230-239 | an integer level is accepted exactly when it lies in 0..3 |
| Records.PainLevelBoundaries | hip-log-bot-cloud-function/src/models/record.py:230-239 | levels 0 and 3 succeed; level 5 raises "Invalid pain level: 5. Allowed levels are: 0, 1, 2, 3" |
| Records.RecordMembersOfTwo | hip-log-bot-cloud-function/src/models/record.py:79-100 | two plain attributes give a two-entry dict in order |
| Records.PainDictIsRecordDict | hip-log-bot-cloud-function/src/models/record.py:229-239 | a pain's dict is the base-class dict of its name and level |
| Records.PainRoundTrip | hip-log-bot-cloud-function/src/models/record.py:229-239 | `Pain(**p.to_dict())` rebuilds p |
| Records.PainDictAsLevelRejected | hip-log-bot-cloud-function/src/models/record.py:235-238 | a pain dict passed as a level is rejected with ValueError |
| Records.RenderPainSample | hip-log-bot-cloud-function/src/models/record.py:242-249 | the documented sample renders as "Left hip: 3" |
| Records.PainEqReflexive | hip-log-bot-cloud-function/src/models/record.py:45-59 | a pain equals itself |
| DailyLogs.Position | hip-log-bot-cloud-function/src/models/daily_log.py:119 | the name lookup finds the name exactly when it is present, at its index |
| DailyLogs.AddActivityV | hip-log-bot-cloud-function/src/models/daily_log.py:107-131 | the log after `add_activity`: a new name last, a known one in its place with its sets replaced or extended (`AddActivityNew`, `AddActivityExisting`, `AddActivityKeepsValid`, `ReAddDoubles`) |
| DailyLogs.DeleteActivityV | hip-log-bot-cloud-function/src/models/daily_log.py:133-142 | the log after `delete_activity`: exactly that entry gone (`DeleteActivityExact`), undoing a fresh add (`DeleteUndoesAdd`) |
| DailyLogs.AddPainV | hip-log-bot-cloud-function/src/models/daily_log.py:159-167 | the log after `add_pain`: last write wins, in place or appended (`AddPainPlacement`, `AddPainLastWins`) |
| DailyLogs.DeletePainV | hip-log-bot-cloud-function/src/models/daily_log.py:169-176 | the log after `delete_pain`: exactly that pain gone (`DeletePainExact`), undoing a fresh add (`DeletePainUndoesAdd`) |
| DailyLogs.InitV | hip-log-bot-cloud-function/src/models/daily_log.py:12-30 | the constructor's log: the activities folded in without overwriting, then the pains (`InitMergesDuplicates`) |
| DailyLogs.ToDictV | hip-log-bot-cloud-function/src/models/daily_log.py:186-196 | `to_dict()` of a log: the five keys, activities by name without "name", pains as dicts (`ToDictShape`, `ToDictFields`), read back by `from_dict` when there are no pains (`FromDictRoundTrip`) |
| DailyLogs.RenderV | hip-log-bot-cloud-function/src/models/daily_log.py:32-53 | `str(daily_log)`: the formatted date, the counts and one line per activity and pain, or the error of the date or a note (`RenderShape`, `RenderErrors`, `RenderReadBack`) |
| DailyLogs.FromDictV | hip-log-bot-cloud-function/src/models/daily_log.py:56-91 | a log read from a dict carries the date it was asked for |
| DailyLogs.KeptNote | hip-log-bot-cloud-function/src/models/daily_log.py:67-73 | a stored note is set on the log exactly when it is truthy |
| DailyLogs.DailyLog.constructor | hip-log-bot-cloud-function/src/models/daily_log.py:12-30 | the new log is valid and is the fold of `add_activity(overwrite=False)` over the activities, then `add_pain` over the pains |
| DailyLogs.DailyLog.AddEach | hip-log-bot-cloud-function/src/models/daily_log.py:26-27 | the activity loop of the constructor folds `add_activity` over the list |
| DailyLogs.DailyLog.AddAt | hip-log-bot-cloud-function/src/models/daily_log.py:26-27 | one more activity of the constructor list is merged, and the objects not yet merged keep their sets |
| DailyLogs.DailyLog.AddEachPain | hip-log-bot-cloud-function/src/models/daily_log.py:29-30 | the pain loop folds `add_pain` over the list and leaves the activities alone |
| DailyLogs.DailyLog.AddActivity | hip-log-bot-cloud-function/src/models/daily_log.py:107-131 | the view after `add_activity` is the merge function applied to the old view, using the sets the activity had on entry |
| DailyLogs.DailyLog.ReplaceAt | hip-log-bot-cloud-function/src/models/daily_log.py:121-123 | overwriting replaces the stored entry in its place |
| DailyLogs.DailyLog.Append | hip-log-bot-cloud-function/src/models/daily_log.py:127-131 | a new name is inserted last |
| DailyLogs.DailyLog.ExtendAt | hip-log-bot-cloud-function/src/models/daily_log.py:124-126 | extending appends the new sets to the stored activity's own list |
| DailyLogs.DailyLog.DeleteActivity | hip-log-bot-cloud-function/src/models/daily_log.py:133-142 | returns True exactly when the name was present, and the new view is the delete function of the old |
| DailyLogs.DailyLog.RemoveAt | hip-log-bot-cloud-function/src/models/daily_log.py:139-140 | the entry at that position is removed and the rest keep their order |
| DailyLogs.DailyLog.GetActivity | hip-log-bot-cloud-function/src/models/daily_log.py:144-151 | finds a stored activity of that name exactly when one is present |
| DailyLogs.DailyLog.AddPain | hip-log-bot-cloud-function/src/models/daily_log.py:159-167 | the view after `add_pain` is the last-write-wins function of the old view; activities are untouched |
| DailyLogs.DailyLog.DeletePain | hip-log-bot-cloud-function/src/models/daily_log.py:169-176 | the view after `delete_pain` is the delete function of the old view |
| DailyLogs.DailyLog.SetActivityNotes | hip-log-bot-cloud-function/src/models/daily_log.py:179-180 | only the activity notes change |
| DailyLogs.DailyLog.SetPainNotes | hip-log-bot-cloud-function/src/models/daily_log.py:182-183 | only the pain notes change |
| DailyLogs.DailyLog.ToDict | hip-log-bot-cloud-function/src/models/daily_log.py:186-196 | the object's `to_dict()` is `ToDictV` of its view, about which `ToDictShape` and `FromDictRoundTrip` are proved |
| DailyLogs.DailyLog.FromDict | hip-log-bot-cloud-function/src/models/daily_log.py:56-91 | the fresh log built step by step has the view `FromDictV` describes, or raises its error |
| DailyLogs.DailyLog.Fill | hip-log-bot-cloud-function/src/models/daily_log.py:75-87 | the activity loop and then the pain loop agree with their specification |
| DailyLogs.DailyLog.AddAllFrom | hip-log-bot-cloud-function/src/models/daily_log.py:75-87 | a falsy collection is skipped; a truthy one is folded in |
| DailyLogs.DailyLog.AddItems | hip-log-bot-cloud-function/src/models/daily_log.py:76-87 | the loop over the items agrees with the fold, and stops at the first error |
| DailyLogs.DailyLog.StepAt | hip-log-bot-cloud-function/src/models/daily_log.py:76-87 | one more item extends the fold, and an error is the fold's error |
| DailyLogs.DailyLog.Step | hip-log-bot-cloud-function/src/models/daily_log.py:76-87 | one stored activity (its name put into its dict, then `from_dict`) or one stored pain is added |
| DailyLogs.DailyLog.Render | hip-log-bot-cloud-function/src/models/daily_log.py:32-53 | `str(log)` is the rendering function of the log's view |
| DailyLogs.DailyLog.Lines | hip-log-bot-cloud-function/src/models/daily_log.py:36-51 | the output list built step by step is the list of report lines |
| DailyLogs.DailyLog.ActivityPart | hip-log-bot-cloud-function/src/models/daily_log.py:36-44 | header, blank line, count, one line per activity, then truthy notes |
| DailyLogs.DailyLog.PainPart | hip-log-bot-cloud-function/src/models/daily_log.py:46-51 | blank line, count, one line per pain, then truthy notes |
| DailyLogs.DailyLog.AppendActivityLines | hip-log-bot-cloud-function/src/models/daily_log.py:40-41 | one "* " line per activity, in insertion order |
| DailyLogs.DailyLog.AppendPainLines | hip-log-bot-cloud-function/src/models/daily_log.py:47-48 | one "* " line per pain, in insertion order |
| DailyLogs.StepsStopsAtError | hip-log-bot-cloud-function/src/models/daily_log.py:76-87 | the first failing item decides the result of the whole loop |
| DailyLogs.AddActivityNew | hip-log-bot-cloud-function/src/models/daily_log.py:127-131 | a new name is appended last and every other entry is unchanged |
| DailyLogs.AddActivityExisting | hip-log-bot-cloud-function/src/models/daily_log.py:118-126 | an existing name keeps its place; its sets become old ++ new, or the new ones when overwriting; the entry count and everything else are unchanged |
| DailyLogs.AddActivityKeepsValid | hip-log-bot-cloud-function/src/models/daily_log.py:107-131 | adding keeps names distinct and sets valid, and touches neither pains, date nor notes |
| DailyLogs.ReAddDoubles | hip-log-bot-cloud-function/tests/test_daily_log.py:47-52 | re-adding the same activity doubles its sets |
| DailyLogs.InitMergesDuplicates | hip-log-bot-cloud-function/src/models/daily_log.py:26-27 | two activities of one name passed to the constructor merge their sets |
| DailyLogs.AddPainPlacement | hip-log-bot-cloud-function/src/models/daily_log.py:159-167 | a new pain is appended; an existing one is replaced in place; nothing else changes |
| DailyLogs.AddPainLastWins | hip-log-bot-cloud-function/src/models/daily_log.py:159-167 | of two pains with one name, the second wins |
| DailyLogs.DeleteActivityExact | hip-log-bot-cloud-function/src/models/daily_log.py:133-142 | exactly that key is removed, and a missing name changes nothing |
| DailyLogs.DeleteUndoesAdd | hip-log-bot-cloud-function/src/models/daily_log.py:107-142 | deleting a just-added new activity restores the log |
| DailyLogs.DeletePainExact | hip-log-bot-cloud-function/src/models/daily_log.py:169-176 | exactly that pain is removed, and a missing name changes nothing |
| DailyLogs.DeletePainUndoesAdd | hip-log-bot-cloud-function/src/models/daily_log.py:159-176 | deleting a just-added new pain restores the log |
| DailyLogs.ToDictShape | hip-log-bot-cloud-function/src/models/daily_log.py:186-196 | the keys are date, activities, pains, pain_notes and activity_notes; activities are keyed by name and omit "name"; pains are {name, level} dicts |
| DailyLogs.ToDictFields | hip-log-bot-cloud-function/src/models/daily_log.py:186-196 | the notes and both collections are stored as they are |
| DailyLogs.ActivityItemRestores | hip-log-bot-cloud-function/src/models/daily_log.py:76-81 | one stored activity reads back as an append of its name and sets, with falsy fields dropped |
| DailyLogs.ActivityDictNamed | hip-log-bot-cloud-function/src/models/daily_log.py:80 | putting the name back into the stored dict gives the dict with the name |
| DailyLogs.StepsRestoreActivities | hip-log-bot-cloud-function/src/models/daily_log.py:75-81 | the stored activities read back in order |
| DailyLogs.AddAllActivities | hip-log-bot-cloud-function/src/models/daily_log.py:75-81 | the whole stored activity dict reads back |
| DailyLogs.FromDictRoundTrip | hip-log-bot-cloud-function/src/models/daily_log.py:56-91 | a log without pains reads back from its `to_dict` with the same activities (falsy set fields dropped), the same truthy notes, and the date passed in |
| DailyLogs.RenderReadBack | hip-log-bot-cloud-function/src/models/daily_log.py:32-53 | the log read back renders exactly as the original |
| DailyLogs.FromDictRejectsPains | hip-log-bot-cloud-function/src/models/daily_log.py:83-87 | any stored pain makes `from_dict` raise the ValueError of the first pain's dict used as a level |
| DailyLogs.FromDictReachesPains | hip-log-bot-cloud-function/src/models/daily_log.py:56-91 | reading back reaches the pains with the activities and notes restored |
| DailyLogs.FirstPainRejected | hip-log-bot-cloud-function/src/models/daily_log.py:85-87 | the first stored pain is rejected |
| DailyLogs.EmptyLogLines | hip-log-bot-cloud-function/src/models/daily_log.py:36-51 | an empty log has the header, the zero counts and nothing else |
| DailyLogs.RenderEmptyLog | hip-log-bot-cloud-function/src/models/daily_log.py:32-53 | the empty log of 2023-11-03 renders with "Nov. 3, 2023 Log:", "0x activities:" and "0x pain records:" |
| DailyLogs.EmptyLogRendered | hip-log-bot-cloud-function/src/models/daily_log.py:32-53 | an empty log renders with its formatted date and both zero counts |
| DailyLogs.RenderShape | hip-log-bot-cloud-function/src/models/daily_log.py:32-53 | a valid date and string notes render; the report starts with the header and the activity count, and holds the pain count and every activity and pain line |
| DailyLogs.RenderErrors | hip-log-bot-cloud-function/src/models/daily_log.py:32-53 | an unparsable date raises the strptime error; a truthy non-string note raises TypeError |
| Dates.Strptime | hip-log-bot-cloud-function/src/utils.py:4-9 | a parsed date is a real calendar date; a failure is a ValueError |
| Dates.ParseDate | hip-log-bot-cloud-function/src/utils.py:4-9 | a date the pattern matches is a real calendar date |
| Dates.IsValidDateFormat | hip-log-bot-cloud-function/src/utils.py:4-9 | `is_valid_date_format(s)`: strptime succeeds (`IsoDateRoundTrip`, `SingleDigitMonthAccepted`, `ShortYearRejected`, `TrailingTimeRejected`, `DayPastMonthEndRejected`) |
| Dates.IsoDateRoundTrip | hip-log-bot-cloud-function/src/utils.py:4-9 | every date with a four-digit year written as YYYY-MM-DD parses back to itself |
| Dates.SingleDigitMonthAccepted | hip-log-bot-cloud-function/tests/test_utils.py:11 | "2023-1-1" is accepted, contrary to the test |
| Dates.ShortYearRejected | hip-log-bot-cloud-function/tests/test_utils.py:9 | "223-01-01" is rejected |
| Dates.TrailingTimeRejected | hip-log-bot-cloud-function/tests/test_utils.py:10 | "2023-01-01T00:00:00" is rejected |
| Dates.DayPastMonthEndRejected | hip-log-bot-cloud-function/src/utils.py:4-9 | 2023-02-29 is rejected |
| Dates.FormatDate | hip-log-bot-cloud-function/src/models/daily_log.py:33-35 | `strftime("%b. %-d, %Y")` in the C locale (`FormatSample`) |
| Dates.FormatSample | hip-log-bot-cloud-function/src/models/daily_log.py:33-35 | 2023-11-03 formats as "Nov. 3, 2023" |
| Intents.ZipLoop | hip-log-bot-cloud-function/src/models/intent.py:159-167 | the index loop builds the set dicts of its specification |
| Intents.ActivitySets | hip-log-bot-cloud-function/src/models/intent.py:144-169 | the length check and the zip compute the sets of `SetsOf` |
| Intents.ExtractLogInput | hip-log-bot-cloud-function/src/models/intent.py:102-182 | the date and the log input of `LogInputOf`, or its error |
| Intents.Parse | hip-log-bot-cloud-function/src/models/intent.py:27-38 | the constructor's steps compute `IntentOf`, or raise its error |
| Intents.IntentOf | hip-log-bot-cloud-function/src/models/intent.py:27-38 | what `Intent(request)` builds or raises, specified step by step; `IntentShape`, `UnsupportedRejectedFirst` and `DateShape` are proved about it |
| Intents.LogInputOf | hip-log-bot-cloud-function/src/models/intent.py:102-182 | the date step then the per-kind fields (`DateRequired`, `FieldsByKind`) |
| Intents.SetsOf | hip-log-bot-cloud-function/src/models/intent.py:144-169 | the LogActivity sets: a mismatch error, the `{"reps": 1}` default, or the zipped set dicts (`MismatchRaises`, `NoSetParametersGiveOneRep`, `ZippedSetContents`) |
| Intents.ZipSets | hip-log-bot-cloud-function/src/models/intent.py:157-167 | one set dict per index, stopping at the first error (`ZipSetsEach`, `ZipSetsStopsAtError`) |
| Intents.SetAt | hip-log-bot-cloud-function/src/models/intent.py:160-166 | the set dict at index k (`SetAtShape`) |
| Intents.Lengths | hip-log-bot-cloud-function/src/models/intent.py:147-153 | the lengths of the set parameters (`ActivityEntityLengths`, `EmptyStringCountsAsZero`) |
| Intents.FieldsOf | hip-log-bot-cloud-function/src/models/intent.py:137-182 | the per-kind log input (`FieldsByKind`) |
| Intents.ResolveUser | hip-log-bot-cloud-function/src/models/intent.py:184-225 | `_set_user`: the test user or the messenger sender id (`TestUserDefaults`, `MessengerUser`, `ResolvedUserTruthy`) |
| Intents.ExtractDate | hip-log-bot-cloud-function/src/models/intent.py:47-60 | `extract_date`: the part before the first "T" (`ExtractDateSpec`, `ExtractDateSamples`) |
| Intents.CollectStopsAtError | hip-log-bot-cloud-function/src/models/intent.py:159-167 | the first failing set decides the loop's error |
| Intents.CollectEach | hip-log-bot-cloud-function/src/models/intent.py:159-167 | a successful loop has one set per index |
| Intents.ZipSetsNext | hip-log-bot-cloud-function/src/models/intent.py:159-167 | each iteration appends one set dict |
| Intents.ZipSetsStopsAtError | hip-log-bot-cloud-function/src/models/intent.py:159-167 | an error at index i ends the loop with that error |
| Intents.ZipSetsEach | hip-log-bot-cloud-function/src/models/intent.py:159-167 | a zip of n sets holds the n per-index set dicts |
| Intents.SupportedNamesAreMembers | hip-log-bot-cloud-function/src/models/supported_intents.py:36-40 | every supported name is a member, and GetCommandList is the only member Intent rejects |
| Intents.UnsupportedRejectedFirst | hip-log-bot-cloud-function/src/models/intent.py:28-35 | a displayName outside the six names raises "Unsupported intent passed" before any other check |
| Intents.IntentShape | hip-log-bot-cloud-function/src/models/intent.py:27-38 | a parsed intent has a supported kind, a date exactly when its kind needs one, the resolved user, and the extracted input |
| Intents.DateShape | hip-log-bot-cloud-function/src/models/intent.py:125-134 | the date is present exactly for the dated kinds, and is the one the log input reports |
| Intents.TestUserDefaults | hip-log-bot-cloud-function/src/models/intent.py:197-207 | a missing originalDetectIntentRequest, or one from the console, gives MarkTheTester |
| Intents.MessengerUser | hip-log-bot-cloud-function/src/models/intent.py:209-222 | otherwise the user is payload.data.sender.id, and a missing or falsy id raises "User info not found..." |
| Intents.ResolvedUserTruthy | hip-log-bot-cloud-function/src/models/intent.py:184-225 | a resolved user is the test user or a truthy id |
| Intents.ExtractDateSpec | hip-log-bot-cloud-function/src/models/intent.py:47-60 | the result is the prefix before the first "T", or the whole string |
| Intents.ExtractDateSamples | hip-log-bot-cloud-function/src/models/intent.py:47-60 | a timestamp yields its date, and "today" is returned unchanged |
| Intents.DateRequired | hip-log-bot-cloud-function/src/models/intent.py:125-134 | the dated kinds raise "missing a date" when the date is absent or empty; other kinds carry no date |
| Intents.MismatchRaises | hip-log-bot-cloud-function/src/models/intent.py:146-155 | more than one distinct length among the set parameters raises the mismatch error |
| Intents.ActivityEntityLengths | hip-log-bot-cloud-function/src/models/intent.py:147-153 | the lengths gathered skip the activity, the date and every `[]` value |
| Intents.EmptyStringCountsAsZero | hip-log-bot-cloud-function/src/models/intent.py:147-155 | an empty-string parameter counts as length 0, so one rep with weight "" is a mismatch |
| Intents.WeightOnlyGivesNoSets | hip-log-bot-cloud-function/src/models/intent.py:157-167 | with reps `[]` and one weight there are zero sets |
| Intents.NoSetParametersGiveOneRep | hip-log-bot-cloud-function/src/models/intent.py:168-169 | with no set parameters the sets are `[{"reps": 1}]` |
| Intents.ZippedSetContents | hip-log-bot-cloud-function/src/models/intent.py:157-167 | with consistent lengths there are len(reps) sets, and set k is the one built from index k |
| Intents.SetAtShape | hip-log-bot-cloud-function/src/models/intent.py:160-166 | set k carries int(reps[k]), weight[k] and duration[k], each only when that array is non-empty |
| Intents.WithEntryShape | hip-log-bot-cloud-function/src/models/intent.py:163-166 | a truthy array contributes its k-th item; a falsy one contributes nothing |
| Intents.FieldsByKind | hip-log-bot-cloud-function/src/models/intent.py:137-182 | LogActivity and GetActivitySummary title-case the activity name; LogPain title-cases the body part and takes int(pain_level); the other kinds leave the input empty |
| SupportedIntents.Str | hip-log-bot-cloud-function/src/models/supported_intents.py:42-43 | `str(member)` is the member's name |
| SupportedIntents.Summarize | hip-log-bot-cloud-function/src/models/supported_intents.py:60-67 | `summarize()`: the heading, a blank line, then one line per member (`SummarizeHead`, `SummaryHasLine`, `SummarizeShape`) |
| SupportedIntents.MembersExact | hip-log-bot-cloud-function/src/models/supported_intents.py:4-40 | there are exactly seven members, and no two share a name |
| SupportedIntents.AllNames | hip-log-bot-cloud-function/src/models/supported_intents.py:56-58 | `all()` lists the seven names in declaration order |
| SupportedIntents.EqStrIffName | hip-log-bot-cloud-function/src/models/supported_intents.py:45-46 | a member equals a string exactly when it is the member's name |
| SupportedIntents.EqIffSame | hip-log-bot-cloud-function/src/models/supported_intents.py:45-46 | two members are equal exactly when they are the same member |
| SupportedIntents.SummarizeHead | hip-log-bot-cloud-function/src/models/supported_intents.py:60-67 | the summary is the heading, a blank line, then the member lines joined by newlines |
| SupportedIntents.SummaryHasLine | hip-log-bot-cloud-function/src/models/supported_intents.py:60-67 | the summary holds the line of every member |
| SupportedIntents.SummarizeShape | hip-log-bot-cloud-function/src/models/supported_intents.py:60-67 | the summary holds "- *<description>*: <examples>" for each member |
| SupportedIntents.SummarizeLogActivityLine | hip-log-bot-cloud-function/tests/test_supported_intents.py:8-14 | the summary holds the LogActivity line the test looks for |
| Executors.GetLogV | hip-log-bot-cloud-function/src/services/hiplogdb.py:39-78 | an invalid date raises; a found document is read with `from_dict` for that date; a missing one gives an empty log or None |
| Executors.LogStore.GetLog | hip-log-bot-cloud-function/src/services/hiplogdb.py:39-78 | the fetched log is a fresh object whose view is that of `GetLogV`, or the fetch raises its error |
| Executors.LogStore.UploadLog | hip-log-bot-cloud-function/src/services/hiplogdb.py:80-84 | the document at the log's own date becomes its `to_dict`, and nothing else changes |
| Executors.LogStore.DeleteLog | hip-log-bot-cloud-function/src/services/hiplogdb.py:90-96 | exactly that day's document is removed |
| Executors.Executor.constructor | hip-log-bot-cloud-function/src/services/executor.py:12-15 | the executor keeps the parsed intent, the request and the store |
| Executors.Handled | hip-log-bot-cloud-function/src/services/executor.py:23-45 | a reply passes through; a non-ValueError becomes "FAILED"; an unsupported intent is answered with the request's intent name; a mismatch gets the tailored reply; any other ValueError is raised again |
| Executors.RunV | hip-log-bot-cloud-function/src/services/executor.py:17-45 | `run()`: the decision flow under the handlers, which `Executor.Run` computes |
| Executors.ExecuteV | hip-log-bot-cloud-function/src/services/executor.py:12-45 | `Executor(request).run()`: a parse error escapes, otherwise `run` (`ParseError`, `MismatchEscapes`) |
| Executors.RespondV | hip-log-bot-cloud-function/src/services/executor.py:12-45 | the flow with parsing inside the handlers; it agrees with `ExecuteV` on requests that parse (`RespondAgreesWhenParsed`, `MismatchAnswered`) |
| Executors.FlowV | hip-log-bot-cloud-function/src/services/executor.py:47-118 | `_decision_flow`: the reply or exception and the stored logs afterwards (`StoreChangesOnlyAtDate`, `FailureKeepsStore`, the `Flow*` lemmas) |
| Executors.GetDailyLogV | hip-log-bot-cloud-function/src/services/executor.py:61-65 | GetDailyLog: the stored or empty log, rendered, with no write (`FlowGetDailyLog`, `UnreadableDay`) |
| Executors.LogActivityV | hip-log-bot-cloud-function/src/services/executor.py:67-72 | LogActivity: fetch or create, add without overwriting, save (`LogActivityTouchesOnlyItsDate`, `LoggedActivityReadsBack`) |
| Executors.AddActivityInputV | hip-log-bot-cloud-function/src/services/executor.py:71-72 | `Activity.from_dict(log_input)` added to the day's log, then saved |
| Executors.LogPainV | hip-log-bot-cloud-function/src/services/executor.py:74-79 | LogPain: fetch or create, add the pain, save (`LogPainTouchesOnlyItsDate`, `LoggedPainStored`) |
| Executors.AddPainInputV | hip-log-bot-cloud-function/src/services/executor.py:78-79 | `Pain(**log_input)` added to the day's log, then saved |
| Executors.SaveAndRenderV | hip-log-bot-cloud-function/src/services/executor.py:94-113 | a log that cannot be rendered is not uploaded; otherwise it is stored under its date and its rendering is the reply (`SaveFailureKeepsStore`, `SaveTouchesOnlyItsDate`) |
| Executors.SummaryV | hip-log-bot-cloud-function/src/services/executor.py:85-92 | the GetActivitySummary reply (`SummaryReply`, `FlowSummary`) |
| Executors.Executor.Create | hip-log-bot-cloud-function/src/services/executor.py:12-15 | the executor exists exactly when the request parses, and otherwise the parse error escapes |
| Executors.Executor.Execute | hip-log-bot-cloud-function/src/services/executor.py:12-45 | constructing then running gives the reply and store of `ExecuteV` |
| Executors.Executor.Run | hip-log-bot-cloud-function/src/services/executor.py:17-45 | `run` is the decision flow under the handlers |
| Executors.Executor.DecisionFlow | hip-log-bot-cloud-function/src/services/executor.py:47-118 | the dispatch computes the reply and the store of `FlowV` |
| Executors.Executor.GetDailyLog | hip-log-bot-cloud-function/src/services/executor.py:61-65 | GetDailyLog answers with the fetched log's rendering and writes nothing |
| Executors.Executor.Show | hip-log-bot-cloud-function/src/services/executor.py:108-113 | the reply is the log's rendering |
| Executors.Executor.LogActivity | hip-log-bot-cloud-function/src/services/executor.py:67-72 | fetch or start the day's log, add the activity in append mode, upload, answer with the rendering |
| Executors.Executor.AddActivityInput | hip-log-bot-cloud-function/src/services/executor.py:71 | `Activity.from_dict` on the log input, then the add and the save |
| Executors.Executor.AddActivityAndSave | hip-log-bot-cloud-function/src/services/executor.py:94-113 | the merged log is uploaded and rendered |
| Executors.Executor.LogPain | hip-log-bot-cloud-function/src/services/executor.py:74-79 | fetch or start the day's log, add the pain, upload, answer with the rendering |
| Executors.Executor.AddPainInput | hip-log-bot-cloud-function/src/services/executor.py:78 | `Pain(**log_input)`, then the add and the save |
| Executors.Executor.SaveAndRender | hip-log-bot-cloud-function/src/services/executor.py:94-113 | the log is rendered (a rendering error raises before the upload), uploaded, and its rendering returned |
| Executors.IntentIsDated | hip-log-bot-cloud-function/src/models/intent.py:125-134 | a parsed intent carries a date whenever its kind needs one |
| Executors.FlowGetNumLogs | hip-log-bot-cloud-function/src/services/executor.py:57-59 | GetNumLogs raises AttributeError and writes nothing |
| Executors.FlowGetDailyLog | hip-log-bot-cloud-function/src/services/executor.py:61-65 | the GetDailyLog branch is the fetch and render |
| Executors.FlowLogActivity | hip-log-bot-cloud-function/src/services/executor.py:67-72 | the LogActivity branch is the fetch, add, upload and render |
| Executors.FlowLogPain | hip-log-bot-cloud-function/src/services/executor.py:74-79 | the LogPain branch is the fetch, add, upload and render |
| Executors.FlowDelete | hip-log-bot-cloud-function/src/services/executor.py:81-83 | DeleteDailyLog answers "Your entry '<date>' was deleted" whether or not a document existed, and removes it |
| Executors.FlowSummary | hip-log-bot-cloud-function/src/services/executor.py:85-92 | GetActivitySummary answers the summary and writes nothing |
| Executors.FlowOther | hip-log-bot-cloud-function/src/services/executor.py:115-118 | past the six commands only GetCommandList has a reply; any other kind leaves `res` unbound |
| Executors.FlowUndated | hip-log-bot-cloud-function/src/services/executor.py:57-118 | the commands without a date write nothing |
| Executors.SaveFailureKeepsStore | hip-log-bot-cloud-function/src/services/executor.py:94-113 | a save whose rendering raises writes nothing |
| Executors.SaveTouchesOnlyItsDate | hip-log-bot-cloud-function/src/services/hiplogdb.py:80-84 | saving writes the log's own date and nothing else |
| Executors.LogActivityTouchesOnlyItsDate | hip-log-bot-cloud-function/src/services/executor.py:67-72 | LogActivity writes at most that day's document |
| Executors.LogPainTouchesOnlyItsDate | hip-log-bot-cloud-function/src/services/executor.py:74-79 | LogPain writes at most that day's document |
| Executors.StoreChangesOnlyAtDate | hip-log-bot-cloud-function/src/services/executor.py:47-118 | every command changes at most the intent's own (user, date) document; those without a date change nothing |
| Executors.FailureKeepsStore | hip-log-bot-cloud-function/src/services/executor.py:47-118 | a command that raises leaves every stored document as it was |
| Executors.LoggedActivityReadsBack | hip-log-bot-cloud-function/src/services/executor.py:61-113 | after a successful LogActivity on a day without pains, GetDailyLog answers exactly what LogActivity answered, and changes nothing |
| Executors.FirstActivityReadsBack | hip-log-bot-cloud-function/src/services/executor.py:61-113 | the first log of a day reads back as it was answered |
| Executors.UnreadableDay | hip-log-bot-cloud-function/src/services/executor.py:61-79 | a day whose document cannot be read fails GetDailyLog, LogActivity and LogPain with that error, writing nothing |
| Executors.LoggedPainStored | hip-log-bot-cloud-function/src/services/executor.py:74-79 | a logged pain is stored in the day's document |
| Executors.LoggedPainBreaksDay | hip-log-bot-cloud-function/src/services/executor.py:61-79 | once a pain is logged, reading the day, logging an activity or logging a pain all raise the first pain's ValueError |
| Executors.DeletedDayReadsEmpty | hip-log-bot-cloud-function/src/services/executor.py:61-83 | after a delete the day reads as a new empty log |
| Executors.GetNumLogsFails | hip-log-bot-cloud-function/src/services/executor.py:38-59 | the count request is always answered "FAILED" |
| Executors.SummaryReply | hip-log-bot-cloud-function/src/services/executor.py:85-92 | the summary is "**Summary Stats for '<name>'**\n", a newline, then "total_count: <n>" |
| Executors.CommandListUnreachable | hip-log-bot-cloud-function/src/services/executor.py:115-116 | no parsed intent has kind GetCommandList, so that branch is never taken |
| Executors.ConsoleRequestParsed | hip-log-bot-cloud-function/src/models/intent.py:27-38 | a console request of a supported kind goes to the test user, and its parameters decide the rest |
| Executors.ConsoleUser | hip-log-bot-cloud-function/src/models/intent.py:197-207 | a console request resolves to the test user |
| Executors.ConsoleFields | hip-log-bot-cloud-function/src/models/intent.py:27-38 | a console request carries its intent name and parameters where the parser reads them |
| Executors.MismatchEntitySets | hip-log-bot-cloud-function/tests/test_executor.py:281-306 | the test request's reps and weights do not match |
| Executors.MismatchEntityFields | hip-log-bot-cloud-function/src/models/intent.py:140-155 | the test request fails the LogActivity field extraction with the mismatch error |
| Executors.MismatchRequestRejected | hip-log-bot-cloud-function/tests/test_executor.py:281-306 | parsing the test request raises the mismatch error |
| Executors.MismatchEntityDate | hip-log-bot-cloud-function/src/models/intent.py:126-134 | the test request carries a usable date, so the mismatch is what rejects it |
| Executors.ParseError | hip-log-bot-cloud-function/src/services/executor.py:12-35 | a request that does not parse escapes the executor as written; with parsing inside the handlers it is handled |
| Executors.MismatchEscapes | hip-log-bot-cloud-function/src/services/executor.py:12-35 | as written, the mismatch request raises instead of getting its tailored reply |
| Executors.MismatchMessage | hip-log-bot-cloud-function/src/services/executor.py:29-32 | the mismatch message matches the mismatch test and not the unsupported one |
| Executors.MismatchPhraseLacksU | hip-log-bot-cloud-function/src/services/executor.py:29-32 | the mismatch message does not contain the unsupported-intent phrase, so the handlers tell the two apart |
| Executors.HandledMismatch | hip-log-bot-cloud-function/src/services/executor.py:32-33 | the handlers answer a mismatch with the tailored reply |
| Executors.MismatchAnswered | hip-log-bot-cloud-function/src/services/executor.py:23-35 | with parsing inside the handlers, a mismatch is answered with the tailored reply and the store is untouched |
| Executors.UnsupportedMessage | hip-log-bot-cloud-function/src/services/executor.py:29 | the unsupported-intent message matches its test |
| Executors.HandledUnsupported | hip-log-bot-cloud-function/src/services/executor.py:29-30 | the handlers answer an unsupported intent with the request's intent name |
| Executors.UnsupportedAnswered | hip-log-bot-cloud-function/src/services/executor.py:12-35 | an unsupported intent escapes as written, and is answered with its name once parsing is inside the handlers |
| Executors.RespondAgreesWhenParsed | hip-log-bot-cloud-function/src/services/executor.py:12-45 | the correction changes nothing for a request that parses |

## Left out

- Firestore: `HipLogDB` becomes a map from (user, date) to the stored document. Connection
  set-up, the collection name, field paths and document references are not modelled.
  Stored dicts are assumed to come back exactly as they were written.
- The database object is a parameter of the executor, where the source creates it in the
  constructor.
- `get_activity_summary` and the count query become a number `count` passed in, because they
  are a Firestore aggregation.
- `upload_log` also recounts the user's logs; that value is never read, so it is left out.
- `delete_log` swallows any exception. The map delete cannot fail, so the model never raises
  there.
- The HTTP entry points (`main.py`), logging, `print`, tracebacks and `Intent.__str__` are
  left out, because they are I/O.
- `DailyLog.list_activities` only prints, so it is not modelled.
- Floats are exact decimals: `amount * 0.453592` is computed without rounding, and a float
  renders as its exact decimal.
- `Record` attributes are an ordered list of (key, value) pairs, not arbitrary Python
  objects.
- `Records.RecordEq` (Record `__eq__`) takes the order in which the attribute-name set is
  visited as a parameter, because Python does not fix that order. `Records.ActivityEq` does
  the same with a flag for whether "name" comes before "sets". `Records.PainEq` needs no
  order: comparing a name or a level never raises, so every order gives the same answer.
- `DailyLogs.DailyLog.constructor`: states its result only when the activity objects passed
  in are distinct objects. With the same object twice, the in-place `extend` aliases it, and
  the model does not describe that case.
- `DailyLogs.DailyLog.AddEach`: the same condition, for the same reason.
- `from_dict` writes the name into the caller's activity dict (an input mutation). The model
  builds a fresh dict and does not record that write.
- Dict keys are assumed distinct, and lookup returns the first match. Activity and pain names
  are strings.
- `Executors.Executor.SaveAndRender`: replies with the rendering computed before the upload.
  The source renders again after the upload, but the log is unchanged by then, so both
  renderings are the same.
- Text.Title and Json.IntOf: casing, whitespace and digits are ASCII-only. `Title` treats
  every non-ASCII letter as uncased, so `"élan".title()` gives "éLan" where Python gives
  "Élan". `IntOf` strips only ASCII whitespace, reads only ASCII digits and rejects the
  underscores Python allows (`int("1_0")` is 10 in Python and a ValueError here).
- Dates.Strptime: `%Y`, `%m` and `%d` match ASCII digits only; CPython's `\d` also matches
  other Unicode decimal digits, which the model rejects.
- `strptime` is modelled for the "%Y-%m-%d" pattern only, as CPython's regular expression
  for that pattern accepts it. `strftime` uses the C locale's month abbreviations.

## Findings

| source | as written | input that shows it | evidently intended | confidence | as-written member | corrected member |
|---|---|---|---|---|---|---|
| hip-log-bot-cloud-function/src/services/executor.py:12-35 | the request is parsed in `__init__`, outside the `try` of `run`, so the handlers for "Unsupported intent" and "Mismatched number of reps/weights/durations" never see those errors | the LogActivity request with reps ["1"] and two weights (hip-log-bot-cloud-function/tests/test_executor.py:281-306) | the request is answered with the tailored mismatch reply | not executed | Executors.MismatchEscapes | Executors.MismatchAnswered |
