/**
 * The study-plan builder of the AI route: `normalizePreferences` turns a loose
 * request body into preferences with defaults filled in, and `buildPlan`
 * lays out a fixed Monday-to-Friday schedule from them, rotating focus areas
 * and time windows by index and deriving the hours of each session by
 * clamped rounding.
 */
module StudyPlan {
  import opened JsValues
  import opened JsText
  import opened Sequences

  datatype FocusInfo = FocusInfo(labelText: string, description: string)
  datatype WindowInfo = WindowInfo(labelText: string, range: string)

  const FocusLookup: map<string, FocusInfo> := map[
    "concepts" := FocusInfo("Concept review", "Strengthen fundamentals & theory."),
    "practice" := FocusInfo("Practice problems", "Solve exam-style questions."),
    "projects" := FocusInfo("Projects & labs", "Ship progress on long-form work."),
    "reading" := FocusInfo("Reading & notes", "Digest chapters, papers, or slides."),
    "retention" := FocusInfo("Recall drills", "Flashcards, spaced repetition, quizzes.")
  ]

  const WindowLookup: map<string, WindowInfo> := map[
    "early" := WindowInfo("Early morning", "6-9a"),
    "midday" := WindowInfo("Late morning", "9-12p"),
    "afternoon" := WindowInfo("Afternoon", "1-5p"),
    "evening" := WindowInfo("Evening", "6-9p"),
    "late" := WindowInfo("Late night", "9-11p")
  ]

  const WeekDays: seq<string> := ["Monday", "Tuesday", "Wednesday", "Thursday", "Friday"]

  const DefaultStudyHours: real := 12.0
  const DefaultFocusAreas: seq<string> := ["concepts", "practice"]
  const DefaultWindows: seq<string> := ["early", "afternoon"]

  const GoalSummaryPrefix := "Balanced plan to stay on track for "
  const PlainSummary := "Structured focus blocks to maintain consistent study momentum."
  const GoalTipPrefix := "Close each session by writing one insight that keeps "
  const GoalTipSuffix := " on track."
  const PlainTip := "Log a quick reflection after each block to reinforce what you learned."
  const Provider := "StudyPal AI (server)"

  /** The value of `Number(input.studyHours)`: NaN, or a finite number. */
  datatype NumberValue = NaN | Num(value: real)

  /**
   * The fields `normalizePreferences` reads from the request body. A list
   * field is `None` when it is not an array; a text field is `None` when it
   * is absent or null.
   */
  datatype RawPreferences = RawPreferences(
    studyHours: NumberValue,
    focusAreas: Option<seq<string>>,
    preferredWindows: Option<seq<string>>,
    targetGoal: Option<string>,
    notes: Option<string>)

  datatype Preferences = Preferences(
    studyHours: real,
    focusAreas: seq<string>,
    preferredWindows: seq<string>,
    targetGoal: string,
    notes: string)

  datatype Block = Block(labelText: string, activity: string, duration: string, window: string)

  datatype DayPlan = DayPlan(day: string, theme: string, focus: string, blocks: seq<Block>, totalHours: int)

  /** The plan without its `generatedAt` timestamp. */
  datatype Plan = Plan(summary: string, dailySchedule: seq<DayPlan>, tips: seq<string>, provider: string)

  /** `xs.filter(Boolean)` on strings: the non-empty entries, in their order. */
  function NonEmptyEntries(xs: seq<string>): (r: seq<string>)
    ensures |r| <= |xs|
    ensures forall x :: multiset(r)[x] == if x == "" then 0 else multiset(xs)[x]
    ensures IsSubsequence(r, xs)
  {
    if xs == [] then []
    else
      assert xs == [xs[0]] + xs[1..];
      var rest := NonEmptyEntries(xs[1..]);
      if xs[0] == "" then rest
      else
        assert ([xs[0]] + rest)[1..] == rest;
        [xs[0]] + rest
  }

  /** An array input filtered to its non-empty entries, or the default list when that leaves nothing. */
  function ListOrDefault(raw: Option<seq<string>>, default: seq<string>): seq<string> {
    if raw.Some? && NonEmptyEntries(raw.value) != [] then NonEmptyEntries(raw.value) else default
  }

  /** `normalizePreferences`. */
  function Normalize(input: RawPreferences): (p: Preferences)
    ensures p.focusAreas != [] && p.preferredWindows != []
    ensures forall i :: 0 <= i < |p.focusAreas| ==> p.focusAreas[i] != ""
    ensures forall i :: 0 <= i < |p.preferredWindows| ==> p.preferredWindows[i] != ""
    ensures p.studyHours != 0.0
    ensures input.studyHours.Num? && input.studyHours.value != 0.0 ==> p.studyHours == input.studyHours.value
    ensures input.studyHours.NaN? || input.studyHours == Num(0.0) ==> p.studyHours == DefaultStudyHours
    ensures input.targetGoal.Some? ==> p.targetGoal == input.targetGoal.value
    ensures input.targetGoal.None? ==> p.targetGoal == ""
    ensures input.notes.Some? ==> p.notes == input.notes.value
    ensures input.notes.None? ==> p.notes == ""
  {
    var focusAreas := ListOrDefault(input.focusAreas, DefaultFocusAreas);
    var windows := ListOrDefault(input.preferredWindows, DefaultWindows);
    NonEmptyListEntries(input.focusAreas, DefaultFocusAreas);
    NonEmptyListEntries(input.preferredWindows, DefaultWindows);
    Preferences(
      if input.studyHours.Num? && input.studyHours.value != 0.0 then input.studyHours.value else DefaultStudyHours,
      focusAreas,
      windows,
      if input.targetGoal.Some? then input.targetGoal.value else "",
      if input.notes.Some? then input.notes.value else "")
  }

  lemma NonEmptyListEntries(raw: Option<seq<string>>, default: seq<string>)
    requires forall i :: 0 <= i < |default| ==> default[i] != ""
    ensures forall i :: 0 <= i < |ListOrDefault(raw, default)| ==> ListOrDefault(raw, default)[i] != ""
  {
    var r := ListOrDefault(raw, default);
    forall i | 0 <= i < |r| ensures r[i] != "" {
      if raw.Some? && NonEmptyEntries(raw.value) != [] {
        assert multiset(r)[r[i]] > 0;
      }
    }
  }

  /**
   * The lists keep the caller's non-empty entries, in order, unless the
   * input is not an array or has none, in which case the defaults apply.
   */
  lemma NormalizeLists(input: RawPreferences)
    ensures var p := Normalize(input);
      && (input.focusAreas.Some? && (exists i :: 0 <= i < |input.focusAreas.value| && input.focusAreas.value[i] != "")
          ==> p.focusAreas == NonEmptyEntries(input.focusAreas.value))
      && (input.focusAreas.None? || (forall i :: 0 <= i < |input.focusAreas.value| ==> input.focusAreas.value[i] == "")
          ==> p.focusAreas == DefaultFocusAreas)
      && (input.preferredWindows.Some? && (exists i :: 0 <= i < |input.preferredWindows.value| && input.preferredWindows.value[i] != "")
          ==> p.preferredWindows == NonEmptyEntries(input.preferredWindows.value))
      && (input.preferredWindows.None? || (forall i :: 0 <= i < |input.preferredWindows.value| ==> input.preferredWindows.value[i] == "")
          ==> p.preferredWindows == DefaultWindows)
  {
    if input.focusAreas.Some? {
      NonEmptyEntriesEmptyIff(input.focusAreas.value);
    }
    if input.preferredWindows.Some? {
      NonEmptyEntriesEmptyIff(input.preferredWindows.value);
    }
  }

  lemma NonEmptyEntriesEmptyIff(xs: seq<string>)
    ensures NonEmptyEntries(xs) == [] <==> forall i :: 0 <= i < |xs| ==> xs[i] == ""
  {
    var r := NonEmptyEntries(xs);
    if r == [] {
      forall i | 0 <= i < |xs| ensures xs[i] == "" {
        assert multiset(xs)[xs[i]] > 0;
      }
    } else {
      assert multiset(r)[r[0]] > 0;
      assert r[0] in xs;
    }
  }

  /**
   * `ids[index % ids.length]`; with no ids the modulo is NaN and the read is
   * `undefined`. The first lap reads the list in order; every read is an
   * entry of the list.
   */
  function Rotated(ids: seq<string>, index: nat): (r: Option<string>)
    ensures r.Some? <==> ids != []
    ensures r.Some? ==> r.value in ids
    ensures index < |ids| ==> r == Some(ids[index])
  {
    if ids == [] then None else Some(ids[index % |ids|])
  }

  /** `FOCUS_LOOKUP[id] ?? FOCUS_LOOKUP.concepts`, reading own entries only: every id gets one of the five areas. */
  function FocusFor(id: Option<string>): (f: FocusInfo)
    ensures f in FocusLookup.Values
    ensures id.Some? && id.value in FocusLookup ==> f == FocusLookup[id.value]
    ensures id.None? || id.value !in FocusLookup ==> f == FocusLookup["concepts"]
  {
    if id.Some? && id.value in FocusLookup then FocusLookup[id.value] else FocusLookup["concepts"]
  }

  /** `WINDOW_LOOKUP[id] ?? WINDOW_LOOKUP.afternoon`, reading own entries only. */
  function WindowFor(id: Option<string>): (w: WindowInfo)
    ensures w in WindowLookup.Values
    ensures id.Some? && id.value in WindowLookup ==> w == WindowLookup[id.value]
    ensures id.None? || id.value !in WindowLookup ==> w == WindowLookup["afternoon"]
  {
    if id.Some? && id.value in WindowLookup then WindowLookup[id.value] else WindowLookup["afternoon"]
  }

  /** `Math.max(1, Math.min(2, windowCount || 1))`. */
  function SessionsPerDay(windowCount: nat): (s: nat)
    ensures 1 <= s <= 2
    ensures s == 2 <==> windowCount >= 2
  {
    if windowCount == 0 then 1 else if windowCount < 2 then windowCount else 2
  }

  /** `Math.round`: halves round up. */
  function Round(x: real): int {
    (x + 0.5).Floor
  }

  function MaxReal(a: real, b: real): real {
    if a >= b then a else b
  }

  /**
   * `Math.max(1, Math.round(Math.max(2, studyHours) / (sessions * 5)))`:
   * the whole number of hours nearest to the weekly hours (at least 2)
   * spread over five days of `sessions` sessions, and never less than 1.
   */
  function HoursPerSession(studyHours: real, sessions: nat): (h: nat)
    requires 1 <= sessions
    ensures h >= 1
    ensures var share := MaxReal(2.0, studyHours) / (5 * sessions) as real;
      && (share >= 0.5 ==> h as real - 0.5 <= share < h as real + 0.5)
      && (share < 0.5 ==> h == 1)
  {
    var share := MaxReal(2.0, studyHours) / (5 * sessions) as real;
    var rounded := Round(share);
    if rounded >= 1 then rounded else 1
  }

  /**
   * The plan of day `index`: the rotated focus area gives the theme, the
   * rotated window the block's label and range; the activity names the
   * theme in lower case and the duration is the day's hours.
   */
  function DayFor(p: Preferences, index: nat, hours: nat): (d: DayPlan)
    requires index < |WeekDays|
    ensures d.day == WeekDays[index] && d.totalHours == hours && |d.blocks| == 1
    ensures d.theme == FocusFor(Rotated(p.focusAreas, index)).labelText
    ensures d.focus == FocusFor(Rotated(p.focusAreas, index)).description
    ensures d.blocks[0].labelText == WindowFor(Rotated(p.preferredWindows, index)).labelText
    ensures d.blocks[0].window == WindowFor(Rotated(p.preferredWindows, index)).range
    ensures d.blocks[0].activity == "Target " + ToLowerAscii(d.theme) + " with a deep work block."
    ensures d.blocks[0].duration == NatToString(d.totalHours) + "h"
  {
    var focus := FocusFor(Rotated(p.focusAreas, index));
    var window := WindowFor(Rotated(p.preferredWindows, index));
    DayPlan(
      WeekDays[index],
      focus.labelText,
      focus.description,
      [Block(
        window.labelText,
        "Target " + ToLowerAscii(focus.labelText) + " with a deep work block.",
        NatToString(hours) + "h",
        window.range)],
      hours)
  }

  /** `WINDOW_LOOKUP[id]?.label ?? id` for each id: the window's name, or the id itself when it names none. */
  function WindowNames(ids: seq<string>): (r: seq<string>)
    ensures |r| == |ids|
    ensures forall k :: 0 <= k < |ids| ==>
      r[k] == if ids[k] in WindowLookup then WindowLookup[ids[k]].labelText else ids[k]
  {
    if ids == [] then [] else [if ids[0] in WindowLookup then WindowLookup[ids[0]].labelText else ids[0]] + WindowNames(ids[1..])
  }

  /** `FOCUS_LOOKUP[id]?.label ?? id` for each id. */
  function FocusNames(ids: seq<string>): (r: seq<string>)
    ensures |r| == |ids|
    ensures forall k :: 0 <= k < |ids| ==>
      r[k] == if ids[k] in FocusLookup then FocusLookup[ids[k]].labelText else ids[k]
  {
    if ids == [] then [] else [if ids[0] in FocusLookup then FocusLookup[ids[0]].labelText else ids[0]] + FocusNames(ids[1..])
  }

  /** `buildPlan` without `metadata.generatedAt`. */
  function BuildPlan(p: Preferences): (plan: Plan)
    ensures |plan.dailySchedule| == |WeekDays| == 5
    ensures forall i :: 0 <= i < 5 ==>
      && plan.dailySchedule[i].day == WeekDays[i]
      && |plan.dailySchedule[i].blocks| == 1
      && plan.dailySchedule[i].totalHours == HoursPerSession(p.studyHours, SessionsPerDay(|p.preferredWindows|))
      && plan.dailySchedule[i].theme == FocusFor(Rotated(p.focusAreas, i)).labelText
      && plan.dailySchedule[i].blocks[0].labelText == WindowFor(Rotated(p.preferredWindows, i)).labelText
      && plan.dailySchedule[i].blocks[0].window == WindowFor(Rotated(p.preferredWindows, i)).range
      && plan.dailySchedule[i].blocks[0].duration == NatToString(plan.dailySchedule[i].totalHours) + "h"
    ensures forall i :: 0 <= i < 5 ==>
      plan.dailySchedule[i] == DayFor(p, i, HoursPerSession(p.studyHours, SessionsPerDay(|p.preferredWindows|)))
    ensures |plan.tips| == 3
    ensures plan.tips[0] == "Reserve " + JoinWith(WindowNames(p.preferredWindows), ", ") + " for distraction-free focus."
    ensures plan.tips[1] ==
      "Rotate between " + JoinWith(FocusNames(p.focusAreas), ", ") + " to cover all priority areas without burnout."
    ensures plan.provider == Provider
    ensures p.targetGoal == "" ==> plan.summary == PlainSummary && plan.tips[2] == PlainTip
    ensures p.targetGoal != "" ==> plan.summary == GoalSummaryPrefix + p.targetGoal + "."
    ensures p.targetGoal != "" ==> plan.tips[2] == GoalTipPrefix + p.targetGoal + GoalTipSuffix
  {
    var hours := HoursPerSession(p.studyHours, SessionsPerDay(|p.preferredWindows|));
    var schedule := seq(5, i requires 0 <= i < 5 => DayFor(p, i, hours));
    var readableWindows := JoinWith(WindowNames(p.preferredWindows), ", ");
    var readableFocus := JoinWith(FocusNames(p.focusAreas), ", ");
    var summary := if p.targetGoal != "" then GoalSummaryPrefix + p.targetGoal + "." else PlainSummary;
    var lastTip := if p.targetGoal != "" then GoalTipPrefix + p.targetGoal + GoalTipSuffix else PlainTip;
    Plan(
      summary,
      schedule,
      [ "Reserve " + readableWindows + " for distraction-free focus.",
        "Rotate between " + readableFocus + " to cover all priority areas without burnout.",
        lastTip ],
      Provider)
  }

  /**
   * After normalisation the lists are never empty, so day `i` reads entry
   * `i mod n` of each list rather than the `undefined` an empty list gives.
   */
  lemma NormalizedPlanRotates(input: RawPreferences, i: nat)
    requires i < 5
    ensures var p := Normalize(input);
      var day := BuildPlan(p).dailySchedule[i];
      && day.theme == FocusFor(Some(p.focusAreas[i % |p.focusAreas|])).labelText
      && day.blocks[0].labelText == WindowFor(Some(p.preferredWindows[i % |p.preferredWindows|])).labelText
  {
    var p := Normalize(input);
    assert Rotated(p.focusAreas, i) == Some(p.focusAreas[i % |p.focusAreas|]);
    assert Rotated(p.preferredWindows, i) == Some(p.preferredWindows[i % |p.preferredWindows|]);
  }

  /** Every day of a plan carries the same hours, and the week adds up to five times that. */
  lemma UniformDailyHours(p: Preferences)
    ensures var s := BuildPlan(p).dailySchedule;
      && s[0].totalHours == s[1].totalHours == s[2].totalHours == s[3].totalHours == s[4].totalHours >= 1
      && s[0].totalHours + s[1].totalHours + s[2].totalHours + s[3].totalHours + s[4].totalHours == 5 * s[0].totalHours
  {
    var s := BuildPlan(p).dailySchedule;
    var h := HoursPerSession(p.studyHours, SessionsPerDay(|p.preferredWindows|));
    assert s[0].totalHours == h && s[1].totalHours == h && s[2].totalHours == h;
    assert s[3].totalHours == h && s[4].totalHours == h;
  }

  // The lookups as the source writes them. `FOCUS_LOOKUP[id]` on a plain
  // object also finds the members every object inherits from
  // Object.prototype; such a member is not nullish, so `??` keeps it, and it
  // has no `label`, `description` or `range`.

  const ObjectPrototypeNames: set<string> := {
    "constructor", "__proto__", "__defineGetter__", "__defineSetter__", "__lookupGetter__",
    "__lookupSetter__", "hasOwnProperty", "isPrototypeOf", "propertyIsEnumerable",
    "toString", "toLocaleString", "valueOf"
  }

  /**
   * `FOCUS_LOOKUP[id] ?? FOCUS_LOOKUP.concepts` as written. `None` is an
   * inherited member: its `label` is undefined and `focus.labelText.toLowerCase()`
   * throws a TypeError, so the request fails with status 500.
   */
  function FocusAsWritten(id: string): (r: Option<FocusInfo>)
    ensures r.None? <==> id !in FocusLookup && id in ObjectPrototypeNames
    ensures r.Some? ==> r.value == FocusFor(Some(id))
  {
    if id in FocusLookup then Some(FocusLookup[id])
    else if id in ObjectPrototypeNames then None
    else Some(FocusLookup["concepts"])
  }

  /**
   * `WINDOW_LOOKUP[id] ?? WINDOW_LOOKUP.afternoon` as written. `None` is an
   * inherited member: the block's `label` and `window` come out undefined.
   */
  function WindowAsWritten(id: string): (r: Option<WindowInfo>)
    ensures r.None? <==> id !in WindowLookup && id in ObjectPrototypeNames
    ensures r.Some? ==> r.value == WindowFor(Some(id))
  {
    if id in WindowLookup then Some(WindowLookup[id])
    else if id in ObjectPrototypeNames then None
    else Some(WindowLookup["afternoon"])
  }

  /**
   * A request whose focus areas are `["toString"]` and windows are
   * `["constructor"]` passes normalisation unchanged; the lookups as written
   * then reach inherited members (no label on Monday), while the own-entry
   * lookups fall back to concept review in the afternoon.
   */
  lemma InheritedIdsAsWritten(p: Preferences)
    requires p == Normalize(RawPreferences(NaN, Some(["toString"]), Some(["constructor"]), None, None))
    ensures
      && p.focusAreas == ["toString"] && p.preferredWindows == ["constructor"]
      && FocusAsWritten(p.focusAreas[0]).None?
      && WindowAsWritten(p.preferredWindows[0]).None?
      && BuildPlan(p).dailySchedule[0].theme == "Concept review"
      && BuildPlan(p).dailySchedule[0].blocks[0].labelText == "Afternoon"
  {
    var raw := RawPreferences(NaN, Some(["toString"]), Some(["constructor"]), None, None);
    NonEmptySingle("toString");
    NonEmptySingle("constructor");
    assert p.focusAreas == ["toString"];
    assert p.preferredWindows == ["constructor"];
    InheritedIdsFallBack();
    FirstDay(p);
  }

  lemma InheritedIdsFallBack()
    ensures FocusAsWritten("toString").None? && WindowAsWritten("constructor").None?
    ensures FocusFor(Some("toString")).labelText == "Concept review"
    ensures WindowFor(Some("constructor")).labelText == "Afternoon"
  {
    InheritedNamesAreNotEntries();
  }

  lemma NonEmptySingle(x: string)
    requires x != ""
    ensures NonEmptyEntries([x]) == [x]
  {
    assert [x][1..] == [];
  }

  lemma FirstDay(p: Preferences)
    requires p.focusAreas != [] && p.preferredWindows != []
    ensures BuildPlan(p).dailySchedule[0].theme == FocusFor(Some(p.focusAreas[0])).labelText
    ensures BuildPlan(p).dailySchedule[0].blocks[0].labelText == WindowFor(Some(p.preferredWindows[0])).labelText
  {
    assert Rotated(p.focusAreas, 0) == Some(p.focusAreas[0]);
    assert Rotated(p.preferredWindows, 0) == Some(p.preferredWindows[0]);
  }

  lemma InheritedNamesAreNotEntries()
    ensures "toString" !in FocusLookup && "toString" in ObjectPrototypeNames
    ensures "constructor" !in WindowLookup && "constructor" in ObjectPrototypeNames
  {
  }
}
