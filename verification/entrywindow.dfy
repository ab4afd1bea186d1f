/**
 * The entry-window scripts: for each bot, enable it five minutes before
 * its earliest entry time and set it to disable on close five minutes
 * after its latest one. Two test loops read the times from a browser
 * session's entry settings; the example script reads them from each bot's
 * entry condition and runs only on weekdays.
 *
 * Every call into code outside the model (the browser session, the
 * scheduler, a bot's scheduling methods) is recorded as an `Effect`, and
 * the parameter `succeeds` says whether that call returns or raises.
 */
module EntryWindow {
  import opened Common
  import opened Values
  import opened TimeOfDay
  import Bots

  const Zone: string := "America/New_York"

  /** Minutes between enabling a bot and its earliest entry, and between its latest entry and the soft disable. */
  const Lead: int := 5

  /** `NO_TOUCHY_BOTS` as the example script ships it. */
  const NoTouchyBots: seq<string> := ["WFNVC6MY4G", "etc..."]

  const DayNames: seq<string> := ["m", "t", "w", "th", "f", "sa", "su"]

  const StopTime: string := "4:30 PM"

  /** The calls `run_main` makes before its loop: open the browser, start the scheduler, schedule its stop. */
  const Setup: seq<Effect> := [OpenBrowser, StartScheduler, StopSchedulerAt(StopTime, Zone)]
  const ReminderMessage: string := "Script will stop in 5 min!"

  datatype Effect =
    | EnableNow(bot: string)                                  // via_selenium.enable_by_bot_num
    | DisableOnCloseNow(bot: string)                          // via_selenium.disable_on_close_by_bot_num
    | EnableAt(botNumber: Json, time: string, zone: string)   // a bot's enable, at a time of day
    | DisableAt(botNumber: Json, time: string, zone: string)  // a bot's soft disable, at a time of day
    | OpenBrowser                                             // via_selenium.enable(user, password, ...)
    | StartScheduler
    | StopSchedulerAt(time: string, zone: string)
    | AddTask(time: string, zone: string, message: string)

  datatype Skip = NotListed | SettingsUnreadable | NoEntryTimes | BadTimeFormat | NoTouchy

  /** What a loop decides for one bot: skip it, or enable and disable it at these times of day. */
  datatype Decision = Skipped(why: Skip) | Planned(enableAt: Minute, disableAt: Minute)

  // -------------------------------------------------------- reading times

  /** How a script reads an entry time. */
  datatype Reader =
    | AnyClock    // `parse_time`: '%I:%M %p', then '%H:%M'; a value that is not text raises inside and reads as nothing
    | Strict12    // '%Y-%m-%d %I:%M %p' on today's date, a blank and the value: blanks before the value are absorbed

  function Read(reader: Reader, o: Option<Json>): (r: Option<Minute>)
    ensures Blank(o) ==> r.None?
    ensures r.Some? ==> o.Some? && o.value.JStr?
  {
    if o.None? || !o.value.JStr? then None
    else
      var s := o.value.s;
      assert s == [] ==> Parse12(s).None? && Parse24(s).None?;
      match reader
      case AnyClock => ParseTime(s)
      case Strict12 => Parse12(TrimLeadingSpace(s))
  }

  /** The skip rules shared by every loop once a bot's two entry times are in hand, and the window they yield. */
  function Plan(start: Option<Json>, end: Option<Json>, reader: Reader): (d: Decision)
    ensures d.Planned? <==> Read(reader, start).Some? && Read(reader, end).Some?
    ensures d.Planned? ==> Shift(d.enableAt, Lead) == Read(reader, start).value
    ensures d.Planned? ==> Shift(d.disableAt, -Lead) == Read(reader, end).value
    ensures d.Skipped? ==> d.why == (if Blank(start) || Blank(end) then NoEntryTimes else BadTimeFormat)
  {
    if Blank(start) || Blank(end) then Skipped(NoEntryTimes)
    else
      match (Read(reader, start), Read(reader, end))
      case (Some(first), Some(last)) =>
        ShiftBack(first, -Lead);
        ShiftBack(last, Lead);
        Planned(Shift(first, -Lead), Shift(last, Lead))
      case _ => Skipped(BadTimeFormat)
  }

  // ------------------------------------------------------ the test loops

  /** `bot_num in WD.bot_number_list`. */
  predicate Listed(numbers: seq<Json>, num: string) {
    exists i :: 0 <= i < |numbers| && PyEq(numbers[i], JStr(num))
  }

  /**
   * The skip rules of both test loops: an unlisted bot is skipped before
   * its settings are fetched; settings that cannot be fetched, or are not
   * a dict, skip it too; then the two entry times decide.
   */
  function TestDecision(num: string, numbers: seq<Json>, settings: string -> Option<Json>): (d: Decision)
    ensures !Listed(numbers, num) ==> d == Skipped(NotListed)
    ensures Listed(numbers, num) && (settings(num).None? || !settings(num).value.JObj?) ==> d == Skipped(SettingsUnreadable)
    ensures Listed(numbers, num) && settings(num).Some? && settings(num).value.JObj? ==>
      d == Plan(Get(settings(num).value.fields, "entry_time_start"), Get(settings(num).value.fields, "entry_time_end"), AnyClock)
  {
    if !Listed(numbers, num) then Skipped(NotListed)
    else match settings(num)
      case None => Skipped(SettingsUnreadable)
      case Some(j) =>
        if !j.JObj? then Skipped(SettingsUnreadable)
        else Plan(Get(j.fields, "entry_time_start"), Get(j.fields, "entry_time_end"), AnyClock)
  }

  /** The calls a test loop made, and the bots it appended to `scheduled`. */
  datatype Run = Run(effects: seq<Effect>, scheduled: seq<string>)

  /** The bot went through the first test loop: planned, enabled and set to disable on close. */
  predicate ScheduledNow(num: string, numbers: seq<Json>, settings: string -> Option<Json>, succeeds: Effect -> bool) {
    && TestDecision(num, numbers, settings).Planned?
    && succeeds(EnableNow(num))
    && succeeds(DisableOnCloseNow(num))
  }

  /** One bot of `test_schedule_enable_disable_for_active_bots`. */
  function ScheduleNowOne(num: string, numbers: seq<Json>, settings: string -> Option<Json>, succeeds: Effect -> bool): (r: Run)
    ensures r.scheduled == (if ScheduledNow(num, numbers, settings, succeeds) then [num] else [])
    ensures r.effects == [] <==> TestDecision(num, numbers, settings).Skipped?
    ensures r.effects <= [EnableNow(num), DisableOnCloseNow(num)]
    ensures |r.effects| == 2 <==> TestDecision(num, numbers, settings).Planned? && succeeds(EnableNow(num))
  {
    if TestDecision(num, numbers, settings).Skipped? then Run([], [])
    else if !succeeds(EnableNow(num)) then Run([EnableNow(num)], [])
    else Run([EnableNow(num), DisableOnCloseNow(num)], if succeeds(DisableOnCloseNow(num)) then [num] else [])
  }

  /**
   * `test_schedule_enable_disable_for_active_bots`: a bot is appended to
   * `scheduled` exactly when it was planned and both calls returned, and
   * no call is made for a bot that was skipped.
   */
  function ScheduleNow(active: seq<string>, numbers: seq<Json>, settings: string -> Option<Json>, succeeds: Effect -> bool): (r: Run)
    ensures forall b :: b in r.scheduled <==> b in active && ScheduledNow(b, numbers, settings, succeeds)
    ensures |r.scheduled| <= |active|
    ensures forall b :: b in r.scheduled ==> EnableNow(b) in r.effects && DisableOnCloseNow(b) in r.effects
    ensures forall e :: e in r.effects ==>
      && (e.EnableNow? || e.DisableOnCloseNow?)
      && e.bot in active
      && TestDecision(e.bot, numbers, settings).Planned?
    decreases |active|
  {
    if active == [] then Run([], [])
    else
      var one := ScheduleNowOne(active[0], numbers, settings, succeeds);
      var rest := ScheduleNow(active[1..], numbers, settings, succeeds);
      assert forall b :: b in active[1..] ==> b in active;
      Run(one.effects + rest.effects, one.scheduled + rest.scheduled)
  }

  /** The bot went through the second test loop: planned, found in the registry, and both scheduling calls returned. */
  predicate ScheduledAt(num: string, bots: seq<Bots.Bot>, numbers: seq<Json>, settings: string -> Option<Json>, succeeds: Effect -> bool) {
    var d := TestDecision(num, numbers, settings);
    var found := Bots.Find(bots, num);
    && d.Planned?
    && found.Found?
    && succeeds(EnableAt(Bots.Number(found.bot), Format12(d.enableAt), Zone))
    && succeeds(DisableAt(Bots.Number(found.bot), Format12(d.disableAt), Zone))
  }

  /**
   * One bot of `test_schedule_enable_disable_for_active_bots_v2`. A number
   * the registry does not hold makes `WD.bots(bot_num)` return `None`, and
   * the attribute lookup on it raises before any call.
   */
  function ScheduleAtOne(num: string, bots: seq<Bots.Bot>, numbers: seq<Json>, settings: string -> Option<Json>,
                         succeeds: Effect -> bool): (r: Run)
    ensures r.scheduled == (if ScheduledAt(num, bots, numbers, settings, succeeds) then [num] else [])
    ensures r.effects != [] <==> TestDecision(num, numbers, settings).Planned? && Bots.Find(bots, num).Found?
    ensures r.effects != [] ==>
      var d := TestDecision(num, numbers, settings);
      var n := Bots.Number(Bots.Find(bots, num).bot);
      r.effects <= [EnableAt(n, Format12(d.enableAt), Zone), DisableAt(n, Format12(d.disableAt), Zone)]
  {
    var d := TestDecision(num, numbers, settings);
    match d
    case Skipped(_) => Run([], [])
    case Planned(enableAt, disableAt) =>
      match Bots.Find(bots, num)
      case NotFound(_) => Run([], [])
      case Found(bot) =>
        var enable := EnableAt(Bots.Number(bot), Format12(enableAt), Zone);
        var disable := DisableAt(Bots.Number(bot), Format12(disableAt), Zone);
        if !succeeds(enable) then Run([enable], [])
        else Run([enable, disable], if succeeds(disable) then [num] else [])
  }

  /** `test_schedule_enable_disable_for_active_bots_v2`. */
  function ScheduleAt(active: seq<string>, bots: seq<Bots.Bot>, numbers: seq<Json>, settings: string -> Option<Json>,
                      succeeds: Effect -> bool): (r: Run)
    ensures forall b :: b in r.scheduled <==> b in active && ScheduledAt(b, bots, numbers, settings, succeeds)
    ensures |r.scheduled| <= |active|
    ensures forall e :: e in r.effects ==> e.EnableAt? || e.DisableAt?
    decreases |active|
  {
    if active == [] then Run([], [])
    else
      var one := ScheduleAtOne(active[0], bots, numbers, settings, succeeds);
      var rest := ScheduleAt(active[1..], bots, numbers, settings, succeeds);
      AppendedInOrder(active, b => ScheduledAt(b, bots, numbers, settings, succeeds), one.scheduled, rest.scheduled);
      Run(one.effects + rest.effects, one.scheduled + rest.scheduled)
  }

  /**
   * The `scheduled` list of a test loop: the first active bot when it
   * passed, followed by the later ones that passed.
   */
  lemma AppendedInOrder(active: seq<string>, passed: string -> bool, one: seq<string>, rest: seq<string>)
    requires active != []
    requires one == (if passed(active[0]) then [active[0]] else [])
    requires forall b :: b in rest <==> b in active[1..] && passed(b)
    requires |rest| <= |active| - 1
    ensures forall b :: b in one + rest <==> b in active && passed(b)
    ensures |one + rest| <= |active|
  {
    assert active == [active[0]] + active[1..];
  }

  // --------------------------------------------------- the example script

  /** The example's calls so far, and whether one of them, or a bot's entry condition, raised. */
  datatype MainRun = Finished(effects: seq<Effect>) | Crashed(effects: seq<Effect>, cause: Crash)

  datatype Crash = EntryConditionNotDict(botNumber: Json) | CallRaised(call: Effect)

  /** The weekend gate: the day names at index 5 and 6 are 'sa' and 'su'. */
  function IsWeekend(weekday: int): (w: bool)
    requires 0 <= weekday < |DayNames|
    ensures w <==> weekday >= 5
  {
    DayNames[weekday] == "sa" || DayNames[weekday] == "su"
  }

  /** `bot_num in NO_TOUCHY_BOTS`. */
  predicate Untouchable(num: Json) {
    exists i :: 0 <= i < |NoTouchyBots| && PyEq(JStr(NoTouchyBots[i]), num)
  }

  /**
   * The skip rules of the example script for one bot: the no-touchy list
   * first, then the entry condition, whose `.get` raises when it is not a
   * dict, then the two entry times read strictly as 12-hour times.
   */
  function MainDecision(bot: Bots.Bot): (r: Result<Decision, Crash>)
    ensures Untouchable(Bots.Number(bot)) ==> r == Ok(Skipped(NoTouchy))
    ensures r.Err? <==> !Untouchable(Bots.Number(bot)) && !Bots.EntryCondition(bot).JObj?
    ensures r.Err? ==> r.error == EntryConditionNotDict(Bots.Number(bot))
    ensures !Untouchable(Bots.Number(bot)) && Bots.EntryCondition(bot).JObj? ==>
      r == Ok(Plan(Get(Bots.EntryCondition(bot).fields, "earliest_time_of_day"),
                   Get(Bots.EntryCondition(bot).fields, "latest_time_of_day"), Strict12))
  {
    var num := Bots.Number(bot);
    if Untouchable(num) then Ok(Skipped(NoTouchy))
    else
      var condition := Bots.EntryCondition(bot);
      if !condition.JObj? then Err(EntryConditionNotDict(num))
      else Ok(Plan(Get(condition.fields, "earliest_time_of_day"), Get(condition.fields, "latest_time_of_day"), Strict12))
  }

  /** A rule that decides what the example does with one bot. */
  type Decide = Bots.Bot -> Result<Decision, Crash>

  /** The two scheduling calls the example makes for a planned bot. */
  function PlannedCalls(bot: Bots.Bot, enableAt: Minute, disableAt: Minute): seq<Effect> {
    [EnableAt(Bots.Number(bot), Format12(enableAt), Zone), DisableAt(Bots.Number(bot), Format12(disableAt), Zone)]
  }

  /** Make the calls in order; the first that raises ends the run, as nothing in the example catches it. */
  function Call(calls: seq<Effect>, succeeds: Effect -> bool): (r: MainRun)
    ensures r.Finished? <==> forall i :: 0 <= i < |calls| ==> succeeds(calls[i])
    ensures r.Finished? ==> r.effects == calls
    ensures r.Crashed? ==>
      var k := |r.effects| - 1;
      && 0 <= k < |calls| && r.effects == calls[..k + 1]
      && r.cause == CallRaised(calls[k]) && !succeeds(calls[k])
      && forall i :: 0 <= i < k ==> succeeds(calls[i])
  {
    if calls == [] then Finished([])
    else if !succeeds(calls[0]) then Crashed([calls[0]], CallRaised(calls[0]))
    else
      match Call(calls[1..], succeeds)
      case Finished(rest) => Finished([calls[0]] + rest)
      case Crashed(rest, cause) =>
        TakeBehindHead(calls, |rest|);
        Crashed([calls[0]] + rest, cause)
  }

  /** The second run after the first, if the first finished. */
  function Then(first: MainRun, second: MainRun): (r: MainRun)
    ensures r.Finished? <==> first.Finished? && second.Finished?
    ensures first.Crashed? ==> r == first
    ensures first.Finished? ==> r.effects == first.effects + second.effects
    ensures first.Finished? && second.Crashed? ==> r.cause == second.cause
  {
    match first
    case Crashed(_, _) => first
    case Finished(done) =>
      match second
      case Finished(more) => Finished(done + more)
      case Crashed(more, cause) => Crashed(done + more, cause)
  }

  /** Every call in `effects` is one the example makes for some bot of `bots`. */
  predicate CallsFor(bots: seq<Bots.Bot>, decide: Decide, effects: seq<Effect>) {
    forall e :: e in effects ==> exists i :: 0 <= i < |bots| && EntryCallOf(bots[i], decide, e)
  }

  /** No bot of `bots` made the loop raise. */
  predicate AllDecided(bots: seq<Bots.Bot>, decide: Decide) {
    forall i :: 0 <= i < |bots| ==> decide(bots[i]).Ok?
  }

  /** Both calls for each planned bot of `bots` are among `effects`. */
  ghost predicate AllPlannedCalled(bots: seq<Bots.Bot>, decide: Decide, effects: seq<Effect>) {
    forall i, e :: 0 <= i < |bots| && EntryCallOf(bots[i], decide, e) ==> e in effects
  }

  /**
   * The loop over `bots_list.all` of `run_main`, for a rule `decide` that
   * says what to do with one bot (`MainDecision` in the script).
   */
  function ScheduleEntries(bots: seq<Bots.Bot>, decide: Decide, succeeds: Effect -> bool): (r: MainRun)
    ensures CallsFor(bots, decide, r.effects)
    ensures r.Finished? ==> AllDecided(bots, decide) && AllPlannedCalled(bots, decide, r.effects)
    decreases |bots|
  {
    if bots == [] then Finished([])
    else
      var rest := ScheduleEntries(bots[1..], decide, succeeds);
      match decide(bots[0])
      case Err(cause) => Crashed([], cause)
      case Ok(Skipped(_)) =>
        EntriesAfterSkip(bots, decide, rest);
        rest
      case Ok(Planned(enableAt, disableAt)) =>
        var head := Call(PlannedCalls(bots[0], enableAt, disableAt), succeeds);
        EntriesAfterPlanned(bots, decide, head, rest);
        Then(head, rest)
  }

  /** A skipped first bot adds no call, and the rest of the loop speaks for the whole. */
  lemma EntriesAfterSkip(bots: seq<Bots.Bot>, decide: Decide, rest: MainRun)
    requires bots != [] && decide(bots[0]).Ok? && decide(bots[0]).value.Skipped?
    requires CallsFor(bots[1..], decide, rest.effects)
    requires rest.Finished? ==> AllDecided(bots[1..], decide) && AllPlannedCalled(bots[1..], decide, rest.effects)
    ensures CallsFor(bots, decide, rest.effects)
    ensures rest.Finished? ==> AllDecided(bots, decide) && AllPlannedCalled(bots, decide, rest.effects)
  {
    CallsForTail(bots, decide, rest.effects);
    if rest.Finished? {
      DecidedTail(bots, decide);
      forall i, e | 0 <= i < |bots| && EntryCallOf(bots[i], decide, e)
        ensures e in rest.effects
      {
        assert i > 0 && bots[i] == bots[1..][i - 1];
      }
    }
  }

  /** A planned first bot's calls come first, then those of the rest of the loop. */
  lemma EntriesAfterPlanned(bots: seq<Bots.Bot>, decide: Decide, head: MainRun, rest: MainRun)
    requires bots != [] && decide(bots[0]).Ok? && decide(bots[0]).value.Planned?
    requires forall e :: e in head.effects ==> EntryCallOf(bots[0], decide, e)
    requires head.Finished? ==> forall e :: EntryCallOf(bots[0], decide, e) ==> e in head.effects
    requires CallsFor(bots[1..], decide, rest.effects)
    requires rest.Finished? ==> AllDecided(bots[1..], decide) && AllPlannedCalled(bots[1..], decide, rest.effects)
    ensures CallsFor(bots, decide, Then(head, rest).effects)
    ensures Then(head, rest).Finished? ==> AllDecided(bots, decide) && AllPlannedCalled(bots, decide, Then(head, rest).effects)
  {
    var r := Then(head, rest);
    CallsForTail(bots, decide, rest.effects);
    forall e | e in r.effects
      ensures exists i :: 0 <= i < |bots| && EntryCallOf(bots[i], decide, e)
    {
      if e in head.effects { assert EntryCallOf(bots[0], decide, e); }
      else { assert e in rest.effects; }
    }
    if r.Finished? {
      DecidedTail(bots, decide);
      forall i, e | 0 <= i < |bots| && EntryCallOf(bots[i], decide, e)
        ensures e in r.effects
      {
        if i == 0 { assert e in head.effects; }
        else { assert bots[i] == bots[1..][i - 1]; assert e in rest.effects; }
      }
    }
  }

  lemma CallsForTail(bots: seq<Bots.Bot>, decide: Decide, effects: seq<Effect>)
    requires bots != [] && CallsFor(bots[1..], decide, effects)
    ensures CallsFor(bots, decide, effects)
  {
    forall e | e in effects
      ensures exists i :: 0 <= i < |bots| && EntryCallOf(bots[i], decide, e)
    {
      var j :| 0 <= j < |bots[1..]| && EntryCallOf(bots[1..][j], decide, e);
      assert bots[j + 1] == bots[1..][j];
    }
  }

  lemma DecidedTail(bots: seq<Bots.Bot>, decide: Decide)
    requires bots != [] && decide(bots[0]).Ok? && AllDecided(bots[1..], decide)
    ensures AllDecided(bots, decide)
  {
    forall i | 0 < i < |bots|
      ensures decide(bots[i]).Ok?
    {
      assert bots[i] == bots[1..][i - 1];
    }
  }

  /** `e` is one of the two calls the example makes for `bot`. */
  predicate EntryCallOf(bot: Bots.Bot, decide: Decide, e: Effect) {
    var d := decide(bot);
    && d.Ok? && d.value.Planned?
    && e in PlannedCalls(bot, d.value.enableAt, d.value.disableAt)
  }

  /** The reminder's time: five minutes before '16:30', written as `%I:%M %p`. */
  function ReminderTime(): (t: string)
    ensures t == "04:25 PM"
  {
    ReadsReminderBase();
    FormatsReminder();
    Format12(Shift(Parse24("16:30").value, -Lead))
  }

  /** `run_main`, on the day of the week `weekday` (0 for Monday), for the bots of the registry. */
  function RunMain(weekday: int, bots: seq<Bots.Bot>, succeeds: Effect -> bool): (r: MainRun)
    requires 0 <= weekday < 7
    ensures IsWeekend(weekday) ==> r == Finished([])
    ensures !IsWeekend(weekday) ==> r.effects != [] && r.effects[0] == OpenBrowser
    ensures !IsWeekend(weekday) ==> r.effects <= Setup || Setup <= r.effects
    ensures !IsWeekend(weekday) && r.Finished? ==> Setup <= r.effects
    ensures r.Finished? && !IsWeekend(weekday) ==>
      r.effects[|r.effects| - 1] == AddTask("04:25 PM", Zone, ReminderMessage)
  {
    if IsWeekend(weekday) then Finished([])
    else
      var reminder := ReminderTime();
      var setup := Call(Setup, succeeds);
      var entries := ScheduleEntries(bots, MainDecision, succeeds);
      var last := Call([AddTask(reminder, Zone, ReminderMessage)], succeeds);
      Then(Then(setup, entries), last)
  }

  // -------------------------------------------------------------- proofs

  /** No call of the example names a bot on the no-touchy list. */
  lemma UntouchableNeverCalled(bots: seq<Bots.Bot>, succeeds: Effect -> bool)
    ensures forall e :: e in ScheduleEntries(bots, MainDecision, succeeds).effects ==>
      (e.EnableAt? || e.DisableAt?) && !Untouchable(e.botNumber)
  {
    var r := ScheduleEntries(bots, MainDecision, succeeds);
    forall e | e in r.effects
      ensures (e.EnableAt? || e.DisableAt?) && !Untouchable(e.botNumber)
    {
      var i :| 0 <= i < |bots| && EntryCallOf(bots[i], MainDecision, e);
      PlannedCallNamesBot(bots[i], e);
    }
  }

  /** A call the example makes for a bot is a timed call naming that bot, which is not on the no-touchy list. */
  lemma PlannedCallNamesBot(bot: Bots.Bot, e: Effect)
    requires EntryCallOf(bot, MainDecision, e)
    ensures (e.EnableAt? || e.DisableAt?) && e.botNumber == Bots.Number(bot)
    ensures !Untouchable(Bots.Number(bot))
  {
  }

  /**
   * A weekday run of the example that finishes has enabled every bot it
   * planned five minutes before its earliest entry, and set it to disable
   * five minutes after its latest one.
   */
  lemma RunMainSchedulesPlanned(weekday: int, bots: seq<Bots.Bot>, succeeds: Effect -> bool)
    requires 0 <= weekday < 7
    ensures var r := RunMain(weekday, bots, succeeds);
      r.Finished? && !IsWeekend(weekday) ==>
        forall i :: 0 <= i < |bots| && MainDecision(bots[i]).Ok? && MainDecision(bots[i]).value.Planned? ==>
          var d := MainDecision(bots[i]).value;
          && EnableAt(Bots.Number(bots[i]), Format12(d.enableAt), Zone) in r.effects
          && DisableAt(Bots.Number(bots[i]), Format12(d.disableAt), Zone) in r.effects
  {
    var r := RunMain(weekday, bots, succeeds);
    if r.Finished? && !IsWeekend(weekday) {
      var setup := Call(Setup, succeeds);
      var entries := ScheduleEntries(bots, MainDecision, succeeds);
      ReadsReminderBase();
      FormatsReminder();
      var last := Call([AddTask("04:25 PM", Zone, ReminderMessage)], succeeds);
      assert r == Then(Then(setup, entries), last);
      assert entries.Finished?;
      assert r.effects == setup.effects + entries.effects + last.effects;
      forall i | 0 <= i < |bots| && MainDecision(bots[i]).Ok? && MainDecision(bots[i]).value.Planned?
        ensures EnableAt(Bots.Number(bots[i]), Format12(MainDecision(bots[i]).value.enableAt), Zone) in r.effects
        ensures DisableAt(Bots.Number(bots[i]), Format12(MainDecision(bots[i]).value.disableAt), Zone) in r.effects
      {
        var d := MainDecision(bots[i]).value;
        var calls := PlannedCalls(bots[i], d.enableAt, d.disableAt);
        assert calls[0] in calls && calls[1] in calls;
        assert calls[0] in entries.effects && calls[1] in entries.effects;
      }
    }
  }
}
