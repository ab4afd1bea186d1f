# WhisperDriver core, modelled in Dafny

WhisperDriver is a Python client for the WhisperTrades.com API. This project
models its core:

- **The rate-limit gate (`WhisperTradesThrottle`).** Every request passes
  through it. When the gate is on, it sleeps `delay_sec` seconds (2 by
  default) before the request runs. It can be switched on and off, and its
  delay can be set.
- **The endpoint layer (`WhisperTradesEndpoints`).** It builds each URL from
  the server root and the endpoint path, refuses calls that lack required
  arguments, and sends one gated request per call. `format_response` then
  unwraps the response's JSON body and warns about failures. An
  'unauthorized' failure raises.
- **The bot registry (`WhisperTradesBots`).** It holds a list of bot objects,
  each built from defaults overlaid with a fetched dict. Bots can be found
  by number, added with replace-by-number semantics, removed, filtered by
  status, and rebuilt from the server. Fetched variables are copied into each
  bot's variable list. A bot can also ask for one of its variables to be set.
- **The entry-window scripts.** These are the two loops of `test.py` and the
  `run_main` of `example.py`. For each bot they read its earliest and latest
  entry times, as 12-hour (`%I:%M %p`) or 24-hour (`%H:%M`) text. The bot is
  enabled five minutes before its earliest entry and soft-disabled five
  minutes after its latest one. The scripts skip unlisted bots, bots with a
  blank or unparseable time, the no-touchy list, and weekends.

The model is split into modules as follows:

- `Values`: JSON values with Python's `==`, truthiness and `str.lower`.
- `Throttle`: the gate.
- `Urls`: `posixpath.join` and `urljoin`.
- `Endpoints`: the endpoint layer.
- `Bots`: the registry.
- `BotCalls`: a bot's call into the endpoints.
- `TimeOfDay`: `strptime` and `strftime` for the two clock formats.
- `EntryWindow`: the scripts.

Effects that leave the process are values in a trace; none of them is performed:

- The network is a `transport` function inside the client.
- A sleep is a `Sleep(seconds)` step.
- A Selenium or scheduler call is an `Effect`. An oracle parameter
  `succeeds` decides whether each one raises.

Python exceptions become explicit error results.

Three behaviours of the code are worth stating plainly, because a reader
might expect otherwise:

- **Throttle delay.** `set_delay_sec` accepts any integer, including a
  negative one. `time.sleep` then raises on the next gated call, so
  `Throttle.Run` returns `SleepRejected`.
- **Time formats.** The `strptime` formats accept one-digit or two-digit
  hours and minutes, any run of whitespace before the meridian, and AM/PM
  in any letter case.
- **Concurrency.** The gate has no lock, and this model is sequential.

## Model

| member | source | states |
|---|---|---|
| Throttle.New | WhisperDriver/Obj/throttle.py:13-15 | a new gate is on, with a delay of 2 seconds |
| Throttle.Run | WhisperDriver/Obj/throttle.py:17-23 | the gated work runs exactly once, as the last step, and its value is handed back unchanged; when on, the gate sleeps `delay_sec` first, and when off it does not sleep; a negative delay while on stops the call before the work runs |
| Throttle.Enable | WhisperDriver/Obj/throttle.py:25-31 | after `enable` the gate is on and the delay is untouched |
| Throttle.Disable | WhisperDriver/Obj/throttle.py:33-39 | after `disable` the gate is off and the delay is untouched |
| Throttle.SetDelaySec | WhisperDriver/Obj/throttle.py:41-49 | the delay becomes the given value, negative included, and the on/off state is untouched |
| Throttle.EnableIdempotent | WhisperDriver/Obj/throttle.py:25-31 | enabling twice is enabling once; enabling an enabled gate changes nothing |
| Throttle.DisableIdempotent | WhisperDriver/Obj/throttle.py:33-39 | disabling twice is disabling once; disabling a disabled gate changes nothing |
| Throttle.TogglesCommuteWithDelay | WhisperDriver/Obj/throttle.py:25-49 | toggling and setting the delay commute, and the last toggle alone decides the state |
| Throttle.DisabledRunsImmediately | WhisperDriver/Obj/throttle.py:20-23 | a disabled gate calls the work with no sleep step |
| Endpoints.FormatResponse | WhisperDriver/Obj/endpoints.py:26-36 | a successful response gives no warning; a failed dict response is warned about, carrying its 'message'; for a dict body it raises the invalid-token error exactly when it failed with reason 'unauthorized' in any case, and the invalid-token error never comes from anything else; a failed body that is null, a boolean or a number raises TypeError at the `'message' in` test, before any warning or token check; otherwise a dict's value is the 'data' field when present and the whole body when not |
| Endpoints.Perform | WhisperDriver/Obj/endpoints.py:64-68 | the built request is sent exactly once through the gate when the gate admits it, and its response is unwrapped; nothing is sent when the sleep raises; a sent request is never mistaken for an argument guard's refusal |
| Endpoints.GetBot | WhisperDriver/Obj/endpoints.py:50-68 | a GET of the bot's URL, with the details flag and the status list as query parameters and the bearer header, sent once through the gate |
| Endpoints.GetAllBots | WhisperDriver/Obj/endpoints.py:70-77 | a GET of the server root plus 'bots/', with details included and no status filter |
| Endpoints.EnableBot | WhisperDriver/Obj/endpoints.py:79-92 | a PUT of the bot's 'enable' URL, sent once through the gate |
| Endpoints.DisableBot | WhisperDriver/Obj/endpoints.py:94-107 | a PUT of the bot's 'disable' URL, sent once through the gate |
| Endpoints.GetBotReport | WhisperDriver/Obj/endpoints.py:116-129 | a GET of the report's URL under 'bots/reports/' |
| Endpoints.GetAllBotReports | WhisperDriver/Obj/endpoints.py:131-138 | a GET of the server root plus 'bots/reports/' |
| Endpoints.UpdateBotReport | WhisperDriver/Obj/endpoints.py:140-174 | as written: it raises before any request exactly when the name, start date or end date is empty; otherwise one PUT carries all four fields |
| Endpoints.UpdateBotReportDefaultsRaise | WhisperDriver/Obj/endpoints.py:140-174 | called with its default arguments, the as-written function sends nothing and raises |
| Endpoints.PrunedReportPayload | WhisperDriver/Obj/endpoints.py:161-171 | the payload keeps 'run_until_latest_date' and exactly those text fields that are non-empty, each with its given value |
| Endpoints.UpdateBotReportPruned | WhisperDriver/Obj/endpoints.py:161-173 | the corrected update sends one PUT with the pruned payload and never raises the iteration error |
| Endpoints.PrunedSendsGivenFields | WhisperDriver/Obj/endpoints.py:161-173 | with only a name given, the corrected update sends exactly the name and the run-until-latest flag |
| Endpoints.RunBotReport | WhisperDriver/Obj/endpoints.py:176-193 | an empty report number is refused with ValueError before any request, and only then; otherwise one PUT of the report's 'run' URL is sent |
| Endpoints.GetBotVariables | WhisperDriver/Obj/endpoints.py:202-215 | a GET of the variable's URL under 'bots/variables/' |
| Endpoints.GetAllBotVariables | WhisperDriver/Obj/endpoints.py:217-224 | a GET of the server root plus 'bots/variables/' |
| Endpoints.SetBotVariables | WhisperDriver/Obj/endpoints.py:226-246 | a call is refused before any request exactly when one of its three arguments is empty; otherwise one PUT of the variable's URL carries the name and the new value |
| Endpoints.BotUrl | WhisperDriver/Obj/endpoints.py:64 | for a plain bot number, the bot's URL is the server root plus 'bots/' and the number |
| Endpoints.EnableUrl | WhisperDriver/Obj/endpoints.py:89 | for a plain bot number, the enable URL is the server root plus 'bots/', the number and '/enable' |
| Endpoints.DisableUrl | WhisperDriver/Obj/endpoints.py:104 | for a plain bot number, the disable URL is the server root plus 'bots/', the number and '/disable' |
| Endpoints.ReportUrl | WhisperDriver/Obj/endpoints.py:126 | for a plain report number, the report's URL is the server root plus 'bots/reports/' and the number |
| Endpoints.RunReportUrl | WhisperDriver/Obj/endpoints.py:190 | for a plain report number, the run URL is the server root plus 'bots/reports/', the number and '/run' |
| Endpoints.VariableUrl | WhisperDriver/Obj/endpoints.py:212 | for a plain variable number, its URL is the server root plus 'bots/variables/' and the number |
| Endpoints.AllBotsTarget | WhisperDriver/Obj/endpoints.py:70-77 | the empty bot number addresses the whole 'bots/' collection |
| Endpoints.AllReportsTarget | WhisperDriver/Obj/endpoints.py:131-138 | the empty report number addresses the whole 'bots/reports/' collection |
| Endpoints.AllVariablesTarget | WhisperDriver/Obj/endpoints.py:217-224 | the empty variable number addresses the whole 'bots/variables/' collection |
| Endpoints.AbsoluteNumberEscapes | WhisperDriver/Obj/endpoints.py:89 | a bot number '/m' replaces both the endpoint path and the server's '/v1/' path: the enable URL is the host followed by '/m/enable' |
| Urls.Resolve | WhisperDriver/Obj/endpoints.py:64 | `urljoin` with an empty reference gives the server root itself, and every URL it resolves stays on the server's scheme and host |
| Urls.PlainAppends | WhisperDriver/Obj/endpoints.py:64 | merging a plain relative reference with the server's '/v1/' directory and removing dot segments gives the server root followed by the reference |
| Urls.AbsoluteReplaces | WhisperDriver/Obj/endpoints.py:89 | a reference that starts with '/' and has no dot segment replaces the server's whole path |
| Urls.ParentLeavesBase | WhisperDriver/Obj/endpoints.py:64 | the reference '..' climbs out of '/v1/' to the host's root '/' |
| Urls.SplitJoined | WhisperDriver/Obj/endpoints.py:64 | splitting a path at '/' and joining the pieces with '/' gives the path back |
| Bots.MakeBot | WhisperDriver/Obj/bots.py:102-135 | a bot has every default attribute and every key of its dict; the dict's values override, and the defaults fill the rest |
| Bots.Find | WhisperDriver/Obj/bots.py:18-23 | a bot is found exactly when one has the number under Python `==`; the result is the first such bot; otherwise the warning names the number |
| Bots.FirstWith | WhisperDriver/Obj/bots.py:95-97 | the index where the removal loop stops is the first bot with the number, or the list's length when there is none |
| Bots.Remove | WhisperDriver/Obj/bots.py:91-99 | the first bot with the number is deleted and all others are kept in order; with no such bot the list is unchanged |
| Bots.RemoveFacts | WhisperDriver/Obj/bots.py:91-99 | removal only drops bots; a bot without the number survives; on a list with distinct numbers, the result keeps them distinct and no bot with the number is left |
| Bots.Add | WhisperDriver/Obj/bots.py:77-89 | an empty dict is refused with a warning; a dict without 'number' raises; otherwise any bot with that number is replaced by the new bot at the end |
| Bots.AddKeepsDistinct | WhisperDriver/Obj/bots.py:77-89 | adding keeps the bot numbers distinct |
| Bots.UpdateAllBots | WhisperDriver/Obj/bots.py:40-46 | the rebuilt list has distinct numbers; it completes exactly when every fetched dict is empty or has a 'number'; then its bots are exactly those built from the last fetched dict of each number |
| Bots.AddAllDistinct | WhisperDriver/Obj/bots.py:44-45 | adding fetched dicts one by one keeps the numbers distinct |
| Bots.AddAllFails | WhisperDriver/Obj/bots.py:44-45 | the rebuild raises exactly when some fetched dict is non-empty and lacks 'number' |
| Bots.AddAllContents | WhisperDriver/Obj/bots.py:44-45 | after adding all fetched dicts, a bot is present exactly when it came from the last dict of its number, or was already there and no dict carries its number |
| Bots.StatusFilter | WhisperDriver/Obj/bots.py:59-75 | a status filter answers exactly when every status is text; it keeps exactly the bots whose lower-cased status equals the literal, and never more bots than it was given |
| Bots.IsEnabled | WhisperDriver/Obj/bots.py:59-63 | the enabled filter keeps exactly the bots whose lower-cased status is 'enabled' |
| Bots.IsDisabled | WhisperDriver/Obj/bots.py:65-69 | the disabled filter keeps exactly the bots whose lower-cased status is 'disabled' |
| Bots.IsDisabledOnClose | WhisperDriver/Obj/bots.py:71-75 | the disabled-on-close filter keeps exactly the bots whose lower-cased status is 'disabled on close' |
| Bots.StatusFilterOne | WhisperDriver/Obj/bots.py:59-75 | a one-bot list is kept exactly when its lower-cased status equals the literal |
| Bots.StatusFilterAppend | WhisperDriver/Obj/bots.py:59-75 | filtering a concatenation concatenates the filtered parts, so the order of the registry is kept |
| Bots.ReplaceEntries | WhisperDriver/Obj/bots.py:35-37 | one fetched variable replaces exactly the entries whose number equals its number; the length is kept |
| Bots.MergeInto | WhisperDriver/Obj/bots.py:34-37 | one fetched variable merged into a bot rewrites only its variable list, by replacing the matching entries; every other attribute is kept |
| Bots.MergeVariable | WhisperDriver/Obj/bots.py:34-37 | one fetched variable is merged into each bot of the list in turn, keeping the list's length and order |
| Bots.MergeAll | WhisperDriver/Obj/bots.py:33-37 | merging every fetched variable keeps each bot's attributes other than its variables, and the lengths of the variable lists |
| Bots.MergeAllSpec | WhisperDriver/Obj/bots.py:33-37 | after the merge, each variable entry is the last fetched variable with its number, or is unchanged when none has it |
| Bots.GetAllBotVariables | WhisperDriver/Obj/bots.py:25-38 | the fetched variables are returned unchanged; each bot keeps its other attributes and its number of variables; each entry becomes the last fetched variable with its number |
| Bots.LastMatch | WhisperDriver/Obj/bots.py:33-37 | the index found is the last fetched variable whose number equals the given one, or -1 when there is none |
| Bots.LastMatchCongruent | WhisperDriver/Obj/bots.py:36 | numbers equal under Python `==` find the same fetched variable |
| Bots.SetVariable | WhisperDriver/Obj/bots.py:154-175 | the update is requested exactly when all three arguments are non-empty and the bot holds a variable with that number; the missing-argument warning is given exactly when an argument is empty |
| Bots.KnownVariable | WhisperDriver/Obj/bots.py:170-173 | a variable number is known exactly when some entry's number equals it |
| BotCalls.SetBotVariables | WhisperDriver/Obj/bots.py:154-175 | a bot's update reaches the variables endpoint exactly when the arguments are non-empty and the variable is the bot's; then the endpoint does not refuse it and sends one PUT with the name and the value |
| TimeOfDay.Shift | test.py:163-164 | moving a time of day by a number of minutes wraps around midnight |
| TimeOfDay.ShiftBack | example.py:58-59 | moving a time by some minutes and then back by the same amount returns the original time |
| TimeOfDay.Parse12Of | test.py:150 | text made of an hour of one or two digits from 1 to 12, ':', a minute of one or two digits below 60, whitespace and AM or PM in any case reads as that hour on the 12-hour clock and that minute |
| TimeOfDay.Parse12Sound | test.py:150 | every successful 12-hour reading comes from text of that shape, and its time is the one that shape gives |
| TimeOfDay.Parse24Exactly | test.py:153 | a text reads as a given 24-hour time exactly when it is an hour of one or two digits below 24, ':' and a minute of one or two digits below 60 that give that time |
| TimeOfDay.ReadingsDisjoint | test.py:148-155 | no text reads both as a 12-hour and as a 24-hour time |
| TimeOfDay.ParseTime | test.py:148-155 | `parse_time` succeeds exactly when one of the two readings succeeds, and gives that reading's time |
| TimeOfDay.Format12 | example.py:58-59 | `%I:%M %p` output is eight characters: two-digit hour, ':', two-digit minute, a space, and AM or PM |
| TimeOfDay.ParseFormat12 | example.py:58-59 | reading back the `%I:%M %p` text of a time gives the same time |
| TimeOfDay.ParseFormat24 | test.py:153 | reading back the `%H:%M` text of a time gives the same time |
| TimeOfDay.ParseTimeFormat12 | test.py:148-155 | `parse_time` of a `%I:%M %p` text gives back its time |
| TimeOfDay.ParseTimeFormat24 | test.py:148-155 | `parse_time` of a `%H:%M` text gives back its time |
| TimeOfDay.ReadsHalfPastTwo | test.py:150 | '2:30 PM' is 14:30 |
| TimeOfDay.ReadsMidnight | test.py:150 | '12:00 AM' is midnight |
| TimeOfDay.ReadsAfterNoon | test.py:150 | '12:05 PM' is 12:05 |
| TimeOfDay.ReadsTwentyFourHour | test.py:148-155 | `parse_time` falls back to the 24-hour reading and reads '13:00' as 13:00 |
| TimeOfDay.RejectsGluedMeridian | test.py:148-155 | '9:30AM' is rejected by both readings |
| TimeOfDay.ReadsStopTime | example.py:29 | the scheduler's stop time '4:30 PM' is 16:30 |
| TimeOfDay.ReadsReminderBase | example.py:71 | '16:30' read as `%H:%M` is 16:30 |
| TimeOfDay.FormatsReminder | example.py:71-72 | five minutes before 16:30 is written '04:25 PM' |
| EntryWindow.Read | example.py:47-55 | a blank entry time never yields a time, and a time comes only from a string |
| EntryWindow.Plan | test.py:156-164 | a bot is planned exactly when both entry times read; it is enabled five minutes before the earliest time and disabled five minutes after the latest; otherwise the skip reason is the blank or the bad format |
| EntryWindow.TestDecision | test.py:135-160 | an unlisted bot is skipped before its settings are read; unreadable or non-dict settings skip it; otherwise its two entry times decide |
| EntryWindow.ScheduleNowOne | test.py:135-175 | a skipped bot makes no call; a planned bot is enabled and then set to disable on close; it is recorded as scheduled exactly when both calls return |
| EntryWindow.ScheduleNow | test.py:129-177 | the scheduled bots are exactly the active bots that were planned and whose two calls returned; every call names an active, planned bot; each scheduled bot had both calls |
| EntryWindow.ScheduleAtOne | test.py:184-220 | calls are made exactly when the bot is planned and found in the registry; they are the timed enable and disable in `%I:%M %p` form, in the New York zone |
| EntryWindow.ScheduleAt | test.py:178-221 | the scheduled bots are exactly the active bots planned, found and scheduled; only timed enable and disable calls are made |
| EntryWindow.IsWeekend | example.py:18-19 | the day is a weekend day exactly when its index is 5 or 6 ('sa' or 'su') |
| EntryWindow.MainDecision | example.py:37-55 | a no-touchy bot is skipped; otherwise a non-dict entry condition raises; otherwise the bot is planned from its entry times read as `%I:%M %p` |
| EntryWindow.Call | example.py:62-64 | the calls run in order; the run finishes exactly when every call returns, and otherwise it stops at the first call that raises |
| EntryWindow.Then | example.py:36-74 | one part of the script follows another only when the first part finished |
| EntryWindow.ScheduleEntries | example.py:36-65 | for any rule deciding each bot: every call is one the rule plans for a bot of the registry; a finished loop decided every bot without raising and made every timed call it planned |
| EntryWindow.RunMain | example.py:15-74 | a weekend run does nothing; a weekday run first opens the browser, starts the scheduler and sets it to stop at '4:30 PM' New York time, stopping early only if one of these raises; a finished weekday run ends with the '04:25 PM' reminder task |
| EntryWindow.UntouchableNeverCalled | example.py:38-40 | no call of the loop names a bot on the no-touchy list |
| EntryWindow.RunMainSchedulesPlanned | example.py:36-65 | a finished weekday run enabled each planned bot five minutes before its earliest entry and set it to disable five minutes after its latest |

## Left out

- Network I/O is left out: the request is a value and the response comes from a transport function.
- JSON text encoding and decoding are left out: bodies are already-decoded JSON values.
- JSON numbers are integers. A number with a fraction or an exponent, which `json.loads` turns into a float, is not modelled, so `1.0 == 1` and a falsy `0.0` lie outside `Values.PyEq` and `Values.Falsy`.
- Warning texts are left out, apart from the 'not found' warning of the registry lookup. The text of a `ValueError` is left out too: the error records which argument guard raised and the arguments it reports.
- The throttle's sleep is a recorded step rather than a pause. There is no clock.
- `example.py` takes the day of the week as an input. The date text it prefixes to each entry time is left out, and only the time of day is kept.
- The scheduler, Selenium, the broker connection and the timed enable/disable of a bot are not part of this model. Their calls are recorded effects, and an oracle decides whether each one raises.
- `WD.update_all_bots_list`, `WD.bot_number_list` and `WD.via_selenium` are not part of this model. The scripts use them, but the wrapper that would define them is not modelled. The listed numbers and the fetched settings are inputs.
- The bot object has no `enable_at_time`, `disable_at_time` or `enable` attribute in the modelled code. Those calls are recorded as effects.
- wrapper.py and utils/time.py are not part of this model.
- `urljoin` is modelled only for references it reads as a path on the server's host. Such a reference does not start with a space or a control character, and it has no '?', '#' or ';', no tab, CR or LF, no ':' in its first segment and no leading '//'. Other references are kept as unresolved values. A ':' in the first segment is excluded even where `urlsplit` would not read it as a scheme.
- Python's `\d` accepts non-ASCII digits; the time readers accept ASCII digits only.
- `str.lower` is modelled on ASCII letters only. This is exact for the literals compared against ('enabled', 'disabled', 'disabled on close', 'unauthorized').
- Bots.GetAllBotVariables: requires every fetched variable and every variable entry of every bot to be a dict with a 'number'. The source only raises when such an entry is actually compared, and that error path is not modelled.
- Bots.ReplaceEntries, Bots.MergeInto, Bots.MergeVariable, Bots.MergeAll, Bots.MergeAllSpec, Bots.LastMatch and Bots.KnownVariable: carry the same requirement, that every variable entry and every fetched variable is a dict with a 'number', for the same reason.
- Bots.SetVariable: requires every entry of the bot's variable list to be a dict with a 'number'. The source's loop stops at the first matching entry, so entries after it may have any shape, while a dict without 'number' or a non-dict before it raises; neither of these cases is modelled.
- BotCalls.SetBotVariables: has the same requirement as Bots.SetVariable, for the same reason.
- Partial mutation is not modelled: when a loop raises partway, the source may leave the list half-updated, and the model only reports the error.
- The `_endpts` back-reference of each bot object is left out, since it holds no data.
- `bot_obj.update` and `bot_obj.get_bot_variables` are left out. They only repeat an endpoint call and the attribute overlay that `Bots.MakeBot` models.
- The dead `all` method of the bot list is left out, because its name is shadowed by the list attribute. `__str__` and `__repr__` are left out too.
- `get_bot`'s default `status_filter` list ('Enabled', 'Disabled', 'Disable on Close') is not a default of `Endpoints.GetBot`: every caller passes the status list explicitly, and no modelled caller relies on the default.
- Bot statuses are kept literally. `get_bot` filters on 'Disable on Close', while `is_disabled_on_close` compares against 'disabled on close'.
- `test.py`'s 'time math error' branch cannot be reached: adding minutes to a combined date and time does not raise for times of day. It is left out.
- `test.py`'s first loop only prints the enable and disable times it computes, so they are not recorded as effects.
- `get_all_bots` is taken to return a list of dicts.
- Concurrency is not modelled, and neither is the absence of a lock around the gate.

## Findings

| source | as written | input that shows it | evidently intended | confidence | as-written member | corrected member |
|---|---|---|---|---|---|---|
| WhisperDriver/Obj/endpoints.py:169-171 | the loop deletes the empty text fields from the payload dict while iterating over it, which raises RuntimeError | `update_bot_report('R1')` with the default empty name and dates | send only the fields that were given | high; not executed | Endpoints.UpdateBotReport | Endpoints.UpdateBotReportPruned |
