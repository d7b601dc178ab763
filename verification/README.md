# AutoLoader in Dafny

AutoLoader is a barcode-driven sample-registration assistant for a hospital
pathology lab. It runs on a Windows tablet. A scanner delivers one code at a time:

- A physical-checkup code, starting with `TJ`, is looked up in the checkup system over HTTP.
- Any other code is a clinic card number, looked up in the HIS database.
- The special code `AutoLoaderRollback` gives back the last sample number.

The patient found is typed into the Xcope form through simulated keystrokes,
together with a serial `M<year><number padded to 5 digits>`. The number comes
from a year-scoped counter kept in memory and in `data.json`.

This project models the core of that program and proves properties of the model:

- **The scan cycle** of `auto_loader.py` (module `AutoLoader`).
  - `Loader` is a class holding `sampleNumber`, `recordYear`, the ghost content of `data.json` and the ghost history of its writes.
  - `Loader.Cycle` runs one pass of the loop and `Loader.Run` the loop over a sequence of scans.
  - Both are proved against the pure specification `Step` / `RunSpec`. The ledger properties are lemmas about that specification:
    - the sentinel comes first;
    - the year rolls over;
    - a number is committed only on success;
    - failures leave the counter alone;
    - serial shape and injectivity;
    - no repeated (year, number) in a run.
- **The development twin** `auto_loader_dev.py` (module `AutoLoaderDev`). Its differences from production are modelled:
  - the console scanner's `exit`;
  - the canned checkup response;
  - console output instead of Xcope;
  - a failing HIS query that is only reported.
  - The `MockCursor` class, with its `last_query` field and the `re.search` over the SQL text, serves as a concrete directory.
- **The HTTP retry policy** of `utils/http_request.py` (module `HttpRequest`).
  - The network is an oracle `nat -> Transport`.
  - `GetResponse` and its three loops are proved against the planned attempt schedule.
- **MIME-type detection** in `hospital_info/data_processing.py` (module `DataProcessing`).
- **The keystroke traces** of `auto_input/util.py`, `auto_input/xcope.py` and `auto_input/autoscope.py` (modules `InputUtil`, `Xcope`, `Autoscope`).
  - An `Actuator` class records pyautogui/pyperclip calls as events.
  - A reference interpreter `Apply` gives the meaning of a trace on the focused form.
- **The logger rules** of `utils/logger.py` (module `Logging`, with the day numbers of `datetime` in `Calendar`):
  - the once-only global logger;
  - the log file name and record format;
  - the call-logging summaries;
  - which files `cleanup_logs` deletes.

`Text` holds Python's `str(int)`, `str.zfill`, `split` and `lower` as used by
the code. `Wrappers` holds `Option`.

The scanner, the clock, both directories, the network and pyautogui's
fail-safe are parameters of a pass (`Scan`, `DevScan`, the `network`
oracle). Error dialogs are the `Notice` a pass returns. `os.kill(SIGTERM)`, and an
exception escaping `main` (after which `run.py` exits), are the `Terminated` result.

Where the project's own description and the code differ, the model follows the code:

- The rollback sentinel changes only the in-memory counter. It writes nothing to `data.json` and does not look at the year.
- A failure exit writes nothing either. Only the year rollover, the start-up default and a commit write the file.

## Model

| member | source | states |
|---|---|---|
| AutoLoader.Classify | auto_loader.py:39-41 | The sentinel is recognised by equality, a code goes to the checkup path iff it has the anchored, case-sensitive prefix "TJ", and every other code (the empty one included) goes to HIS |
| AutoLoader.ClassifyExamples | auto_loader.py:39-41 | The sentinel is not a TJ code; "", "tj12345" and "xTJ1" go to HIS; "TJ12345" to the checkup system |
| AutoLoader.LookupCode | auto_loader.py:119-195 | A checkup code: no response gives notice 1, an unreadable body is fatal, an empty data array gives notice 2, otherwise the first record is used; a card number: a database error is fatal, no row gives NotFound, several rows give Multiple, exactly one row is used |
| AutoLoader.Rolled | auto_loader.py:91-97 | After the year check the year is the current one; the counter is unchanged in the same year and 0 in a new one |
| AutoLoader.Loader.constructor | auto_loader.py:67-82 | An existing data.json is taken verbatim (counter and record year) and stays the file's content until the first write; a missing one is created and written as {0, now_year} |
| AutoLoader.Loader.Save | auto_loader.py:96-97 | data.json is overwritten with the current counter and year, appended to the write history; memory is unchanged |
| AutoLoader.Loader.Cycle | auto_loader.py:84-195 | One pass updates the counter and year to Step's state, returns Step's result, appends exactly Step's writes to data.json and exactly the events of the attempted form entry to the trace; data.json keeps its content when nothing is written |
| AutoLoader.Loader.Lookup | auto_loader.py:98-195 | After the year check, the tentative number, the lookup and each failure exit match Dispatch in state, result, writes and trace; data.json keeps its content when nothing is written |
| AutoLoader.Loader.EnterSample | auto_loader.py:140-187 | Entering a found patient matches Enter: the serial carries counter+1, which is committed and written only when the form is filled; on the fail-safe the counter is given back, nothing is written and only the first k events of the form reach the trace; data.json keeps its content when nothing is written |
| AutoLoader.Loader.Run | auto_loader.py:84-195 | The loop over a sequence of scans yields RunSpec's state, results, writes and form traces, and stops after a termination; data.json keeps its content when nothing is written |
| AutoLoader.StoppedRun | auto_loader.py:157-160 | Once the process is killed, further scans change nothing |
| AutoLoader.SentinelStep | auto_loader.py:87-90 | The sentinel lowers the counter by exactly one, with no lower bound, keeps the recorded year, writes nothing and looks nothing up |
| AutoLoader.SentinelLeavesFile | auto_loader.py:87-90 | From an existing data.json of {7, 2024}, the sentinel lowers the counter to 6 and leaves the file at {7, 2024} with no write |
| AutoLoader.SentinelExample | auto_loader.py:87-90 | From counter 0 of 2024 the sentinel scanned in 2025 gives counter -1 of 2024 |
| AutoLoader.RolloverStep | auto_loader.py:91-98 | A new year first writes {0, year}, and a sample committed in that pass gets number 1 |
| AutoLoader.CommitStep | auto_loader.py:98-187 | A pass commits iff the code is not the sentinel, the lookup finds a patient and the actuation completes; the commit takes counter+1 as the counter, writes it after the rollover write, and types serial M<year><number> as the sample id |
| AutoLoader.FailureStep | auto_loader.py:116-195 | Every other non-sentinel exit leaves the counter where the year check put it and writes nothing beyond that check; within a year, nothing changes |
| AutoLoader.CounterStep | auto_loader.py:87-98 | Within a year the counter moves by at most one: +1 exactly on a commit, -1 exactly on the sentinel |
| AutoLoader.TerminatedStep | auto_loader.py:123-160 | A pass ends the process iff the code is not the sentinel and either a checkup code's reply cannot be read or a card number's HIS query raised |
| AutoLoader.NoticeStep | auto_loader.py:116-195 | A missed lookup shows its own notice and types nothing; a fail-safe during entry shows the fail-safe notice after typing the first k events of the form numbered counter+1 |
| AutoLoader.LookupIndependence | auto_loader.py:123-156 | The checkup path reads only the first record and never the HIS reply; the HIS path never reads the checkup reply |
| AutoLoader.HisNeedsOneRow | auto_loader.py:161-176 | A committed card number had exactly one row, and that row's patient was entered |
| AutoLoader.RollbackReusesNumber | auto_loader.py:87-98 | After a commit, the sentinel followed by the same scan commits under the same number again |
| AutoLoader.SerialShape | auto_loader.py:140 | For a four-digit year the serial is "M", the year's digits, then str(number).zfill(5) |
| AutoLoader.SerialDigits | auto_loader.py:140 | For a non-negative number the serial after "M" is all digits and its tail reads back as the number |
| AutoLoader.SerialInjective | auto_loader.py:140 | For four-digit years distinct (year, number) pairs give distinct serials |
| AutoLoader.SerialPadded | auto_loader.py:140 | Number 1 of 2024 is M202400001 |
| AutoLoader.SerialSigned | auto_loader.py:140 | A counter driven to -1 gives the signed serial M2024-0001 |
| AutoLoader.StepNumbers | auto_loader.py:91-98 | One non-sentinel pass at a year not before the state's keeps every commit counted by the state and none repeated |
| AutoLoader.RunNumbers | auto_loader.py:84-195 | Without the sentinel and with the clock never going back a year, a run never commits the same (year, number) twice |
| AutoLoader.RunLength | auto_loader.py:84-85 | A run that has not stopped has one result per scan |
| AutoLoader.RunSerialsDistinct | auto_loader.py:140 | Hence, in four-digit years, the serials typed into Xcope during such a run are pairwise distinct |
| AutoLoaderDev.ExitRequestCases | auto_loader_dev.py:59-63 | The scanner treats input as an exit request iff it is "exit" in any mix of letter case |
| AutoLoaderDev.MockCheckupRecord | auto_loader_dev.py:254-269 | The canned record carries the scanned code as its checkCode |
| AutoLoaderDev.MatchAt | auto_loader_dev.py:167 | A regex match of JIUZHENKH='([^']+)' captures a non-empty group without quotes |
| AutoLoaderDev.Last4 | auto_loader_dev.py:188 | s[-4:] is the last four characters (all of a shorter string) and a suffix of s |
| AutoLoaderDev.AsHisRows | auto_loader_dev.py:321-330 | Each mock row becomes one HIS row, in order |
| AutoLoaderDev.MockCursor.constructor | auto_loader_dev.py:143-156 | A new cursor has no last query |
| AutoLoaderDev.MockCursor.Execute | auto_loader_dev.py:158-161 | execute stores the query as last_query |
| AutoLoaderDev.MockCursor.FetchAll | auto_loader_dev.py:163-169 | fetchall returns no rows when the last query names no card |
| AutoLoaderDev.MockQuery | auto_loader_dev.py:311-315 | Executing the f-string query and fetching gives the table's answer for that query |
| AutoLoaderDev.NoMatchInHead | auto_loader_dev.py:311 | The regex cannot match anywhere in the fixed head of the query |
| AutoLoaderDev.QueryNamesCard | auto_loader_dev.py:167-171 | The card the regex extracts is the scanned code up to its first quote, when that part is non-empty |
| AutoLoaderDev.EmptyCodeNamesNoCard | auto_loader_dev.py:167-169 | An empty scan makes the regex fail, so the mock returns no rows |
| AutoLoaderDev.MockRowsCases | auto_loader_dev.py:145-188 | 999999 and 888888 give two rows; 111111, 222222 and 000000 none; a patients_db key exactly its row; any other card one synthesised row named after its last four characters |
| AutoLoaderDev.FetchPlainCode | auto_loader_dev.py:167-171 | A non-empty code without quotes is looked up as it is |
| AutoLoaderDev.DevStep | auto_loader_dev.py:219-353 | A development pass never fills a form |
| AutoLoaderDev.DevPass | auto_loader_dev.py:222-353 | After the scanner returns, a development pass never fills a form |
| AutoLoaderDev.DevCycle | auto_loader_dev.py:219-353 | One development pass on the production ledger updates the counter, year, result and writes as DevStep says; data.json keeps its content when nothing is written |
| AutoLoaderDev.DevProcess | auto_loader_dev.py:222-233 | The sentinel, the year check and the lookup match DevPass; data.json keeps its content when nothing is written |
| AutoLoaderDev.DevLookup | auto_loader_dev.py:233-353 | The tentative number, the canned checkup commit, the HIS query and its exits match DevDispatch; data.json keeps its content when nothing is written |
| AutoLoaderDev.DevMatchesProduction | auto_loader_dev.py:222-353 | Apart from exit and a failing query, a development pass gives the same state, result and writes as a production pass with the canned checkup reply and a completed entry |
| AutoLoaderDev.ExitFirst | auto_loader_dev.py:59-63 | "exit" ends the process before the sentinel or year check and changes nothing |
| AutoLoaderDev.DevCheckupCommits | auto_loader_dev.py:254-308 | A TJ code always commits the canned patient under counter+1 in the current year |
| AutoLoaderDev.DevQueryFailureContinues | auto_loader_dev.py:312-319 | A failing HIS query is reported, keeps the counter the year check left and writes nothing more, where production terminates |
| AutoLoaderDev.MockEmptyScan | auto_loader_dev.py:167-169 | Against the mock cursor an empty scan is "not found" |
| AutoLoaderDev.MockMultiple | auto_loader_dev.py:174-179 | Against the mock cursor 999999 is "several rows" |
| AutoLoaderDev.MockAbsent | auto_loader_dev.py:180-182 | Against the mock cursor 111111 is "not found" |
| AutoLoaderDev.KnownRow | auto_loader_dev.py:183-185 | The mock cursor answers 123456 with exactly Zhang San's row |
| AutoLoaderDev.MockKnownPatient | auto_loader_dev.py:322-330 | Against the mock cursor 123456 commits Zhang San, aged 45, of gynaecology, under the next number |
| HttpRequest.DeliveryRequest | utils/http_request.py:90-134 | A call returns the response iff it was answered with status 200; otherwise it sleeps, and a negative sleep time raises |
| HttpRequest.GetResponse | utils/http_request.py:10-59 | Attempts follow the planned schedule, never exceed its bound and stop at the first that returns a response or raises; the result is that response, the exception of a negative sleep, or None exactly when every allowed attempt failed |
| HttpRequest.RetryListed | utils/http_request.py:31-38 | The list loop makes at most len(list) attempts, attempt i sleeping list[i] with failure number i+1, and stops at the first response |
| HttpRequest.RetryCounted | utils/http_request.py:39-45 | A fixed interval with retry_number != 0 makes at most retry_number attempts and stops at the first response |
| HttpRequest.RetryForever | utils/http_request.py:46-51 | With retry_number 0 attempts repeat, unnumbered, until one succeeds |
| HttpRequest.AllFailed | utils/http_request.py:30-59 | When no attempt stopped the retrying, the last one slept and returned None |
| HttpRequest.DefaultPolicy | utils/http_request.py:28-29 | -1 stands for ten attempts over the built-in schedule, numbered 1 to 10, sleeping 8130 seconds in all |
| HttpRequest.PlanShapes | utils/http_request.py:31-51 | A list ignores retry_number; a fixed interval makes at most max(n, 0) attempts for n != 0 and is unbounded for 0 |
| HttpRequest.ProductionPolicy | auto_loader.py:113 | The production call makes at most ten attempts, one second apart, numbered 1 to 10 |
| HttpRequest.NeverRaises | utils/http_request.py:101 | With non-negative sleep times no attempt raises, and both the default and the production policies are such |
| HttpRequest.TruncateForLog | utils/http_request.py:78-88 | A logged body over the limit keeps its first limit characters followed by the truncation mark; a shorter one is logged as is |
| DataProcessing.MatchPrefix | hospital_info/data_processing.py:40 | re.match of a plain pattern succeeds iff the pattern is a prefix, and the match is the pattern |
| DataProcessing.FirstPrefix | hospital_info/data_processing.py:37-45 | The result is a listed type that prefixes the input, or None exactly when none does |
| DataProcessing.CheckContentType | hospital_info/data_processing.py:28-45 | The loop returns the first MIME type the content type starts with |
| DataProcessing.ContentTypeCases | hospital_info/data_processing.py:37-45 | JSON iff the JSON prefix matches; XML iff the XML prefix matches and the JSON one does not; None iff neither; trailing parameters are ignored |
| DataProcessing.JsonXmlDisjoint | hospital_info/data_processing.py:37-42 | No content type starts with both types, so the order they are tried in never changes the answer |
| DataProcessing.CaseSensitive | hospital_info/data_processing.py:40 | Upper-case variants are not recognised |
| DataProcessing.AutoTextToDict | hospital_info/data_processing.py:7-25 | An unsupported type gives None without parsing; JSON text goes to the JSON parser, XML text to the XML parser, unchanged |
| InputUtil.TakePrefix | auto_loader.py:145-149 | The events let through before the fail-safe form a prefix of the planned trace |
| InputUtil.Actuator.constructor | auto_input/util.py:1-2 | The trace starts empty |
| InputUtil.Actuator.CopyText | auto_input/util.py:12 | pyperclip.copy appends one clipboard event |
| InputUtil.Actuator.KeyDownKey | auto_input/util.py:13 | keyDown appends one event |
| InputUtil.Actuator.KeyUpKey | auto_input/util.py:16 | keyUp appends one event |
| InputUtil.Actuator.PressKey | auto_input/util.py:14-15 | press appends one event |
| InputUtil.Actuator.PasteText | auto_input/util.py:5-16 | paste_text appends clipboard, Ctrl-down, A, V, Ctrl-up, in that order |
| InputUtil.Actuator.DeleteText | auto_input/util.py:19-23 | delete_text appends Ctrl-down, A, Ctrl-up, Delete |
| InputUtil.Actuator.AutoInput | auto_input/util.py:26-36 | auto_input pastes a non-empty string or any int or bool, skips any other value, then presses Tab |
| InputUtil.Actuator.EnterSlot | auto_input/xcope.py:20-31 | A form position is an auto_input call or a bare Tab |
| InputUtil.Actuator.Abort | auto_loader.py:142-149 | The fail-safe leaves only the first k planned events in the trace |
| InputUtil.ApplyConcat | auto_input/util.py:5-36 | Replaying two traces one after the other is replaying their concatenation |
| InputUtil.PasteReplaces | auto_input/util.py:12-16 | paste_text replaces the focused field's text with the pasted text (select-all, then paste) |
| InputUtil.DeleteClears | auto_input/util.py:19-23 | delete_text empties the focused field and keeps the focus |
| InputUtil.AutoInputEffect | auto_input/util.py:26-36 | auto_input writes str(v) into the focused field exactly when it pastes, leaves it alone otherwise, and moves one field on |
| InputUtil.EventsOfMeaning | auto_input/xcope.py:20-31 | Entering a list of positions means entering each in turn |
| InputUtil.FillAllFields | auto_input/xcope.py:20-31 | After n positions the focus moved n fields; field p+i holds the i-th value when it pastes, and every other field keeps its text |
| InputUtil.SlotsEntered | auto_input/autoscope.py:20-32 | The i-th position lands in the i-th field from the focus |
| InputUtil.TabCount | auto_input/util.py:36 | Each position contributes exactly one Tab |
| InputUtil.AutoInputShape | auto_input/util.py:29-36 | auto_input ends with its only Tab and copies exactly str(v) when it pastes, nothing otherwise |
| Xcope.XcopeInput | auto_input/xcope.py:6-31 | xcope_input appends the events of name, a gender skip, age, card, sample id, bed, specimen, physician, department and a final Tab |
| Xcope.XcopeMeaning | auto_input/xcope.py:20-31 | Replaying that trace has exactly the position-by-position effect and moves the focus ten fields |
| Xcope.XcopeEntry | auto_input/xcope.py:20-29 | Name lands in field p, gender p+1 is untouched, age p+2, card p+3, sample id p+4, then bed, specimen, physician, department |
| Xcope.XcopeFrame | auto_input/xcope.py:20-31 | No field outside the ten positions is touched |
| Xcope.XcopeTabs | auto_input/xcope.py:20-31 | Each call presses Tab exactly ten times |
| Xcope.XcopeDefaultsOnlyTab | auto_input/xcope.py:6 | With every argument at its "" default the call only tabs through the form |
| Autoscope.AutoscopeInput | auto_input/autoscope.py:6-32 | autoscope_input appends card, ID, name, a skip, age, department, physician, a skip, site, specimen and a final Tab |
| Autoscope.AutoscopeMeaning | auto_input/autoscope.py:20-32 | Replaying that trace has exactly the position-by-position effect and moves the focus eleven fields |
| Autoscope.AutoscopeEntry | auto_input/autoscope.py:20-31 | Each value lands in its field; positions 3 and 7 are only tabbed past |
| Autoscope.AutoscopeFrame | auto_input/autoscope.py:20-32 | No field outside the eleven positions is touched |
| Autoscope.AutoscopeTabs | auto_input/autoscope.py:20-32 | Each call presses Tab exactly eleven times |
| Autoscope.AutoscopeDefaultsOnlyTab | auto_input/autoscope.py:6-32 | A call with no arguments pastes nothing |
| Logging.PathJoin | utils/logger.py:60 | POSIX os.path.join keeps an absolute name, otherwise puts the name after the directory with exactly one separator |
| Logging.LogFormats | utils/logger.py:72-84 | The format joins asctime, PID and thread only when asked for, then level, module.func:line and message, with " \| " |
| Logging.LoggingState.constructor | utils/logger.py:21 | The global logger starts unset |
| Logging.LoggingState.SetupLogging | utils/logger.py:49-52 | An existing logger is returned unchanged; otherwise one is configured and kept |
| Logging.LoggingState.GetLogger | utils/logger.py:113-123 | The defaults are used only while there is no logger |
| Logging.InitialisedOnce | utils/logger.py:120-123 | Every call in a sequence returns the logger the first call configured |
| Logging.ArgRepr | utils/logger.py:144 | A repr under 100 characters is logged as is, a longer one as type(长度:len) |
| Logging.LongSummaryCounts | utils/logger.py:144-145 | In a long summary the length opens exactly one parenthesis, which only the closing ')' closes |
| Logging.KwargRepr | utils/logger.py:145 | The keyword summary starts with key=, shows a short value verbatim, and ends a long one with ')', so a balanced key and type name give a balanced summary |
| Logging.KwargReprUnbalanced | utils/logger.py:145 | The long keyword summary as written opens one more parenthesis than it closes; the corrected one is balanced |
| Logging.ResultRepr | utils/logger.py:154 | A return value under 100 characters is logged as is, a longer one only as type(长度:len), the same summary as a positional argument; None is logged as NoneType(长度:0) |
| Logging.ParseDate | utils/logger.py:277 | strptime of an eight-digit token gives a valid date or fails |
| Logging.CleanupLogs | utils/logger.py:250-288 | The loop removes exactly the files whose action is Removed and reports exactly those whose action is Warned, in glob order, going on after each failure |
| Logging.NamesWithExactly | utils/logger.py:270-284 | A name is reported for an action iff some listed file with that name gets that action |
| Logging.TwoDigits | utils/logger.py:58 | %m and %d zero-fill to two digits that read back as the number |
| Logging.FormatDateShape | utils/logger.py:58 | For a four-digit year the file date is an eight-digit token without separators that parses back to the date |
| Logging.TokenAfterPrefix | utils/logger.py:274-275 | The date token of prefix_rest is rest cut at its first "_" and "." |
| Logging.TokenOfDated | utils/logger.py:275 | Cutting digits.tail at "." gives the digits back |
| Logging.OwnFilesFollowTheCutoff | utils/logger.py:274-284 | The logger's own files, rotated copies included, are deleted exactly when due and removable, kept while recent, reported when removal fails |
| Logging.RunLogsNeverDeleted | utils/logger.py:274-276 | Files with the autoloader_run prefix are never considered |
| Logging.EarlierIsDue | utils/logger.py:266-280 | If a date is due, every earlier date is due too |
| Logging.RecentKept | utils/logger.py:266-280 | With non-negative retention, a date inside the window is kept |
| Calendar.OrdinalOrder | utils/logger.py:277-280 | Day numbers follow calendar order exactly, as the date comparison does |
| Calendar.WithinYear | utils/logger.py:277-280 | A date's day number lies in its year's range |
| Text.NatToString | auto_loader.py:140 | str(n) of a non-negative int is a non-empty digit string |
| Text.IntToString | auto_loader.py:140 | str(n) starts with "-" iff n is negative, digits follow |
| Text.NatToStringRoundTrip | auto_loader.py:140 | str(n) reads back as n |
| Text.ZFillLength | auto_loader.py:140 | zfill never shortens and reaches the width |
| Text.ZFillRoundTrip | auto_loader.py:140 | str(n).zfill(w) keeps the sign and reads back as n |
| Text.ZFillNegative | auto_loader.py:140 | For negative n the zeros go after the sign and the digits read back as -n |
| Text.ZFillNonNegative | auto_loader.py:140 | For n >= 0 the zero-filled string is digits that read back as n |
| Text.ZFillInjective | auto_loader.py:140 | Zero-filling str(n) to one width is injective |
| Text.CutAtFirst | utils/logger.py:275 | split at the first separator gives back the glued pieces |
| Text.AsciiLowerAt | auto_loader_dev.py:59 | lower() maps each character on its own |

## Left out

- Tkinter dialogs, the tray icon and its daemon thread, and printing are not modelled. A dialog is the `Notice` of a pass and the console messages are dropped.
- The serial scanner and the console input are modelled as a sequence of codes. `check_end_mark` is left out because it is not part of the loop.
- The start-up delay and the database connection attempts (`auto_loader.py:53-65`, `auto_loader_dev.py:119-198`) are left out. Either the real cursor answers (an oracle `HisReply`) or, in development, the `MockCursor` table does.
- `requests.request`, `time.sleep`, `os.kill` and `datetime.now` are left out: the first is the `network` oracle, sleeping is a no-op, SIGTERM is `Terminated`, and the clock is the `nowYear`/`Date`/`Clock` parameter.
- `except requests.exceptions` (`auto_loader.py:115`) names a module, so error code 3 is unreachable and is not modelled. HTTP failures reach the loop as a `NoReply`, and `HttpRequest.NeverRaises` shows that the production policy cannot raise from its sleeps.
- `json.loads`, `json.dumps` and `xmltodict.parse` are foreign parsers. The checkup reply is the parsed `data` array, or `Malformed` when parsing or reading it raises, and `AutoTextToDict` records which parser receives the text.
- Logging calls inside the loop and in `get_response`, `RotatingFileHandler` and handler plumbing are left out. So are the log lines at start-up, the `log_function_call` wrapper's timing and exception re-raise, and `memory_check` (psutil and floating-point time).
- `glob.glob` and `os.path.basename` are left out: `CleanupLogs` receives the basenames in glob order. `os.remove` failing is the `removable` flag, and the cutoff is given as a day number plus microseconds since midnight.
- AutoLoader.TerminatedStep: exceptions from `xcope_input` other than pyautogui's fail-safe (`auto_loader.py:142-149` and `177-185`) also escape `main` and end the process through `run.py:51-55`. An `Actuation` is only `Completed` or `FailSafe`, so these ends are not modelled.
- Logging.PathJoin: only POSIX `os.path.join` is modelled, with `/` as separator and a leading `/` making the name absolute. On Windows, where the loader runs, `ntpath.join` uses `\`, also accepts `/`, and treats drive letters (`C:`) specially; those rules are not modelled.
- HttpRequest.RetryForever: the endless `while True` loop is modelled only for networks that eventually give a stopping attempt, because a method that never returns has no postcondition to prove.
- Text.AsciiLower: `str.lower()` is modelled for ASCII letters only (Unicode case folding is not modelled), which is all that the comparison with "exit" needs.
- Text.IsDigit: `str.isdigit()` is modelled for ASCII digits only, and Unicode digits are not modelled. Some of them, such as fullwidth year digits, would be parsed by Python's `strptime` and `int`, so such a log file could be deleted, while the model skips it.
- Logging.FormatDate: `%Y` is rendered as `str(year)`, so years below 1000 are not zero-padded, and the properties are proved for four-digit years.
- AutoLoader.SerialInjective: proved for four-digit years only. Years of other widths can collide.
- The development loop over scans is not modelled separately: `AutoLoaderDev.DevCycle` is one pass, and the loop around it is that of `AutoLoader.Loader.Run` with `DevStep` in place of `Step`.
- The development twin runs on the production `Loader` class, which has the same start-up and file writes (`auto_loader_dev.py:200-216`).
- In development the real database cursor is an oracle, like production's. The `MockCursor` properties hold for the mock table only.
- The mock regex search is modelled as `re.search` of `JIUZHENKH='([^']+)'`. For a code containing a quote, only the part before it is proved to be the extracted card (`QueryNamesCard`).
- `run.py`, `run_dev.py`, `config_dev.py` and the autoscope entry point are glue and configuration. `autoscope_input` is modelled, but nothing in the loop calls it.

## Findings

| source | as written | input that shows it | evidently intended | confidence | as-written member | corrected member |
|---|---|---|---|---|---|---|
| utils/logger.py:145 | the long keyword-argument summary is `f'{type(v).__name__}(长度:{len(repr(v))}'`, which has no closing parenthesis | a keyword argument `data` whose repr is 150 characters is logged as `data=str(长度:150` | `data=str(长度:150)`, the same shape as the positional summary on line 144 | not executed | Logging.KwargReprUnbalanced | Logging.KwargRepr |
