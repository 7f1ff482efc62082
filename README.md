# Load-Testing, modelled in Dafny

This project models the sequential core of three Python scripts and proves properties of that model:

- **`load-tester.py`** is an interactive load tester (`ClearLoadTester`). The model covers:
  - how it reads the target, the number of concurrent users and the duration;
  - the confirmation prompt;
  - how it classifies a request as a success or a failure;
  - the bar of its live display;
  - the bookkeeping of its `run_test` loop. That loop scans the list of futures for finished ones, counts each result in `results`, resubmits the worker and removes the processed future.
- **`loader.py`** is a lighter tester for Termux (`TermuxLoadTester` and `main`). The model covers:
  - the menu and prompt decisions of `main`;
  - the capping in `__init__`;
  - its stricter request classification;
  - the counters its workers keep;
  - the course of `run`.
- **`ssx.py`** is an XSS probe (`XSSTester`). The model covers:
  - how it cuts a target into a base and a query;
  - how it parses the query into a dict, which raises on a malformed piece;
  - the one-parameter test URLs and the one-key-changed form data it builds;
  - the two checks that decide what is appended to `vulnerable_params`.

The network is an input. A request's outcome is a `Response`: a status code or a transport error. A page is an `Option<string>`, where `None` means the request raised. `urllib.parse.quote`, `requests.get` and `requests.post` are function-valued parameters. The Python string operations the scripts rely on are modelled in `PyStr`:

- `strip`, `lower`, `startswith` and `split`;
- `in` on strings;
- `replace` of one character;
- `int()` on text, with surrounding white space, a sign and single underscores between digits. `int()` skips the same white space as `strip()`, except the four ASCII separators U+001C to U+001F, which make it raise.

Modules:

| file | module | models |
|---|---|---|
| Wrappers.dfy | Wrappers | `Option`, `Result` |
| HttpModel.dfy | HttpModel | what `requests.get` did: a status code or an exception |
| SeqFacts.dfy | SeqFacts | associativity of concatenation, used by several proofs |
| PyStr.dfy | PyStr | the Python `str` operations and `int()` parsing used by the scripts |
| ClearLoadTester.dfy | ClearLoadTester | load-tester.py: input, confirmation, `make_request`, the progress bar |
| ClearRunLoop.dfy | ClearRunLoop | load-tester.py: the future list and counters of `run_test`, as class `RunLoop` |
| TermuxLoadTester.dfy | TermuxLoadTester | loader.py: `main`, `make_request`, and class `Tester` for `__init__`, `worker` and `run` |
| XssTester.dfy | XssTester | ssx.py: the query parser, the URLs, the findings, and class `Scanner` |

Three behaviours of the code that are easy to misread, each modelled as written:

- **The `except` branch of `run_test` (load-tester.py:204-206)** also catches an exception from the resubmitting `executor.submit` at line 201. At that point the result has already been counted. Such a future therefore adds two to `total` and one extra failure, not exactly one.
- **`loader.py` clamps its thread count and its duration.** It does not reject them, and it accepts zero and negative values.
- **The two scripts classify success differently.** `load-tester.py` takes any status below 400; `loader.py` takes only 200. Each is modelled as written, and the difference is proved as a lemma.

## Model

| member | source | states |
|---|---|---|
| PyStr.Strip | load-tester.py:38 | `strip()` leaves no white space at either end and never lengthens the text |
| PyStr.StripInfix | load-tester.py:38 | the stripped text is a slice of the original with only white space around it |
| PyStr.StripIdempotent | load-tester.py:38 | stripping twice is stripping once |
| PyStr.StripEmptyIff | load-tester.py:39 | `strip()` is empty exactly when the text is all white space |
| PyStr.Lower | load-tester.py:91 | `lower()` keeps the length and lowers each character on its own |
| PyStr.Split | ssx.py:64 | `split(sep)` gives at least one piece, and no piece holds the separator |
| PyStr.JoinSplit | ssx.py:64 | joining the pieces of a split with the separator gives back the text |
| PyStr.SplitJoin | ssx.py:64 | splitting a join of separator-free pieces gives back the pieces |
| PyStr.SplitCount | ssx.py:64 | a split has one piece more than the text has separators |
| PyStr.Contains | ssx.py:43 | `sub in text` holds exactly when a copy of `sub` starts at some position of `text` |
| PyStr.ReplaceChar | ssx.py:43 | replacing `c` by text without `c` leaves no `c`, and changes nothing when there was none |
| PyStr.ReplaceCharAppend | ssx.py:43 | replacing in a concatenation is replacing in each part |
| PyStr.ReplaceCharOne | ssx.py:43 | on one character, `c` becomes `rep` and anything else stays |
| PyStr.ReplaceCharAround | ssx.py:43 | the text before the first `c` is kept and that `c` becomes `rep` |
| PyStr.ReplaceCharIsJoinSplit | ssx.py:43 | `s.replace(c, rep) == rep.join(s.split(c))` |
| PyStr.ParseIntOfDecimal | load-tester.py:60 | `int(str(n)) == n` for every integer |
| PyStr.ParseIntBlank | load-tester.py:60 | empty or blank text is not a number: `int` raises |
| PyStr.IntStripLeftFacts | loader.py:246 | `int()` skips a prefix of white space other than the separators, and stops at the first other character |
| PyStr.IntStripRightFacts | loader.py:246 | the same for a suffix |
| PyStr.IntStripOfTrimmed | load-tester.py:60 | nothing is skipped in a text that starts with a sign or digit and ends with a digit |
| PyStr.ParseStrippedChars | loader.py:246 | a text `int()` reads holds only signs, digits and underscores |
| PyStr.ParseIntSeparator | loader.py:246 | a U+001C to U+001F separator anywhere makes `int` raise, even among the surrounding white space |
| PyStr.IntStripLeftIsStripLeft | loader.py:246 | without separators, the white-space prefix `int()` skips is the one `lstrip()` removes |
| PyStr.IntStripRightIsStripRight | loader.py:246 | the same for `rstrip()` |
| PyStr.ParseIntWithoutSeparators | loader.py:246 | without separators, `int(s)` reads what is left after `s.strip()` |
| PyStr.DecimalEnds | load-tester.py:60 | `str(n)` starts with a sign or a digit and ends with a digit |
| ClearLoadTester.GetInput | load-tester.py:35-41 | the answer is the stripped line, or the non-empty default when the line is blank |
| ClearLoadTester.GetInputStable | load-tester.py:35-41 | feeding an answer back to the same prompt gives the same answer |
| ClearLoadTester.GetInputNonEmpty | load-tester.py:37-39 | with a default offered, the answer is never empty |
| ClearLoadTester.WithScheme | load-tester.py:53-54 | the result starts with "http"; a target that starts with "http" is kept, any other gets "http://" in front |
| ClearLoadTester.WithSchemeIdempotent | load-tester.py:53-54 | a fixed target is never prefixed again |
| ClearLoadTester.WithSchemeLetterTest | load-tester.py:53-54 | the test is on four letters only: "httpbin.org" gets no scheme |
| ClearLoadTester.CollectTarget | load-tester.py:52-54 | a blank line gives `http://localhost:3000`; any other line is stripped and gets the scheme fix-up |
| ClearLoadTester.PromptInRange | load-tester.py:57-78 | the prompt ends on the first line that parses to a number within the range, after rejecting every earlier one, and answers that number as typed, never clamped; when the lines run out first it answers nothing and every line was rejected |
| ClearLoadTester.PromptOutcomeUnique | load-tester.py:57-78 | a prompt ends on one line at most, and a prompt that ends does not run out |
| ClearLoadTester.FirstTrue | load-tester.py:57-66 | the first `true` from a position on: it is `true` with only `false` before it, and `None` means none is `true` |
| ClearLoadTester.FirstTrueAt | load-tester.py:57-66 | a `true` after only `false` ones is the first `true` |
| ClearLoadTester.VerdictAt | load-tester.py:57-66 | the verdict on each line is whether the prompt accepts that line |
| ClearLoadTester.AcceptedLine | load-tester.py:57-78 | the line a prompt accepts is accepted, with only rejected lines before it; no line means every remaining line is rejected |
| ClearLoadTester.AcceptedLineAt | load-tester.py:57-78 | the line where a prompt ends is the one `AcceptedLine` picks |
| ClearLoadTester.AcceptedLineNone | load-tester.py:57-78 | when every remaining line is rejected, `AcceptedLine` picks none |
| ClearLoadTester.BlankAnswerTakesDefault | load-tester.py:57-78 | a blank answer takes the default 50 users or 30 seconds, which are accepted |
| ClearLoadTester.DefaultsParse | load-tester.py:59-72 | the default texts "50" and "30" parse to 50 and 30 |
| ClearLoadTester.OutOfRangeRefused | load-tester.py:61-64 | a line whose number is out of range is refused, however the number is typed |
| ClearLoadTester.OutOfRangeDecimalRefused | load-tester.py:60-64 | every out-of-range number, typed in plain decimal, reads as itself and is refused |
| ClearLoadTester.StripDecimalNonBlank | load-tester.py:60 | a printed number is never blank, so it never takes the default |
| ClearLoadTester.ReadSettingsInRange | load-tester.py:52-78 | settings read from the lines start with "http", with 1 to 500 users and 1 to 600 seconds |
| ClearLoadTester.ReadSettingsUnique | load-tester.py:52-78 | the lines admit one reading of the settings at most, and none when they run out first |
| ClearLoadTester.ReadSettingsLines | load-tester.py:57-78 | the lines the two prompts end on are the ones `AcceptedLine` picks, the second search starting after the first line |
| ClearLoadTester.CollectSettings | load-tester.py:43-78 | the target is read from the first line, the users from the line where the concurrency prompt started on the second line ends, the duration from the line where the next prompt ends; the values are in range; no settings exactly when the lines run out first |
| ClearLoadTester.CollectInputs | load-tester.py:43-92 | the settings as `CollectSettings` reads them, with the confirmation read from the line after the duration line; no answer exactly when the lines run out before that line |
| ClearLoadTester.BlankDefaultsDialogue | load-tester.py:52-78 | with blank answers to both numeric prompts, the dialogue reads 50 users for 30 seconds from the second and third lines |
| ClearLoadTester.ConfirmAnswers | load-tester.py:91-92 | the run is confirmed exactly for a blank line or "y" or "yes" in any case, with any white space around it |
| ClearLoadTester.BlankConfirms | load-tester.py:91-92 | a blank answer confirms |
| ClearLoadTester.MakeRequest | load-tester.py:94-116 | success exactly for a status below 400; an exception gives failure with status 0; the worker id is kept |
| ClearLoadTester.Trunc | load-tester.py:125 | `int()` on a float truncates toward zero: the result is at most `x` and within 1 of it for `x >= 0`, at least `x` and within 1 of it for `x < 0` |
| ClearLoadTester.Filled | load-tester.py:123-125 | at most 40 cells are full, none are negative for a non-negative elapsed time, and all 40 are full exactly once the time is up |
| ClearLoadTester.Repeat | load-tester.py:126 | `c * n` holds `n` copies of `c`, or none when `n <= 0` |
| ClearLoadTester.ProgressBar | load-tester.py:122-126 | the bar is 40 cells for a non-negative elapsed time; each cell is '█' before position `filled` and '░' from there on; all cells are full once the time is up |
| ClearLoadTester.FilledMonotone | load-tester.py:123-125 | the bar only fills up as time passes |
| ClearLoadTester.NegativeElapsedWidensBar | load-tester.py:123-126 | when the clock steps back by more than a fortieth of the run, the bar is wider than 40 cells |
| ClearRunLoop.DoneOfFacts | load-tester.py:187 | the scan returns only finished futures taken from the list, keeps identities increasing, and returns no more than the list holds |
| ClearRunLoop.PendingOfFacts | load-tester.py:187-209 | the futures left unprocessed come from the list, with identities still increasing, below the same bound and carrying their workers' ids |
| ClearRunLoop.ScanPartitions | load-tester.py:187 | every future is either found done or left pending, with the worker ids of both making up the list's |
| ClearRunLoop.RemoveKeep | load-tester.py:209 | with distinct identities, `futures.remove(f)` is filtering `f` out |
| ClearRunLoop.DoneStillListed | load-tester.py:185-209 | each future found done is still in the list when the loop reaches it, so its `futures.remove` never raises |
| ClearRunLoop.KeepPending | load-tester.py:187-209 | removing exactly the futures found done leaves the pending ones |
| ClearRunLoop.Record | load-tester.py:189-206 | one processed future adds one request, or two when resubmission raised after the result was counted; a successful result adds one success; no counter decreases |
| ClearRunLoop.RecordAllBalanced | load-tester.py:189-206 | recording a batch keeps `total == success + failed` |
| ClearRunLoop.RecordAllCounts | load-tester.py:189-206 | a batch adds one request per future plus one per refused resubmission; success grows by the successful results and failed by the rest |
| ClearRunLoop.PassCounters | load-tester.py:187-209 | a pass keeps `total == success + failed`, never lowers a counter and adds at least one request per processed future |
| ClearRunLoop.InitialPool | load-tester.py:168-171 | the initial batch holds one pending future per worker id `0 .. n-1` |
| ClearRunLoop.ReplacementsFacts | load-tester.py:199-202 | each replacement is a fresh pending future with a new identity |
| ClearRunLoop.ReplacementWorkers | load-tester.py:199-209 | the replacements and the lost futures together carry exactly the worker ids of the processed ones |
| ClearRunLoop.PassKeepsPool | load-tester.py:187-209 | a pass shrinks the list and its multiset of worker ids by exactly the lost futures |
| ClearRunLoop.NoLoss | load-tester.py:199-206 | no future is lost exactly when every processed future returned and was resubmitted |
| ClearRunLoop.PassOnNormalPath | load-tester.py:168-209 | on the normal path a pass keeps the pool size and the multiset of worker ids; otherwise the pool shrinks |
| ClearRunLoop.AfterPassValid | load-tester.py:187-209 | after a pass, identities still increase along the list and the results still carry their workers' ids |
| ClearRunLoop.StepsArePass | load-tester.py:189-209 | processing the found futures one by one ends in the list and counters that `AfterPass` and `RecordAll` describe |
| ClearRunLoop.RunLoop.constructor | load-tester.py:166-171 | the counters start at zero and there is one pending future per worker |
| ClearRunLoop.RunLoop.Finish | load-tester.py:94-116 | a pool thread finishes one pending future with `make_request`'s result, or with an exception, and changes nothing else |
| ClearRunLoop.RunLoop.ProcessOne | load-tester.py:189-209 | one processed future, which must still be in the list since `futures.remove` raises otherwise, updates the counters, appends a replacement unless submission raised, and removes the future |
| ClearRunLoop.RunLoop.ProcessDone | load-tester.py:186-209 | one scan leaves the list as `AfterPass` and the counters as `RecordAll` describe, keeping the class invariant |
| TermuxLoadTester.Min | loader.py:16 | `min(n, cap)` is one of the two and bounded by both |
| TermuxLoadTester.MinIdempotent | loader.py:247 | clamping twice is clamping once |
| TermuxLoadTester.MakeRequest | loader.py:43-54 | true exactly for status 200; false for any other status and any exception |
| TermuxLoadTester.MakeRequestStricter | loader.py:52 | every success here is a success for the interactive tester |
| TermuxLoadTester.NoContentDiffers | loader.py:52 | status 204 and 302 are successes for the interactive tester but failures here |
| TermuxLoadTester.ReadTarget | loader.py:219-227 | a blank line is refused; any other is stripped and starts with "http" afterwards |
| TermuxLoadTester.ReadTargetKeepsScheme | loader.py:226-227 | a stripped target that starts with "http" is taken unchanged |
| TermuxLoadTester.CustomThreads | loader.py:244-250 | the custom count is the parsed number capped at 20, or 10 when it does not parse |
| TermuxLoadTester.CustomThreadsOfNumber | loader.py:245-247 | a typed count up to 20 is kept and a larger one is cut to 20 |
| TermuxLoadTester.ReadDuration | loader.py:255-259 | the duration is the parsed number capped at 120, or 30 when it does not parse |
| TermuxLoadTester.ReadDurationOfNumber | loader.py:255-259 | a typed duration up to 120 is kept, with no lower bound; a larger one is cut to 120 |
| TermuxLoadTester.NegativeDurationTaken | loader.py:256-257 | "-7" and "0" are taken as durations -7 and 0 |
| TermuxLoadTester.MenuThreads | loader.py:238-252 | the fixed entries give 5, 10 or 15; 5 exactly for "1" and 15 exactly for "3" |
| TermuxLoadTester.Configure | loader.py:218-262 | no configuration exactly when the target line is missing or blank or the menu line is missing; otherwise the target is what the target line reads as and starts with "http", the counts are capped, the thread count comes from the menu entry or, for "4", the next line (10 if missing), and the duration comes from the line after the thread prompts (30 if missing) |
| TermuxLoadTester.MenuFixed | loader.py:236-259 | a choice other than "4" takes its count from the fixed entries and the duration from the next line; later lines are not read |
| TermuxLoadTester.MenuCustom | loader.py:244-259 | choice "4" takes the count from the next line and the duration from the line after that; later lines are not read |
| TermuxLoadTester.MenuCustomAtEnd | loader.py:244-259 | input ending right after choice "4" still configures a test of 10 threads for 30 seconds |
| TermuxLoadTester.ProceedsAnswers | loader.py:87-90 | the run proceeds exactly for the answers "y" and "Y" |
| TermuxLoadTester.ConfirmDiffers | loader.py:87-88 | " y" and a blank line confirm in the interactive tester but cancel here |
| TermuxLoadTester.OkCount | loader.py:60-63 | there are no more successes than requests |
| TermuxLoadTester.OkCountExtremes | loader.py:60-63 | all-200 responses are all successes; responses without 200 give none |
| TermuxLoadTester.Successes | loader.py:60-65 | the workers' successes never exceed their requests |
| TermuxLoadTester.Tester.constructor | loader.py:14-21 | threads are capped at 20 and a count below 1 is kept; the counters are zero and the workers inactive |
| TermuxLoadTester.Tester.WorkerIteration | loader.py:60-70 | one iteration adds one request and one success or one failure, keeps `total == success + failed`, and pauses exactly when the count reaches a multiple of 10 |
| TermuxLoadTester.Tester.Worker | loader.py:56-70 | an active worker counts every response given to it, with one pause per ten requests; an inactive one makes none |
| TermuxLoadTester.Tester.Run | loader.py:72-127 | any answer but "y" or "Y" cancels; a thread count below 1 makes the pool raise with `active` left set; otherwise every worker's requests are counted and `active` is cleared |
| XssTester.GetKeys | ssx.py:33 | a key has a value exactly when it is among the keys |
| XssTester.PutGet | ssx.py:33 | `d[k] = v` makes `k` map to `v` and leaves every other key's value alone |
| XssTester.PutKeys | ssx.py:33 | `d[k] = v` keeps the key list when `k` existed, else appends `k` |
| XssTester.PutUnique | ssx.py:33 | `d[k] = v` keeps the keys unique |
| XssTester.DictOfFacts | ssx.py:64 | `dict(pairs)` has unique keys and maps each name to the value of its last pair |
| XssTester.LastValueFound | ssx.py:64 | a name has a last value exactly when some pair has that name |
| XssTester.PairsOf | ssx.py:64 | the items exist exactly when every piece splits into two parts on '=', one item per piece |
| XssTester.PiecesArePairs | ssx.py:64 | a piece splits into two parts exactly when it holds exactly one '=' |
| XssTester.ParseQueryOk | ssx.py:64 | a query parses exactly when every '&' piece holds exactly one '=' |
| XssTester.ParseQueryValues | ssx.py:64 | a parsed query has unique names, each with its last value |
| XssTester.ParseQueryEmpty | ssx.py:64 | an empty query raises |
| XssTester.ParseQueryTrailingAmpersand | ssx.py:64 | a query with a trailing '&' raises |
| XssTester.PairOfPlain | ssx.py:64 | `name=value` with no delimiters in its parts is one pair |
| XssTester.PairsOfTwo | ssx.py:64 | two pieces that are pairs give those two items |
| XssTester.DictOfSameName | ssx.py:64 | two pairs with one name leave one entry, holding the second value |
| XssTester.ParseQueryRepeatedName | ssx.py:64 | a name given twice keeps its second value |
| XssTester.BaseUrl | ssx.py:59 | the base is the target's prefix before the first '?', or the whole target without one |
| XssTester.QueryString | ssx.py:62-63 | there is a query exactly when the target has a '?'; it is the text between the first '?' and the next |
| XssTester.TestUrlRoundTrip | ssx.py:59-68 | a test URL read back as a target gives the same base and a query of only its one parameter |
| XssTester.ParsedNamesPlain | ssx.py:63-64 | parsed names carry none of '?', '&' and '=' |
| XssTester.SplitPiecesFree | ssx.py:64 | splitting text without `c` gives pieces without `c` |
| XssTester.PayloadsFacts | ssx.py:16-23 | there are six non-empty payloads; the third and fourth have no '<' |
| XssTester.Escape | ssx.py:43 | the escaped payload has no '<' and is no shorter; a payload without '<' is left as it is |
| XssTester.EscapeIsJoinSplit | ssx.py:43 | escaping is `'&lt;'.join(payload.split('<'))` |
| XssTester.EscapeAppend | ssx.py:43 | escaping a concatenation escapes each part |
| XssTester.EscapeOne | ssx.py:43 | '<' becomes "&lt;" and every other character stays |
| XssTester.FormDataOneChange | ssx.py:32-33 | a probe's form data differ from `params` only at the probed key, which holds the payload; keys and order are unchanged |
| XssTester.FormKeyFindingsFrom | ssx.py:30-50 | a finding recorded for a key comes from one of the payloads tried on it |
| XssTester.FormKeyFindingsHas | ssx.py:30-50 | a probe's finding is kept as later payloads are tried |
| XssTester.FormFindingsFrom | ssx.py:29-50 | a finding recorded for the first keys comes from one of them |
| XssTester.FormFindingsHas | ssx.py:29-50 | a key's findings are kept as later keys are probed |
| XssTester.FormFindingsMembers | ssx.py:29-53 | a form finding is recorded exactly when some (key, payload) probe got a page lacking the escaped payload |
| XssTester.UrlNameFindingsFrom | ssx.py:67-79 | a finding recorded for a name comes from one of the payloads tried on it |
| XssTester.UrlNameFindingsHas | ssx.py:67-79 | a probe's finding is kept as later payloads are tried |
| XssTester.UrlFindingsFrom | ssx.py:66-79 | a finding recorded for the first names comes from one of them |
| XssTester.UrlFindingsHas | ssx.py:66-79 | a name's findings are kept as later names are probed |
| XssTester.UrlFindingsMembers | ssx.py:66-82 | a URL finding is recorded exactly when some (name, payload) probe got a page holding the payload |
| XssTester.UrlScanOneParameter | ssx.py:59-79 | every URL finding's URL reads back as the target's base with only the probed parameter |
| XssTester.NoQueryNoProbe | ssx.py:62 | a target without '?' is not probed |
| XssTester.BlankPageFlagged | ssx.py:43 | the form check flags an empty page for every non-empty payload |
| XssTester.PlainPayloadInverted | ssx.py:43-73 | for a payload without '<', the form check flags a page exactly when the URL check does not |
| XssTester.Scanner.constructor | ssx.py:11-23 | a new scanner has the six payloads and no findings |
| XssTester.Scanner.TestForm | ssx.py:25-53 | `test_form` appends exactly the form findings of every key with every payload, key by key, and nothing else |
| XssTester.Scanner.ProbeFormKey | ssx.py:30-53 | the inner loop appends the findings of one key, payload by payload |
| XssTester.Scanner.TestUrlParams | ssx.py:55-82 | `test_url_params` raises exactly for a malformed query; it appends exactly the URL findings of every parsed name with every payload |
| XssTester.Scanner.ProbeUrls | ssx.py:66-82 | the outer loop appends the findings of every name, name by name |
| XssTester.Scanner.ProbeUrlName | ssx.py:67-82 | the inner loop appends the findings of one name, payload by payload |

## Left out

- Networking: `requests.get` and `requests.post` are inputs. A `Response` stands for what the GET did, and a function from data or URL to an optional page stands for the server. Headers, timeouts, redirects and TLS settings are not modelled.
- The server is deterministic in the model: `post` and `get` are pure functions, so the same data or URL always gives the same page. A server whose answer changes between identical requests is not modelled.
- Thread pools and timing are not modelled. This covers `ThreadPoolExecutor`, `future.done()` polling, `time.time()` deadlines, `time.sleep` and the final waits (load-tester.py:166, 174-184, 211-219; loader.py:96-119). In `RunLoop`, a pool thread finishing a future is the separate method `Finish`. Which futures have finished is the environment's choice.
- TermuxLoadTester.Tester.Run runs the workers one after another, each over the responses it gets before `active` is cleared. The unsynchronised `+=` from many threads (loader.py:59-66) is not modelled, and neither are lost updates.
- TermuxLoadTester.Tester.Worker takes the requests made before `active` is cleared as a given sequence. When the clearing happens is timing.
- The final `concurrent.futures.wait(..., timeout=5)` and the loop over the remaining futures in `run_test` are not modelled. Neither touches the counters.
- All printing is left out: `clear_screen`, banners, the live and final displays, and `generate_report` (ssx.py:84-103).
- Floating-point metrics are left out: RPS, success rates and the verdict thresholds (load-tester.py:132-137, 237-276; loader.py:131, 146, 167-181). `show_results` in loader.py reads the undefined attribute `self.success_rate` at line 176. It therefore raises before `save_log` (loader.py:186-206), so the log file append is never reached and is not modelled.
- `urllib.parse.quote` is a function parameter. Percent-encoding is not specified here, so UrlScanOneParameter assumes that `quote` leaves no '?', '&' or '=' in its output.
- The re-run through `self.__init__()` (load-tester.py:282-286), the `main` functions' outer `try`, and every `KeyboardInterrupt` path are left out.
- PyStr.Lower lowers ASCII letters only. `str.lower()` is Unicode-aware, but none of the compared answers can be reached from a non-ASCII letter at the length compared.
- PyStr.ParseInt reads ASCII digits only. Python's `int()` also accepts other Unicode decimal digits.
- PyStr.ParseInt has no length limit. From Python 3.11, `int()` raises `ValueError` on text of more than 4300 digits. Leading zeros count toward the limit. For such a line, loader.py (lines 244-259) falls back to 10 threads or 30 seconds, while the model parses the number and caps it at 20 or 120. load-tester.py asks again, while the model reads the number: for 4300 zeros followed by 5 it takes 5.
- A `BaseException` from `future.result()` is not modelled. It would escape the `except Exception` at load-tester.py:204 and end `run_test`. `make_request` catches every `Exception`, so `Raised` in ClearRunLoop stands for an `Exception` from `future.result()`, which no server response produces.
- ClearRunLoop.RunLoop.constructor requires at least one worker. `ThreadPoolExecutor(max_workers=0)` raises at load-tester.py:166, and the settings prompt keeps the count between 1 and 500.
- ClearRunLoop.ResultOf is total. For a future still pending it says `Raised`, but a pass only ever processes futures found done.
- ClearLoadTester.Filled and ClearLoadTester.ProgressBar compute over exact reals, not IEEE doubles. At a rounding boundary the filled count can differ from Python's by one cell: for example, elapsed is the double nearest 0.075 in a 1 s run. That double lies just below 0.075, so exact arithmetic on it gives 2 cells, while Python's rounded `40 * (elapsed / 1)` is exactly 3.0 and gives 3. The bounds, the fullness at the end and the monotonicity hold either way.
- ClearLoadTester.CollectInputs and TermuxLoadTester.Configure take the typed lines as a sequence. Running out of lines stands for `input()` raising `EOFError`.
- The `__main__` block of ssx.py is not modelled. It applies the scheme fix-up without stripping, then calls `test_url_params` and `generate_report`.
- TermuxLoadTester.MenuThreads states outright only the entries "1" and "3". Its first ensures leaves 10 as the value for every other choice, "2" included.
- The form check of `test_form` flags a page that does NOT contain the escaped payload (ssx.py:43). So blank pages are flagged, and for payloads without '<' it is the opposite of the URL check. The model keeps this as written (BlankPageFlagged, PlainPayloadInverted).
