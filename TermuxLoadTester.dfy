/**
 * The light-weight tester for Termux (`TermuxLoadTester` and `main` in
 * loader.py): the menu and prompt decisions, the request classification
 * and the counters its workers keep.
 */
module TermuxLoadTester {
  import opened Wrappers
  import opened PyStr
  import opened HttpModel
  import ClearLoadTester

  /** The cap `__init__` and the custom menu entry put on the thread count. */
  const MaxThreads := 20
  /** The thread count of menu entry 2, also used for any unknown choice. */
  const DefaultThreads := 10
  /** The cap on the duration typed at the last prompt. */
  const MaxDuration := 120
  /** The duration used when the last prompt does not parse. */
  const FallbackDuration := 30
  /** A worker sleeps after every this many of its own requests. */
  const PauseEvery := 10

  /** `min(n, cap)` */
  function Min(n: int, cap: int): (r: int)
    ensures r <= n && r <= cap
    ensures r == n || r == cap
  {
    if n < cap then n else cap
  }

  /** Clamping twice is clamping once. */
  lemma MinIdempotent(n: int, cap: int)
    ensures Min(Min(n, cap), cap) == Min(n, cap)
  {
  }

  /**
   * `make_request()`: true exactly for a response with status 200, false for
   * any other status and for any exception.
   */
  function MakeRequest(response: Response): (ok: bool)
    ensures ok <==> response == Status(200)
  {
    match response
    case Status(code) => code == 200
    case TransportError => false
  }

  /**
   * Every success here is a success for the interactive tester as well,
   * which accepts any status below 400.
   */
  lemma MakeRequestStricter(workerId: int, response: Response)
    ensures MakeRequest(response) ==> ClearLoadTester.MakeRequest(workerId, response).success
  {
  }

  /** ... but not the other way round: a 204 or a redirect status counts as a failure here. */
  lemma NoContentDiffers(workerId: int)
    ensures ClearLoadTester.MakeRequest(workerId, Status(204)).success && !MakeRequest(Status(204))
    ensures ClearLoadTester.MakeRequest(workerId, Status(302)).success && !MakeRequest(Status(302))
  {
  }

  /**
   * How the target line typed in `main` is handled: a blank line stops the
   * program, anything else is stripped and given "http://" when it does not
   * start with "http".
   */
  function ReadTarget(typed: string): (r: Result<string, string>)
    ensures r.Err? <==> AllSpace(typed)
    ensures r.Ok? ==> StartsWith(r.value, "http")
    ensures r.Ok? ==> r.value == ClearLoadTester.WithScheme(Strip(typed))
  {
    StripEmptyIff(typed);
    var target := Strip(typed);
    if target == "" then Err("URL tidak boleh kosong!")
    else Ok(ClearLoadTester.WithScheme(target))
  }

  /** A target that already reads "http..." is only stripped. */
  lemma ReadTargetKeepsScheme(target: string)
    requires target == Strip(target) && StartsWith(target, "http")
    ensures ReadTarget(target) == Ok(target)
  {
    StripEmptyIff(target);
  }

  /**
   * `min(int(typed), 20)`, or 10 when `int` raises: the custom entry of the
   * thread menu.
   */
  function CustomThreads(typed: string): (threads: int)
    ensures threads <= MaxThreads
    ensures ParseInt(typed).None? ==> threads == DefaultThreads
    ensures ParseInt(typed).Some? ==> threads == Min(ParseInt(typed).value, MaxThreads)
  {
    match ParseInt(typed)
    case Some(n) => Min(n, MaxThreads)
    case None => DefaultThreads
  }

  /**
   * `min(int(typed), 120)`, or 30 when `int` raises.
   */
  function ReadDuration(typed: string): (duration: int)
    ensures duration <= MaxDuration
    ensures ParseInt(typed).None? ==> duration == FallbackDuration
    ensures ParseInt(typed).Some? ==> duration == Min(ParseInt(typed).value, MaxDuration)
  {
    match ParseInt(typed)
    case Some(n) => Min(n, MaxDuration)
    case None => FallbackDuration
  }

  /** A typed number up to the cap is taken as it is, a larger one is cut to the cap. */
  lemma CustomThreadsOfNumber(n: int)
    ensures n <= MaxThreads ==> CustomThreads(IntToDecimal(n)) == n
    ensures n > MaxThreads ==> CustomThreads(IntToDecimal(n)) == MaxThreads
  {
    ParseIntOfDecimal(n);
  }

  /** Durations have only an upper bound: zero and negative numbers are taken. */
  lemma ReadDurationOfNumber(n: int)
    ensures n <= MaxDuration ==> ReadDuration(IntToDecimal(n)) == n
    ensures n > MaxDuration ==> ReadDuration(IntToDecimal(n)) == MaxDuration
  {
    ParseIntOfDecimal(n);
  }

  lemma NegativeDurationTaken()
    ensures ReadDuration("-7") == -7
    ensures ReadDuration("0") == 0
  {
    assert IntToDecimal(-7) == "-7";
    assert IntToDecimal(0) == "0";
    ReadDurationOfNumber(-7);
    ReadDurationOfNumber(0);
  }

  /** The fixed entries of the thread menu, for a stripped choice other than "4". */
  function MenuThreads(choice: string): (threads: int)
    ensures threads in {5, 10, 15}
    ensures threads == 5 <==> choice == "1"
    ensures threads == 15 <==> choice == "3"
  {
    if choice == "1" then 5
    else if choice == "2" then 10
    else if choice == "3" then 15
    else DefaultThreads
  }

  /** What `main` passes to `TermuxLoadTester(target, threads, duration)`. */
  datatype Config = Config(target: string, threads: int, duration: int)

  /**
   * The prompts of `main` answered by `lines`, in order. The thread menu
   * reads one more line only for entry 4. Running out of lines at the
   * target or the menu prompt raises `EOFError` out of `main`, so no test
   * runs; at the custom-thread and the duration prompt the bare `except`
   * catches it and the default is used.
   */
  function Configure(lines: seq<string>): (r: Option<Config>)
    ensures r.None? <==> |lines| < 2 || AllSpace(lines[0])
    ensures r.Some? ==> ReadTarget(lines[0]) == Ok(r.value.target) && StartsWith(r.value.target, "http")
    ensures r.Some? ==> r.value.threads <= MaxThreads && r.value.duration <= MaxDuration
    // a fixed entry: the duration is on the third line, or missing
    ensures r.Some? && Strip(lines[1]) != "4" ==> r.value.threads == MenuThreads(Strip(lines[1]))
    ensures r.Some? && Strip(lines[1]) != "4" && |lines| == 2 ==> r.value.duration == FallbackDuration
    ensures r.Some? && Strip(lines[1]) != "4" && |lines| > 2 ==> r.value.duration == ReadDuration(lines[2])
    // entry 4: the count is on the third line and the duration on the fourth, either one missing
    ensures r.Some? && Strip(lines[1]) == "4" && |lines| == 2 ==> r.value.threads == DefaultThreads
    ensures r.Some? && Strip(lines[1]) == "4" && |lines| > 2 ==> r.value.threads == CustomThreads(lines[2])
    ensures r.Some? && Strip(lines[1]) == "4" && |lines| <= 3 ==> r.value.duration == FallbackDuration
    ensures r.Some? && Strip(lines[1]) == "4" && |lines| > 3 ==> r.value.duration == ReadDuration(lines[3])
  {
    if |lines| == 0 then None
    else
      match ReadTarget(lines[0])
      case Err(_) => None
      case Ok(target) =>
        if |lines| == 1 then None
        else
          var choice := Strip(lines[1]);
          var custom := choice == "4";
          var threads :=
            if !custom then MenuThreads(choice)
            else if |lines| > 2 then CustomThreads(lines[2])
            else DefaultThreads;
          var durationAt := if custom then 3 else 2;
          var duration := if |lines| > durationAt then ReadDuration(lines[durationAt]) else FallbackDuration;
          Some(Config(target, threads, duration))
  }

  /**
   * Any choice other than 4 is followed directly by the duration line;
   * nothing after it is read.
   */
  lemma MenuFixed(lines: seq<string>)
    requires |lines| >= 3 && !AllSpace(lines[0]) && Strip(lines[1]) != "4"
    ensures Configure(lines) == Configure(lines[..3])
    ensures Configure(lines).value.threads == MenuThreads(Strip(lines[1]))
    ensures Configure(lines).value.duration == ReadDuration(lines[2])
  {
    assert lines[..3][0] == lines[0] && lines[..3][1] == lines[1] && lines[..3][2] == lines[2];
  }

  /**
   * Entry 4 reads the custom count from the next line and the duration from
   * the one after; nothing after that is read.
   */
  lemma MenuCustom(lines: seq<string>)
    requires |lines| >= 4 && !AllSpace(lines[0]) && Strip(lines[1]) == "4"
    ensures Configure(lines) == Configure(lines[..4])
    ensures Configure(lines).value.threads == CustomThreads(lines[2])
    ensures Configure(lines).value.duration == ReadDuration(lines[3])
  {
    var p := lines[..4];
    assert p[0] == lines[0] && p[1] == lines[1] && p[2] == lines[2] && p[3] == lines[3];
  }

  /**
   * Input that ends right after entry 4 is chosen still runs a test: both
   * later prompts hit `EOFError` and take 10 threads for 30 seconds.
   */
  lemma MenuCustomAtEnd(target: string)
    requires !AllSpace(target)
    ensures Configure([target, "4"]).Some?
    ensures Configure([target, "4"]).value.threads == DefaultThreads
    ensures Configure([target, "4"]).value.duration == FallbackDuration
  {
    assert Strip("4") == "4" by { StripOfStripped("4"); }
  }

  /** `input(...).lower() != 'y'` cancels: only "y" or "Y", with nothing around it, proceeds. */
  predicate Proceeds(answer: string)
  {
    Lower(answer) == "y"
  }

  lemma ProceedsAnswers(answer: string)
    ensures Proceeds(answer) <==> answer == "y" || answer == "Y"
  {
    if |answer| == 1 {
      assert Lower(answer) == [LowerChar(answer[0])];
    }
  }

  /**
   * The interactive tester strips the answer and takes "yes" and a blank line
   * too; this one does neither.
   */
  lemma ConfirmDiffers()
    ensures ClearLoadTester.Confirm(" y") && !Proceeds(" y")
    ensures ClearLoadTester.Confirm("") && !Proceeds("")
  {
    ClearLoadTester.BlankConfirms("");
    assert Strip(" y") == "y" by {
      assert StripLeft(" y") == StripLeft("y");
    }
    assert Lower(" y") == [LowerChar(' '), LowerChar('y')];
  }

  /** The number of `make_request` calls among `responses` that return true. */
  function OkCount(responses: seq<Response>): (n: nat)
    ensures n <= |responses|
  {
    if responses == [] then 0
    else
      var last := |responses| - 1;
      OkCount(responses[..last]) + (if MakeRequest(responses[last]) then 1 else 0)
  }

  /** A batch of responses all answered 200 is all successes; one with no 200 has none. */
  lemma {:induction false} OkCountExtremes(responses: seq<Response>)
    ensures (forall i :: 0 <= i < |responses| ==> responses[i] == Status(200)) ==> OkCount(responses) == |responses|
    ensures (forall i :: 0 <= i < |responses| ==> responses[i] != Status(200)) ==> OkCount(responses) == 0
  {
    if responses != [] {
      var last := |responses| - 1;
      OkCountExtremes(responses[..last]);
    }
  }

  /** Requests and successes over the workers' response sequences. */
  function Requests(work: seq<seq<Response>>): nat
  {
    if work == [] then 0 else Requests(work[..|work| - 1]) + |work[|work| - 1]|
  }

  function Successes(work: seq<seq<Response>>): (n: nat)
    ensures n <= Requests(work)
  {
    if work == [] then 0 else Successes(work[..|work| - 1]) + OkCount(work[|work| - 1])
  }

  /** How `run` ends. */
  datatype RunOutcome =
    | Cancelled       // the answer was not "y": nothing happens
    | PoolRefused     // `ThreadPoolExecutor(max_workers=threads)` raises for threads < 1
    | Completed       // the workers ran and `active` was cleared

  class Tester {
    var target: string
    var threads: int
    var duration: int
    var totalRequests: nat
    var success: nat
    var failed: nat
    var active: bool

    /** Every finished worker iteration has been counted once, as a success or a failure. */
    ghost predicate Valid()
      reads this
    {
      totalRequests == success + failed
    }

    /**
     * `__init__`: the thread count is capped at 20 (zero and negative
     * counts are kept), the counters start at zero and the workers are
     * not active.
     */
    constructor (target: string, threads: int, duration: int)
      ensures Valid()
      ensures this.target == target && this.threads == Min(threads, MaxThreads) && this.duration == duration
      ensures totalRequests == 0 && success == 0 && failed == 0 && !active
    {
      this.target := target;
      this.threads := Min(threads, MaxThreads);
      this.duration := duration;
      totalRequests, success, failed := 0, 0, 0;
      active := false;
    }

    /**
     * One pass of the `while self.active` loop in `worker`, given what the
     * request did. `localCount` is the worker's own count before the pass;
     * `pause` says whether the pass ends with `time.sleep(0.1)`.
     */
    method WorkerIteration(response: Response, localCount: nat) returns (count: nat, pause: bool)
      requires Valid()
      modifies this
      ensures Valid()
      ensures success == old(success) + (if MakeRequest(response) then 1 else 0)
      ensures failed == old(failed) + (if MakeRequest(response) then 0 else 1)
      ensures totalRequests == old(totalRequests) + 1
      ensures count == localCount + 1 && (pause <==> count % PauseEvery == 0)
      ensures target == old(target) && threads == old(threads) && duration == old(duration) && active == old(active)
    {
      if MakeRequest(response) {
        success := success + 1;
      } else {
        failed := failed + 1;
      }
      totalRequests := totalRequests + 1;
      count := localCount + 1;
      pause := count % PauseEvery == 0;
    }

    /**
     * `worker(worker_id)` run on its own, where `responses` are the requests
     * it gets to make before `active` is cleared. It makes none when
     * `active` is already false. `pauses` counts its sleeps.
     */
    method Worker(responses: seq<Response>) returns (pauses: nat)
      requires Valid()
      modifies this
      ensures Valid()
      ensures var made := if old(active) then responses else [];
        && totalRequests == old(totalRequests) + |made|
        && success == old(success) + OkCount(made)
        && failed == old(failed) + (|made| - OkCount(made))
        && pauses == |made| / PauseEvery
      ensures target == old(target) && threads == old(threads) && duration == old(duration) && active == old(active)
    {
      var localCount: nat := 0;
      pauses := 0;
      while active && localCount < |responses|
        invariant Valid() && localCount <= |responses| && active == old(active)
        invariant !active ==> localCount == 0
        invariant totalRequests == old(totalRequests) + localCount
        invariant success == old(success) + OkCount(responses[..localCount])
        invariant failed == old(failed) + (localCount - OkCount(responses[..localCount]))
        invariant pauses == localCount / PauseEvery
        invariant target == old(target) && threads == old(threads) && duration == old(duration)
      {
        assert responses[..localCount + 1][..localCount] == responses[..localCount];
        var pause;
        localCount, pause := WorkerIteration(responses[localCount], localCount);
        if pause {
          pauses := pauses + 1;
        }
      }
      assert old(active) ==> responses[..localCount] == responses;
    }

    /**
     * `run()` after the confirmation prompt was answered with `answer`, and
     * with the workers run one after another: `work[i]` are the requests
     * worker `i` makes. A failed pool creation happens after `active` was
     * set, and nothing clears it again.
     */
    method Run(answer: string, work: seq<seq<Response>>) returns (outcome: RunOutcome)
      requires Valid() && !active
      requires threads >= 1 ==> |work| == threads
      modifies this
      ensures Valid()
      ensures outcome == Cancelled <==> !Proceeds(answer)
      ensures outcome == PoolRefused <==> Proceeds(answer) && threads < 1
      ensures outcome == Completed ==>
        && totalRequests == old(totalRequests) + Requests(work)
        && success == old(success) + Successes(work)
        && !active
      ensures outcome != Completed ==> totalRequests == old(totalRequests) && success == old(success)
      ensures outcome == PoolRefused ==> active
      ensures outcome == Cancelled ==> !active
      ensures target == old(target) && threads == old(threads) && duration == old(duration)
    {
      if !Proceeds(answer) {
        return Cancelled;
      }
      active := true;
      if threads < 1 {
        return PoolRefused;
      }
      var i := 0;
      while i < threads
        invariant 0 <= i <= threads == |work| && Valid() && active
        invariant totalRequests == old(totalRequests) + Requests(work[..i])
        invariant success == old(success) + Successes(work[..i])
        invariant target == old(target) && threads == old(threads) && duration == old(duration)
      {
        assert work[..i + 1][..i] == work[..i];
        var sleeps := Worker(work[i]);
        i := i + 1;
      }
      assert work[..i] == work;
      active := false;
      outcome := Completed;
    }
  }
}
