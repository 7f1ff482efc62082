/**
 * The input handling, request classification and progress bar of the
 * interactive load tester (`ClearLoadTester` in load-tester.py). The
 * bookkeeping of its run loop is in module ClearRunLoop.
 */
module ClearLoadTester {
  import opened Wrappers
  import opened PyStr
  import opened HttpModel

  /**
   * `get_input(prompt, default)` once the user has typed `typed`: the
   * stripped line, or `default` when a non-empty default is offered and
   * the line is blank.
   */
  function GetInput(default: string, typed: string): (r: string)
    ensures default == "" ==> r == Strip(typed)
    ensures default != "" ==> r == if AllSpace(typed) then default else Strip(typed)
  {
    StripEmptyIff(typed);
    if default != "" then
      var answer := Strip(typed);
      if answer != "" then answer else default
    else
      Strip(typed)
  }

  /** Feeding an answer back to the same prompt changes nothing. */
  lemma GetInputStable(default: string, typed: string)
    requires default == Strip(default)
    ensures GetInput(default, GetInput(default, typed)) == GetInput(default, typed)
  {
    StripIdempotent(typed);
    StripEmptyIff(default);
    StripEmptyIff(Strip(typed));
  }

  /** With a default offered, the answer is never empty. */
  lemma GetInputNonEmpty(default: string, typed: string)
    requires default != ""
    ensures GetInput(default, typed) != ""
  {
    StripEmptyIff(typed);
  }

  /**
   * The scheme fix-up applied to a target: a string that does not start
   * with "http" gets "http://" in front, any other is left alone.
   */
  function WithScheme(target: string): (r: string)
    ensures StartsWith(r, "http")
    ensures StartsWith(target, "http") ==> r == target
    ensures !StartsWith(target, "http") ==> r == "http://" + target
  {
    if StartsWith(target, "http") then target else "http://" + target
  }

  /** The fix-up is idempotent: a fixed target is never prefixed again. */
  lemma WithSchemeIdempotent(target: string)
    ensures WithScheme(WithScheme(target)) == WithScheme(target)
  {
  }

  /**
   * The test is on the four letters only: a host name that merely starts
   * with "http" gets no scheme.
   */
  lemma WithSchemeLetterTest()
    ensures WithScheme("httpbin.org") == "httpbin.org"
    ensures WithScheme("localhost:3000") == "http://localhost:3000"
  {
    assert StartsWith("httpbin.org", "http");
    assert !StartsWith("localhost:3000", "http") by {
      assert "localhost:3000"[0] != 'h';
    }
  }

  const DefaultTarget := "http://localhost:3000"
  const DefaultUsers := "50"
  const DefaultDuration := "30"
  const MinUsers := 1
  const MaxUsers := 500
  const MinDuration := 1
  const MaxDuration := 600

  /** The target URL prompt: the typed line, or the default, with the scheme fix-up. */
  function CollectTarget(typed: string): (target: string)
    ensures StartsWith(target, "http")
    ensures AllSpace(typed) ==> target == DefaultTarget
    ensures !AllSpace(typed) ==> target == WithScheme(Strip(typed))
  {
    assert StartsWith(DefaultTarget, "http");
    WithScheme(GetInput(DefaultTarget, typed))
  }

  /** `int(get_input(prompt, default))`: `None` where Python raises `ValueError`. */
  function ReadNumber(default: string, typed: string): Option<int>
  {
    ParseInt(GetInput(default, typed))
  }

  predicate InRange(v: Option<int>, lo: int, hi: int)
  {
    v.Some? && lo <= v.value <= hi
  }

  /** An answer that ends a numeric prompt: a number within `lo..hi`. */
  predicate Accepted(default: string, lo: int, hi: int, typed: string)
  {
    InRange(ReadNumber(default, typed), lo, hi)
  }

  /**
   * One of the `while True` prompts of `collect_inputs`, over the lines
   * the user types, read from position `start` on. A non-number or a
   * number outside `lo..hi` is rejected and the prompt repeats; the first
   * accepted number is returned as read, never clamped, and `at` is the
   * position of the line it was read from. When the lines run out first,
   * the result is `None` and `at` is the end of the lines (Python's
   * `input()` raises `EOFError`, which the prompt does not catch).
   */
  method PromptInRange(default: string, lo: int, hi: int, lines: seq<string>, start: nat)
    returns (value: Option<int>, at: nat)
    requires start <= |lines|
    ensures start <= at <= |lines|
    ensures value.Some? ==> PromptEndsAt(default, lo, hi, lines, start, at)
                            && ReadNumber(default, lines[at]) == value
                            && lo <= value.value <= hi
    ensures value.None? ==> at == |lines| && PromptRunsOut(default, lo, hi, lines, start)
  {
    value, at := None, start;
    while at < |lines|
      invariant start <= at <= |lines| && value.None?
      invariant RejectedBetween(default, lo, hi, lines, start, at)
    {
      var typed := lines[at];
      var number := ReadNumber(default, typed);
      var accepted := InRange(number, lo, hi);
      if accepted {
        value := number;
        break;
      }
      RejectedStep(default, lo, hi, lines, start, at);
      at := at + 1;
    }
  }

  /** The prompt read from line `start` on ends at line `k`: the first accepted line there. */
  predicate PromptEndsAt(default: string, lo: int, hi: int, lines: seq<string>, start: nat, k: nat)
  {
    start <= k < |lines| && Accepted(default, lo, hi, lines[k])
    && RejectedBetween(default, lo, hi, lines, start, k)
  }

  /** The prompt read from line `start` on never ends: every line left is rejected. */
  predicate PromptRunsOut(default: string, lo: int, hi: int, lines: seq<string>, start: nat)
  {
    start <= |lines| && RejectedBetween(default, lo, hi, lines, start, |lines|)
  }

  /** A prompt ends at one line at most, and then does not run out. */
  lemma PromptOutcomeUnique(default: string, lo: int, hi: int, lines: seq<string>, start: nat, k1: nat, k2: nat)
    requires PromptEndsAt(default, lo, hi, lines, start, k1)
    ensures PromptEndsAt(default, lo, hi, lines, start, k2) ==> k1 == k2
    ensures !PromptRunsOut(default, lo, hi, lines, start)
  {
  }

  /** None of the lines from `start` up to `n` ends a numeric prompt. */
  predicate RejectedBetween(default: string, lo: int, hi: int, lines: seq<string>, start: nat, n: nat)
    requires n <= |lines|
  {
    forall j :: start <= j < n ==> !Accepted(default, lo, hi, lines[j])
  }

  lemma RejectedStep(default: string, lo: int, hi: int, lines: seq<string>, start: nat, n: nat)
    requires n < |lines| && RejectedBetween(default, lo, hi, lines, start, n)
    requires !Accepted(default, lo, hi, lines[n])
    ensures RejectedBetween(default, lo, hi, lines, start, n + 1)
  {
  }

  /** Whether each line would end a numeric prompt. */
  function Verdicts(default: string, lo: int, hi: int, lines: seq<string>): (oks: seq<bool>)
    ensures |oks| == |lines|
  {
    if lines == [] then []
    else [Accepted(default, lo, hi, lines[0])] + Verdicts(default, lo, hi, lines[1..])
  }

  /** The verdict on line `j` is whether that line is accepted. */
  lemma {:induction false} VerdictAt(default: string, lo: int, hi: int, lines: seq<string>, j: nat)
    requires j < |lines|
    ensures Verdicts(default, lo, hi, lines)[j] == Accepted(default, lo, hi, lines[j])
  {
    if j > 0 {
      VerdictAt(default, lo, hi, lines[1..], j - 1);
      assert lines[1..][j - 1] == lines[j];
    }
  }

  /** The position of the first `true` from `from` on, if there is one. */
  function FirstTrue(oks: seq<bool>, from: nat): (k: Option<nat>)
    ensures k.Some? ==> from <= k.value < |oks| && oks[k.value]
    ensures k.Some? ==> forall j :: from <= j < k.value ==> !oks[j]
    ensures k.None? ==> forall j :: from <= j < |oks| ==> !oks[j]
    decreases |oks| - from
  {
    if from >= |oks| then None
    else if oks[from] then Some(from)
    else FirstTrue(oks, from + 1)
  }

  /** A `true` after only `false` ones is the first `true`. */
  lemma {:induction false} FirstTrueAt(oks: seq<bool>, from: nat, k: nat)
    requires from <= k < |oks| && oks[k]
    requires forall j :: from <= j < k ==> !oks[j]
    ensures FirstTrue(oks, from) == Some(k)
    decreases k - from
  {
    if from < k {
      assert !oks[from];
      FirstTrueAt(oks, from + 1, k);
    }
  }

  /** The position of the first line from `from` on that ends a numeric prompt, if there is one. */
  function AcceptedLine(default: string, lo: int, hi: int, lines: seq<string>, from: nat): (k: Option<nat>)
    ensures k.Some? ==> from <= k.value < |lines| && Accepted(default, lo, hi, lines[k.value])
    ensures k.Some? ==> RejectedBetween(default, lo, hi, lines, from, k.value)
    ensures k.None? && from <= |lines| ==> RejectedBetween(default, lo, hi, lines, from, |lines|)
  {
    VerdictsFirstTrue(default, lo, hi, lines, from);
    FirstTrue(Verdicts(default, lo, hi, lines), from)
  }

  /** The first `true` verdict is an accepted line after only rejected ones. */
  lemma VerdictsFirstTrue(default: string, lo: int, hi: int, lines: seq<string>, from: nat)
    ensures var k := FirstTrue(Verdicts(default, lo, hi, lines), from);
            && (k.Some? ==> from <= k.value < |lines| && Accepted(default, lo, hi, lines[k.value]))
            && (k.Some? ==> RejectedBetween(default, lo, hi, lines, from, k.value))
            && (k.None? && from <= |lines| ==> RejectedBetween(default, lo, hi, lines, from, |lines|))
  {
    var oks := Verdicts(default, lo, hi, lines);
    var k := FirstTrue(oks, from);
    var end := if k.Some? then k.value else |lines|;
    if k.Some? {
      VerdictAt(default, lo, hi, lines, k.value);
    }
    if from <= end {
      forall j | from <= j < end ensures !Accepted(default, lo, hi, lines[j]) {
        VerdictAt(default, lo, hi, lines, j);
      }
    }
  }

  /** An accepted line after only rejected ones is the line the prompt accepts. */
  lemma AcceptedLineAt(default: string, lo: int, hi: int, lines: seq<string>, from: nat, k: nat)
    requires PromptEndsAt(default, lo, hi, lines, from, k)
    ensures AcceptedLine(default, lo, hi, lines, from) == Some(k)
  {
    var oks := Verdicts(default, lo, hi, lines);
    VerdictAt(default, lo, hi, lines, k);
    forall j | from <= j < k ensures !oks[j] {
      VerdictAt(default, lo, hi, lines, j);
    }
    FirstTrueAt(oks, from, k);
  }

  /** When every line from `from` on is rejected, the prompt accepts none. */
  lemma AcceptedLineNone(default: string, lo: int, hi: int, lines: seq<string>, from: nat)
    requires PromptRunsOut(default, lo, hi, lines, from)
    ensures AcceptedLine(default, lo, hi, lines, from) == None
  {
    var oks := Verdicts(default, lo, hi, lines);
    var first := FirstTrue(oks, from);
    if first.Some? {
      VerdictAt(default, lo, hi, lines, first.value);
    }
  }

  /** A blank answer takes the offered default, which is within range. */
  lemma BlankAnswerTakesDefault(typed: string)
    requires AllSpace(typed)
    ensures ReadNumber(DefaultUsers, typed) == Some(50)
    ensures ReadNumber(DefaultDuration, typed) == Some(30)
    ensures Accepted(DefaultUsers, MinUsers, MaxUsers, typed)
    ensures Accepted(DefaultDuration, MinDuration, MaxDuration, typed)
  {
    assert GetInput(DefaultUsers, typed) == DefaultUsers;
    assert GetInput(DefaultDuration, typed) == DefaultDuration;
    DefaultsParse();
  }

  lemma DefaultsParse()
    ensures ParseInt(DefaultUsers) == Some(50)
    ensures ParseInt(DefaultDuration) == Some(30)
  {
    assert NatToDecimal(5) == "5" && NatToDecimal(3) == "3";
    assert IntToDecimal(50) == DefaultUsers;
    assert IntToDecimal(30) == DefaultDuration;
    ParseIntOfDecimal(50);
    ParseIntOfDecimal(30);
  }

  /**
   * A number outside the range is refused however it was typed: with a
   * sign, white space around it, leading zeros or underscores.
   */
  lemma OutOfRangeRefused(default: string, lo: int, hi: int, typed: string, n: int)
    requires ReadNumber(default, typed) == Some(n) && (n < lo || hi < n)
    ensures !Accepted(default, lo, hi, typed)
  {
  }

  /** Every out-of-range number can be typed, in its plain decimal form, and is refused. */
  lemma OutOfRangeDecimalRefused(default: string, lo: int, hi: int, n: int)
    requires n < lo || hi < n
    ensures ReadNumber(default, IntToDecimal(n)) == Some(n)
    ensures !Accepted(default, lo, hi, IntToDecimal(n))
  {
    var t := IntToDecimal(n);
    StripDecimalNonBlank(n);
    StripDecimal(n);
    assert GetInput(default, t) == t;
    ParseIntOfDecimal(n);
  }

  lemma StripDecimalNonBlank(n: int)
    ensures !AllSpace(IntToDecimal(n))
  {
    var ds := NatToDecimal(if n < 0 then -n else n);
    var t := IntToDecimal(n);
    assert IsDigit(ds[|ds| - 1]) && t[|t| - 1] == ds[|ds| - 1];
  }

  /** The settings `collect_inputs` gathers. */
  datatype Settings = Settings(target: string, users: int, duration: int)

  /**
   * `settings` is what the dialogue reads from `lines`: the target from
   * the first line, the concurrency from line `usersAt`, where the prompt
   * started on the second line ends, and the duration from line
   * `durationAt`, where the prompt started on the next line ends.
   */
  predicate ReadsSettings(lines: seq<string>, settings: Settings, usersAt: nat, durationAt: nat)
  {
    && lines != []
    && settings.target == CollectTarget(lines[0])
    && PromptEndsAt(DefaultUsers, MinUsers, MaxUsers, lines, 1, usersAt)
    && ReadNumber(DefaultUsers, lines[usersAt]) == Some(settings.users)
    && PromptEndsAt(DefaultDuration, MinDuration, MaxDuration, lines, usersAt + 1, durationAt)
    && ReadNumber(DefaultDuration, lines[durationAt]) == Some(settings.duration)
  }

  /**
   * The lines run out before both prompts have ended; `usersAt` is where
   * the concurrency prompt ended, if it did.
   */
  predicate RunsOutOfSettings(lines: seq<string>, usersAt: nat)
  {
    || lines == []
    || PromptRunsOut(DefaultUsers, MinUsers, MaxUsers, lines, 1)
    || (&& PromptEndsAt(DefaultUsers, MinUsers, MaxUsers, lines, 1, usersAt)
        && PromptRunsOut(DefaultDuration, MinDuration, MaxDuration, lines, usersAt + 1))
  }

  /** Settings read from the lines are within the ranges the prompts enforce. */
  lemma ReadSettingsInRange(lines: seq<string>, settings: Settings, usersAt: nat, durationAt: nat)
    requires ReadsSettings(lines, settings, usersAt, durationAt)
    ensures StartsWith(settings.target, "http")
    ensures MinUsers <= settings.users <= MaxUsers
    ensures MinDuration <= settings.duration <= MaxDuration
  {
    assert Accepted(DefaultUsers, MinUsers, MaxUsers, lines[usersAt]);
    assert Accepted(DefaultDuration, MinDuration, MaxDuration, lines[durationAt]);
  }

  /**
   * The lines determine the dialogue: at most one reading of the
   * settings, and none when the lines run out.
   */
  lemma ReadSettingsUnique(lines: seq<string>, s1: Settings, u1: nat, d1: nat, s2: Settings, u2: nat, d2: nat)
    requires ReadsSettings(lines, s1, u1, d1)
    ensures ReadsSettings(lines, s2, u2, d2) ==> s1 == s2 && u1 == u2 && d1 == d2
    ensures !RunsOutOfSettings(lines, u2)
  {
    PromptOutcomeUnique(DefaultUsers, MinUsers, MaxUsers, lines, 1, u1, u2);
    PromptOutcomeUnique(DefaultDuration, MinDuration, MaxDuration, lines, u1 + 1, d1, d2);
  }

  /** The lines the dialogue reads are the ones `AcceptedLine` picks. */
  lemma ReadSettingsLines(lines: seq<string>, settings: Settings, usersAt: nat, durationAt: nat)
    requires ReadsSettings(lines, settings, usersAt, durationAt)
    ensures AcceptedLine(DefaultUsers, MinUsers, MaxUsers, lines, 1) == Some(usersAt)
    ensures AcceptedLine(DefaultDuration, MinDuration, MaxDuration, lines, usersAt + 1) == Some(durationAt)
  {
    AcceptedLineAt(DefaultUsers, MinUsers, MaxUsers, lines, 1, usersAt);
    AcceptedLineAt(DefaultDuration, MinDuration, MaxDuration, lines, usersAt + 1, durationAt);
  }

  /**
   * The first part of `collect_inputs`: the target, then the concurrency
   * prompt until it accepts a line, then the duration prompt until it
   * accepts one. `usersAt` and `durationAt` are the accepted lines.
   */
  method CollectSettings(lines: seq<string>) returns (settings: Option<Settings>, usersAt: nat, durationAt: nat)
    ensures settings.Some? ==> ReadsSettings(lines, settings.value, usersAt, durationAt)
    ensures settings.Some? ==> StartsWith(settings.value.target, "http")
    ensures settings.Some? ==> MinUsers <= settings.value.users <= MaxUsers
    ensures settings.Some? ==> MinDuration <= settings.value.duration <= MaxDuration
    ensures settings.None? ==> RunsOutOfSettings(lines, usersAt)
  {
    if lines == [] {
      return None, 0, 0;
    }
    var target := CollectTarget(lines[0]);
    var users, duration;
    users, usersAt := PromptInRange(DefaultUsers, MinUsers, MaxUsers, lines, 1);
    if users.None? {
      return None, 0, 0;
    }
    duration, durationAt := PromptInRange(DefaultDuration, MinDuration, MaxDuration, lines, usersAt + 1);
    if duration.None? {
      return None, usersAt, 0;
    }
    settings := Some(Settings(target, users.value, duration.value));
  }

  /**
   * `collect_inputs` over the lines the user types: the settings, then the
   * confirmation on the line after the duration line. `None` exactly when
   * the lines run out first.
   */
  method CollectInputs(lines: seq<string>) returns (r: Option<(Settings, bool)>, usersAt: nat, durationAt: nat)
    ensures r.Some? ==> ReadsSettings(lines, r.value.0, usersAt, durationAt)
    ensures r.Some? ==> durationAt + 1 < |lines| && r.value.1 == Confirm(lines[durationAt + 1])
    ensures r.Some? ==> StartsWith(r.value.0.target, "http")
    ensures r.Some? ==> MinUsers <= r.value.0.users <= MaxUsers
    ensures r.Some? ==> MinDuration <= r.value.0.duration <= MaxDuration
    ensures r.None? ==> || RunsOutOfSettings(lines, usersAt)
                        || (exists s :: ReadsSettings(lines, s, usersAt, durationAt) && durationAt + 1 == |lines|)
  {
    var settings;
    settings, usersAt, durationAt := CollectSettings(lines);
    if settings.None? {
      return None, usersAt, durationAt;
    }
    if durationAt + 1 == |lines| {
      return None, usersAt, durationAt;
    }
    r := Some((settings.value, Confirm(lines[durationAt + 1])));
  }

  /**
   * Blank answers to both numeric prompts take the defaults, 50 users for
   * 30 seconds, so with four lines the last is the confirmation.
   */
  lemma BlankDefaultsDialogue(target: string, users: string, duration: string, answer: string)
    requires AllSpace(users) && AllSpace(duration)
    ensures ReadsSettings([target, users, duration, answer], Settings(CollectTarget(target), 50, 30), 1, 2)
  {
    var lines := [target, users, duration, answer];
    BlankAnswerTakesDefault(users);
    BlankAnswerTakesDefault(duration);
    assert lines[1] == users && lines[2] == duration;
  }

  /** `input(...).strip().lower() in ['y', 'yes', '']` */
  predicate Confirm(answer: string)
  {
    var a := Lower(Strip(answer));
    a == "y" || a == "yes" || a == ""
  }

  /**
   * The confirmation in terms of what was typed: a blank line, or "y" or
   * "yes" in any mix of cases, with any surrounding white space.
   */
  lemma ConfirmAnswers(answer: string)
    ensures Confirm(answer) <==>
      var t := Strip(answer);
      || t == ""
      || (|t| == 1 && t[0] in "yY")
      || (|t| == 3 && t[0] in "yY" && t[1] in "eE" && t[2] in "sS")
  {
    var t := Strip(answer);
    var a := Lower(t);
    if |t| == 1 {
      assert a == "y" <==> LowerChar(t[0]) == 'y';
    }
    if |t| == 3 {
      assert a == "yes" <==> (LowerChar(t[0]) == 'y' && LowerChar(t[1]) == 'e' && LowerChar(t[2]) == 's');
    }
  }

  /** A blank line confirms: the prompt's default is yes. */
  lemma BlankConfirms(answer: string)
    requires AllSpace(answer)
    ensures Confirm(answer)
  {
    StripEmptyIff(answer);
  }

  /** `make_request`'s result dict. */
  datatype Outcome = Outcome(success: bool, status: int, worker: int)

  /**
   * `make_request(worker_id)` given what `requests.get` did: a success
   * exactly when a response came back with a status below 400; an
   * exception gives a failure with status 0. The worker id is always kept.
   */
  function MakeRequest(workerId: int, response: Response): (o: Outcome)
    ensures o.worker == workerId
    ensures o.success <==> response.Status? && response.code < 400
    ensures response.Status? ==> o.status == response.code
    ensures response.TransportError? ==> !o.success && o.status == 0
  {
    match response
    case Status(code) => Outcome(code < 400, code, workerId)
    case TransportError => Outcome(false, 0, workerId)
  }

  const BarWidth := 40
  const FullCell := '\U{2588}'
  const EmptyCell := '\U{2591}'

  function MinReal(a: real, b: real): real
  {
    if a <= b then a else b
  }

  /** Python's `int(x)` on a float: truncation toward zero. */
  function Trunc(x: real): (n: int)
    ensures x >= 0.0 ==> n as real <= x < n as real + 1.0
    ensures x < 0.0 ==> n as real - 1.0 < x <= n as real
  {
    if x >= 0.0 then x.Floor else -((-x).Floor)
  }

  /** `int(bar_width * min(elapsed / total_time, 1.0))` */
  function Filled(elapsed: real, totalTime: int): (filled: int)
    requires totalTime > 0
    ensures filled <= BarWidth
    ensures elapsed >= 0.0 ==> 0 <= filled
    ensures filled == BarWidth <==> elapsed >= totalTime as real
  {
    var progress := MinReal(elapsed / totalTime as real, 1.0);
    Trunc(BarWidth as real * progress)
  }

  /** Python's `c * n` for a one-character string: empty when `n <= 0`. */
  function Repeat(c: char, n: int): (s: string)
    ensures |s| == if n <= 0 then 0 else n
    ensures forall i :: 0 <= i < |s| ==> s[i] == c
  {
    if n <= 0 then [] else seq(n, i => c)
  }

  /** The bar of `update_display`: `filled` full cells followed by empty ones. */
  function ProgressBar(elapsed: real, totalTime: int): (bar: string)
    requires totalTime > 0
    ensures elapsed >= 0.0 ==> |bar| == BarWidth
    ensures forall i :: 0 <= i < |bar| ==>
      bar[i] == (if i < Filled(elapsed, totalTime) then FullCell else EmptyCell)
    ensures elapsed >= totalTime as real ==> forall i :: 0 <= i < |bar| ==> bar[i] == FullCell
  {
    var filled := Filled(elapsed, totalTime);
    Repeat(FullCell, filled) + Repeat(EmptyCell, BarWidth - filled)
  }

  /** The bar only fills up as time passes. */
  lemma FilledMonotone(earlier: real, later: real, totalTime: int)
    requires totalTime > 0 && 0.0 <= earlier <= later
    ensures Filled(earlier, totalTime) <= Filled(later, totalTime)
  {
    var t := totalTime as real;
    assert earlier / t <= later / t;
  }

  /**
   * A clock that steps back by more than a fortieth of the run makes the
   * bar wider than 40 cells: `int()` truncates toward zero and Python's
   * repetition by a negative count is empty.
   */
  lemma NegativeElapsedWidensBar(elapsed: real, totalTime: int)
    requires totalTime > 0 && elapsed * BarWidth as real <= -(totalTime as real)
    ensures Filled(elapsed, totalTime) < 0
    ensures |ProgressBar(elapsed, totalTime)| == BarWidth - Filled(elapsed, totalTime)
  {
    var t := totalTime as real;
    assert elapsed / t * 40.0 <= -1.0;
  }
}
