/** The snorkel's link to the server: down and waiting to dial, up, or stopped for good. */
module SnorkelLink {
  import opened Backoff
  import opened Session

  datatype Link =
    | Down(notBefore: real, run: FailureRun)
    | Up
    | Stopped

  datatype Report = Report(sessions: nat, bytesToServer: nat, bytesToSocket: nat)

  datatype Event =
    | ShutDown
    | SocketAbsent
    | DialFailed
    | Established
    | Ended(outcome: Outcome)

  datatype Input = Input(event: Event, now: real, jitter: real)

  datatype State = State(link: Link, report: Report)

  /** What can come next: nothing is dialled before its time, and only a session that is up can end. */
  predicate Legal(link: Link, input: Input) {
    && IsJitter(input.jitter)
    && match link
       case Down(notBefore, _) => !input.event.Ended? && (input.event.ShutDown? || input.now >= notBefore)
       case Up => input.event.ShutDown? || input.event.Ended?
       case Stopped => false
  }

  function Waiting(run: FailureRun, input: Input): Link {
    Down(input.now + Delay(run, input.jitter), run)
  }

  function AfterFailure(once: bool, run: FailureRun, input: Input): Link {
    if once then Stopped else Waiting(Failed(run), input)
  }

  function Next(once: bool, s: State, input: Input): State
    requires Legal(s.link, input)
  {
    match input.event
    case ShutDown => s.(link := Stopped)
    case SocketAbsent => s.(link := AfterFailure(once, s.link.run, input))
    case DialFailed => s.(link := AfterFailure(once, s.link.run, input))
    case Established => State(Up, s.report.(sessions := s.report.sessions + 1))
    case Ended(outcome) =>
      State(if once then Stopped
            else Waiting(FailureRun(if Productive(outcome) then 0 else 1), input),
            s.report.(bytesToServer := s.report.bytesToServer + outcome.toRemote,
                      bytesToSocket := s.report.bytesToSocket + outcome.toLocal))
  }

  /** The snorkel as an object that steps in place. */
  class Snorkel {
    const once: bool
    var link: Link
    var report: Report

    ghost function View(): State
      reads this
    {
      State(link, report)
    }

    constructor (once: bool, now: real)
      ensures this.once == once && View() == Start(now)
    {
      this.once, link, report := once, Down(now, FailureRun(0)), Report(0, 0, 0);
    }

    method Step(input: Input)
      requires Legal(link, input)
      modifies this
      ensures View() == Next(once, old(View()), input)
    {
      match link
      case Down(_, run) =>
        if input.event.ShutDown? {
          link := Stopped;
          return;
        }
        if input.event.SocketAbsent? {
          Fail(run, input);
          return;
        }
        if input.event.Established? {
          report := report.(sessions := report.sessions + 1);
          link := Up;
        } else {
          Fail(run, input);
        }
      case Up =>
        if input.event.ShutDown? {
          link := Stopped;
          return;
        }
        var outcome := input.event.outcome;
        report := report.(bytesToServer := report.bytesToServer + outcome.toRemote);
        report := report.(bytesToSocket := report.bytesToSocket + outcome.toLocal);
        if once {
          link := Stopped;
        } else {
          var run := if Productive(outcome) then FailureRun(0) else FailureRun(1);
          link := Down(input.now + Delay(run, input.jitter), run);
        }
    }

    method Fail(run: FailureRun, input: Input)
      modifies this`link
      ensures link == AfterFailure(once, run, input)
    {
      if once {
        link := Stopped;
        return;
      }
      var longer := FailureRun(if run.attempts == U32_MAX then U32_MAX else run.attempts + 1);
      link := Down(input.now + Delay(longer, input.jitter), longer);
    }

    /** Steps until the link has stopped, or nothing more happens. */
    method Run(inputs: seq<Input>)
      requires link.Down? && View() == Start(link.notBefore)
      requires LegalRun(once, link.notBefore, inputs)
      modifies this
      ensures View() == After(once, old(link.notBefore), inputs)
    {
      ghost var start := link.notBefore;
      var n := 0;
      LegalPrefix(once, start, inputs, 0);
      while n < |inputs| && !link.Stopped?
        invariant n <= |inputs|
        invariant LegalRun(once, start, inputs[..n]) && View() == After(once, start, inputs[..n])
      {
        LegalAt(once, start, inputs, n);
        assert inputs[..n + 1][..n] == inputs[..n];
        Step(inputs[n]);
        n := n + 1;
      }
      if n < |inputs| {
        LegalAt(once, start, inputs, n);
        assert false;
      }
      assert inputs[..|inputs|] == inputs;
    }
  }

  // ----- Whole runs

  function Start(now: real): State {
    State(Down(now, FailureRun(0)), Report(0, 0, 0))
  }

  ghost predicate LegalRun(once: bool, start: real, inputs: seq<Input>)
    decreases |inputs|, 0
  {
    inputs != [] ==>
      var front, last := inputs[..|inputs| - 1], inputs[|inputs| - 1];
      LegalRun(once, start, front) && Legal(After(once, start, front).link, last)
  }

  ghost function After(once: bool, start: real, inputs: seq<Input>): State
    requires LegalRun(once, start, inputs)
    decreases |inputs|, 1
  {
    if inputs == [] then Start(start) else
      Next(once, After(once, start, inputs[..|inputs| - 1]), inputs[|inputs| - 1])
  }

  lemma {:induction false} LegalPrefix(once: bool, start: real, inputs: seq<Input>, n: nat)
    requires LegalRun(once, start, inputs) && n <= |inputs|
    ensures LegalRun(once, start, inputs[..n])
    decreases |inputs|
  {
    if n == |inputs| {
      assert inputs[..n] == inputs;
    } else {
      LegalPrefix(once, start, inputs[..|inputs| - 1], n);
      assert inputs[..|inputs| - 1][..n] == inputs[..n];
    }
  }

  lemma LegalAt(once: bool, start: real, inputs: seq<Input>, n: nat)
    requires LegalRun(once, start, inputs) && n < |inputs|
    ensures LegalRun(once, start, inputs[..n]) && LegalRun(once, start, inputs[..n + 1])
    ensures Legal(After(once, start, inputs[..n]).link, inputs[n])
  {
    LegalPrefix(once, start, inputs, n);
    LegalPrefix(once, start, inputs, n + 1);
    assert inputs[..n + 1][..n] == inputs[..n];
  }

  /** How often a link that was down came up. */
  ghost function TimesUp(once: bool, start: real, inputs: seq<Input>): nat
    requires LegalRun(once, start, inputs)
  {
    if inputs == [] then 0 else
      var front := inputs[..|inputs| - 1];
      TimesUp(once, start, front)
      + if After(once, start, front).link.Down? && After(once, start, inputs).link.Up? then 1 else 0
  }

  /** The bytes of the sessions that ended by themselves. */
  function EndedBytes(inputs: seq<Input>): (nat, nat) {
    if inputs == [] then (0, 0) else
      var before, last := EndedBytes(inputs[..|inputs| - 1]), inputs[|inputs| - 1].event;
      if last.Ended? then (before.0 + last.outcome.toRemote, before.1 + last.outcome.toLocal) else before
  }

  /** The failures in a row at the end; a session that moved nothing and was soon over counts as one. */
  function Failures(inputs: seq<Input>): nat {
    if inputs == [] then 0 else
      var before, last := Failures(inputs[..|inputs| - 1]), inputs[|inputs| - 1].event;
      if last.SocketAbsent? || last.DialFailed? then before + 1
      else if last.Ended? then
        (if last.outcome.toRemote == 0 && last.outcome.toLocal == 0 && last.outcome.lasted < 10_000.0 then 1 else 0)
      else before
  }

  /** The report counts the sessions that came up and adds up those that ended by themselves; a session
      cut off by a shutdown is counted but its bytes are not. */
  lemma {:induction false} ReportAccounts(once: bool, start: real, inputs: seq<Input>)
    requires LegalRun(once, start, inputs)
    ensures After(once, start, inputs).report
            == Report(TimesUp(once, start, inputs), EndedBytes(inputs).0, EndedBytes(inputs).1)
  {
    if inputs != [] {
      ReportAccounts(once, start, inputs[..|inputs| - 1]);
    }
  }

  /** What each session delivered in its two directions, listed beside the input that ended it: the
      counters of a session that ended by itself are at most that, as they are when it is run. */
  ghost predicate CountsWithin(inputs: seq<Input>, delivered: seq<(nat, nat)>) {
    && |delivered| == |inputs|
    && forall k :: 0 <= k < |inputs| && inputs[k].event.Ended? ==>
         inputs[k].event.outcome.toRemote <= delivered[k].0 && inputs[k].event.outcome.toLocal <= delivered[k].1
  }

  function Total(delivered: seq<(nat, nat)>): (nat, nat) {
    if delivered == [] then (0, 0) else
      var before, last := Total(delivered[..|delivered| - 1]), delivered[|delivered| - 1];
      (before.0 + last.0, before.1 + last.1)
  }

  lemma {:induction false} EndedWithin(inputs: seq<Input>, delivered: seq<(nat, nat)>)
    requires CountsWithin(inputs, delivered)
    ensures EndedBytes(inputs).0 <= Total(delivered).0 && EndedBytes(inputs).1 <= Total(delivered).1
  {
    if inputs != [] {
      EndedWithin(inputs[..|inputs| - 1], delivered[..|delivered| - 1]);
    }
  }

  /** The report never claims more than all sessions together delivered, those cut off included. */
  lemma ReportWithinDelivered(once: bool, start: real, inputs: seq<Input>, delivered: seq<(nat, nat)>)
    requires LegalRun(once, start, inputs) && CountsWithin(inputs, delivered)
    ensures var report := After(once, start, inputs).report;
            report.bytesToServer <= Total(delivered).0 && report.bytesToSocket <= Total(delivered).1
  {
    ReportAccounts(once, start, inputs);
    EndedWithin(inputs, delivered);
  }

  /** With `once` there is never a second session, nor a second dial after a failed one. */
  lemma {:induction false} OnceMeansOnce(start: real, inputs: seq<Input>)
    requires LegalRun(true, start, inputs)
    ensures After(true, start, inputs).report.sessions <= 1
    ensures After(true, start, inputs).link.Down? ==> inputs == []
  {
    if inputs != [] {
      OnceMeansOnce(start, inputs[..|inputs| - 1]);
    }
  }

  lemma {:induction false} WaitFollowsFailures(once: bool, start: real, inputs: seq<Input>)
    requires LegalRun(once, start, inputs)
    ensures var link := After(once, start, inputs).link;
            link.Down? ==>
              && link.run == FailedTimes(Failures(inputs))
              && (inputs != [] ==>
                    var last := inputs[|inputs| - 1];
                    link.notBefore == last.now + Delay(link.run, last.jitter) && IsJitter(last.jitter))
  {
    if inputs != [] {
      WaitFollowsFailures(once, start, inputs[..|inputs| - 1]);
      AttemptsCount(1);
    }
  }

  /** Half a second, doubled with every failure in a row after the first, and cut off at half a minute. */
  function BaseAfter(failures: nat): nat {
    if failures == 0 then 500
    else if 500 * PowerOfTwo(failures - 1) < 30_000 then 500 * PowerOfTwo(failures - 1)
    else 30_000
  }

  /** In every run, the wait after the k-th failure in a row is four fifths to the whole of the doubled
      first delay, and never above the maximum; right after a productive session it is the first delay. */
  lemma WaitWithin(once: bool, start: real, inputs: seq<Input>)
    requires LegalRun(once, start, inputs) && inputs != [] && After(once, start, inputs).link.Down?
    ensures var k, wait := Failures(inputs), After(once, start, inputs).link.notBefore - inputs[|inputs| - 1].now;
            var base := BaseAfter(k);
            0.8 * base as real <= wait <= base as real <= 30_000.0
  {
    WaitFollowsFailures(once, start, inputs);
    var k := Failures(inputs);
    if k > 0 {
      BaseAfterFailures(k);
    }
    DelayWithin(FailedTimes(k), inputs[|inputs| - 1].jitter);
  }

  /** What a run leads to is told by its last input: up after a session was established, stopped after a shutdown,
      and after a failed dial or the end of a session waiting to dial again, or stopped if that was not wanted. */
  lemma LastInputDecides(once: bool, start: real, inputs: seq<Input>)
    requires LegalRun(once, start, inputs) && inputs != []
    ensures var link, last := After(once, start, inputs).link, inputs[|inputs| - 1].event;
            && (link.Up? <==> last.Established?)
            && (link.Stopped? <==> last.ShutDown? || (once && !last.Established?))
            && (link.Down? <==> !once && (last.SocketAbsent? || last.DialFailed? || last.Ended?))
  {
  }

  /** No dial comes sooner after the end of the dial or session before it than four fifths of the doubled first
      delay. */
  lemma DialsAreSpaced(once: bool, start: real, inputs: seq<Input>)
    requires LegalRun(once, start, inputs) && |inputs| >= 2
    requires var last := inputs[|inputs| - 1].event; last.SocketAbsent? || last.DialFailed? || last.Established?
    ensures var n := |inputs| - 1;
            inputs[n].now - inputs[n - 1].now >= 0.8 * BaseAfter(Failures(inputs[..n])) as real
  {
    hide Failures, Delay;
    var front := inputs[..|inputs| - 1];
    assert LegalRun(once, start, front) && After(once, start, front).link.Down?;
    WaitWithin(once, start, front);
  }
}
