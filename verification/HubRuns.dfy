/** Runs of the hub from its start, and what holds in every state of every run. */
module HubRuns {
  import opened HubState
  import opened HubSteps
  import opened HubSubscriptions
  import HubLinks
  import HubAway
  import HubIds
  import HubTexts

  /** `labels[i]` takes `states[i]` to `states[i + 1]`. */
  datatype Run = Run(states: seq<State>, labels: seq<Label>)

  ghost predicate StepAt(r: Run, i: int)
    requires 0 <= i < |r.labels| && |r.states| == |r.labels| + 1
  {
    Legal(r.states[i], r.labels[i]) && r.states[i + 1] == Step(r.states[i], r.labels[i])
  }

  ghost predicate IsRun(r: Run) {
    && |r.states| == |r.labels| + 1
    && r.states[0] == INITIAL
    && forall i :: 0 <= i < |r.labels| ==> StepAt(r, i)
  }

  /** Everything the five invariants say of one state. */
  ghost predicate Good(s: State) {
    && Subscribed(s.book)
    && HubLinks.LinksOk(s.slot, s.links)
    && HubAway.AwayAgrees(s)
    && HubIds.IdsOk(s)
    && HubTexts.TextsOk(s)
  }

  lemma InitialIsGood()
    ensures Good(INITIAL)
  {
  }

  lemma StepKeepsGood(s: State, l: Label)
    requires Good(s) && Legal(s, l)
    ensures Good(Step(s, l))
  {
    hide Step, Legal, Subscribed, PhonesNumbered, HubLinks.LinksOk, HubAway.AwayAgrees, HubIds.IdsOk, HubTexts.TextsOk;
    AreNumbered(s.book);
    StepKeepsSubscribed(s, l);
    HubLinks.StepKeepsLinks(s, l);
    HubAway.StepKeepsAway(s, l);
    HubIds.StepKeepsIds(s, l);
    HubTexts.StepKeepsTexts(s, l);
  }

  /** Every reachable state is good. */
  lemma {:induction false} Reachable(r: Run, i: nat)
    requires IsRun(r) && i < |r.states|
    ensures Good(r.states[i])
  {
    hide Good, Step, Legal;
    if i == 0 {
      InitialIsGood();
    } else {
      Reachable(r, i - 1);
      assert StepAt(r, i - 1);
      StepKeepsGood(r.states[i - 1], r.labels[i - 1]);
    }
  }

  lemma RunExtends(r: Run, l: Label, s': State)
    requires IsRun(r) && Legal(r.states[|r.labels|], l) && s' == Step(r.states[|r.labels|], l)
    ensures IsRun(Run(r.states + [s'], r.labels + [l]))
  {
    hide Step, Legal;
    var longer := Run(r.states + [s'], r.labels + [l]);
    forall i | 0 <= i < |longer.labels| ensures StepAt(longer, i) {
      if i < |r.labels| {
        assert StepAt(r, i);
      }
    }
  }

  // ----- What a run makes of what arrives

  /** A deadline has been reached. */
  predicate Due(home: Home, now: int) {
    CurrentDeadline(home).Some? && CurrentDeadline(home).value <= now
  }

  /** No deadline stands, or it is still to come. */
  predicate TooSoon(home: Home, now: int) {
    match CurrentDeadline(home)
    case Some(deadline) => now < deadline
    case None => true
  }

  lemma DueOrTooSoon(home: Home, now: int)
    ensures Due(home, now) <==> !TooSoon(home, now)
  {
  }

  /** Arrival `a` is a wake-up for a deadline, and none was due in the state it found, the one between the
      arrivals kept before it and those kept after it. */
  ghost predicate Skipped(r: Run, kept: seq<nat>, arrivals: seq<(Event, int)>, a: nat)
    requires a < |arrivals|
  {
    && arrivals[a].0.DeadlinePassed?
    && exists n: nat ::
         n < |r.states| && TooSoon(r.states[n].slot.home, arrivals[a].1)
         && forall k :: 0 <= k < |kept| ==> (k < n <==> kept[k] < a)
  }

  /** The run is made of the arrivals kept, in the order of arrival, and of all but needless wake-ups. */
  ghost predicate Handles(r: Run, kept: seq<nat>, arrivals: seq<(Event, int)>) {
    && |kept| == |r.labels|
    && (forall k :: 0 <= k < |kept| ==>
          kept[k] < |arrivals| && (r.labels[k].event, r.labels[k].now) == arrivals[kept[k]])
    && (forall k, m :: 0 <= k < m < |kept| ==> kept[k] < kept[m])
    && (forall a: nat :: a < |arrivals| && a !in kept ==> Skipped(r, kept, arrivals, a))
  }

  lemma NothingToHandle(r: Run)
    requires r.labels == []
    ensures Handles(r, [], [])
  {
  }

  lemma HandlesMore(r: Run, kept: seq<nat>, arrivals: seq<(Event, int)>, l: Label, s': State)
    requires Handles(r, kept, arrivals) && |r.states| == |r.labels| + 1
    ensures Handles(Run(r.states + [s'], r.labels + [l]), kept + [|arrivals|], arrivals + [(l.event, l.now)])
  {
    hide CurrentDeadline, TooSoon;
    var r', kept', arrivals' := Run(r.states + [s'], r.labels + [l]), kept + [|arrivals|], arrivals + [(l.event, l.now)];
    forall a: nat | a < |arrivals'| && a !in kept' ensures Skipped(r', kept', arrivals', a) {
      assert kept'[|kept|] == |arrivals|;
      var n: nat :| n < |r.states| && TooSoon(r.states[n].slot.home, arrivals[a].1)
        && forall k :: 0 <= k < |kept| ==> (k < n <==> kept[k] < a);
      assert r'.states[n] == r.states[n];
    }
  }

  lemma HandlesSkip(r: Run, kept: seq<nat>, arrivals: seq<(Event, int)>, arrival: (Event, int))
    requires Handles(r, kept, arrivals) && |r.states| == |r.labels| + 1
    requires arrival.0.DeadlinePassed? && !Due(r.states[|r.labels|].slot.home, arrival.1)
    ensures Handles(r, kept, arrivals + [arrival])
  {
    hide CurrentDeadline, TooSoon, Due;
    DueOrTooSoon(r.states[|r.labels|].slot.home, arrival.1);
    var arrivals' := arrivals + [arrival];
    forall a: nat | a < |arrivals'| && a !in kept ensures Skipped(r, kept, arrivals', a) {
      if a < |arrivals| {
        var n: nat :| n < |r.states| && TooSoon(r.states[n].slot.home, arrivals[a].1)
          && forall k :: 0 <= k < |kept| ==> (k < n <==> kept[k] < a);
      } else {
        assert forall k :: 0 <= k < |kept| ==> (k < |r.labels| <==> kept[k] < a);
      }
    }
  }
}
