/** What holds of the channels in every state the hub can reach, in terms of the texts on them alone. */
module HubSafety {
  import opened Json
  import opened SessionOrder
  import opened HubState
  import opened HubSubscriptions
  import opened HubRuns
  import HubAway
  import HubIds
  import HubLinks
  import HubTexts

  lemma ReachedState(r: Run, i: nat)
    requires IsRun(r) && i < |r.states|
    ensures Subscribed(r.states[i].book)
    ensures HubLinks.LinksOk(r.states[i].slot, r.states[i].links)
    ensures HubAway.AwayAgrees(r.states[i])
    ensures HubIds.IdsOk(r.states[i])
    ensures HubTexts.TextsOk(r.states[i])
  {
    hide IsRun, Subscribed, HubLinks.LinksOk, HubAway.AwayAgrees, HubIds.IdsOk, HubTexts.TextsOk;
    Reachable(r, i);
  }

  /** The last away note of every initialized phone, none counting as "not away", tells the truth:
      the host is away exactly when no link is served. */
  lemma LastNoteIsTrue(r: Run, i: nat, p: PhoneId)
    requires IsRun(r) && i < |r.states| && PhoneReady(r.states[i].book, p)
    ensures HubAway.LastAway(Sent(r.states[i].texts, p)) <==> MuxGen(r.states[i].slot.home).None?
  {
    hide IsRun, Subscribed, HubLinks.LinksOk, HubIds.IdsOk, HubTexts.TextsOk;
    ReachedState(r, i);
  }

  /** What any link was ever sent: first `initialize`, then loads with ids and sessions ascending, then
      texts of phones, none of which asks to initialize. */
  lemma LinkHearsInOrder(r: Run, i: nat, g: Gen, j: nat, k: nat)
    requires IsRun(r) && i < |r.states| && j <= k < |Sent(r.states[i].links, g)|
    ensures var out := Sent(r.states[i].links, g);
            && (out[k].Initialize? <==> k == 0)
            && (out[j].FromPhone? ==> out[k].FromPhone?)
            && (j < k && out[j].Load? && out[k].Load? ==>
                  out[j].id < out[k].id && Before(out[j].session, out[k].session))
            && (out[k].FromPhone? ==> !HubLinks.AsksToInitialize(out[k].obj))
  {
    hide IsRun, Subscribed, HubAway.AwayAgrees, HubIds.IdsOk, HubTexts.TextsOk, HubLinks.LinksOk;
    ReachedState(r, i);
    AnyLinkInOrder(r.states[i], g);
  }

  lemma AnyLinkInOrder(s: State, g: Gen)
    requires HubLinks.LinksOk(s.slot, s.links)
    ensures HubLinks.Grammar(Sent(s.links, g))
  {
    hide HubLinks.Conserved, HubLinks.StageMatches;
  }

  /** No text of a phone ever reaches a link that is still being brought up. */
  lemma CandidateHearsOnlyHub(r: Run, i: nat, g: Gen)
    requires IsRun(r) && i < |r.states| && CandidateAt(r.states[i].slot.home, g).Some?
    ensures HubLinks.OnlyHub(Sent(r.states[i].links, g))
  {
    hide IsRun, Subscribed, HubAway.AwayAgrees, HubIds.IdsOk, HubTexts.TextsOk, HubLinks.LinksOk;
    ReachedState(r, i);
    CandidateOut(r.states[i], g);
  }

  lemma CandidateOut(s: State, g: Gen)
    requires HubLinks.LinksOk(s.slot, s.links) && CandidateAt(s.slot.home, g).Some?
    ensures HubLinks.OnlyHub(Sent(s.links, g))
  {
    AnyLinkInOrder(s, g);
    hide HubLinks.Conserved;
  }

  /** No two requests on any links ever carry the same id. */
  lemma RequestIdsDistinct(r: Run, i: nat, g: Gen, j: nat, g': Gen, k: nat)
    requires IsRun(r) && i < |r.states|
    requires j < |Sent(r.states[i].links, g)| && k < |Sent(r.states[i].links, g')|
    requires HubIds.RequestId(Sent(r.states[i].links, g)[j]).Some?
    requires HubIds.RequestId(Sent(r.states[i].links, g)[j]) == HubIds.RequestId(Sent(r.states[i].links, g')[k])
    ensures g == g' && j == k
  {
    hide IsRun, Subscribed, HubAway.AwayAgrees, HubLinks.LinksOk, HubTexts.TextsOk;
    ReachedState(r, i);
    var h := HubIds.RequestId(Sent(r.states[i].links, g)[j]).value;
    assert HubIds.Carries(Sent(r.states[i].links, g), h) && HubIds.Carries(Sent(r.states[i].links, g'), h);
    assert HubIds.Growing(Sent(r.states[i].links, g), r.states[i].nextReq);
  }

  /** No two questions ever put to any phones carry the same id. */
  lemma QuestionIdsDistinct(r: Run, i: nat, p: PhoneId, j: nat, q: PhoneId, k: nat)
    requires IsRun(r) && i < |r.states|
    requires j < |Sent(r.states[i].texts, p)| && k < |Sent(r.states[i].texts, q)|
    requires HubTexts.IsQuestion(Sent(r.states[i].texts, p)[j]) && HubTexts.IsQuestion(Sent(r.states[i].texts, q)[k])
    requires Id(Sent(r.states[i].texts, p)[j].obj) == Id(Sent(r.states[i].texts, q)[k].obj)
    ensures p == q && j == k
  {
    hide IsRun, Subscribed, HubAway.AwayAgrees, HubLinks.LinksOk, HubIds.IdsOk, QuestionId;
    ReachedState(r, i);
    var s := r.states[i];
    assert HubTexts.AscendingQuestions(Sent(s.texts, p), s.book.reverseSeq);
    assert HubTexts.Numbered(Sent(s.texts, p)[j], s.book.reverseSeq);
    var n :| 1 <= n <= s.book.reverseSeq && HubTexts.Asks(Sent(s.texts, p)[j], n);
    assert HubTexts.Asks(Sent(s.texts, q)[k], n);
    assert HubTexts.Poses(Sent(s.texts, p), n) && HubTexts.Poses(Sent(s.texts, q), n);
  }

  /** A phone that has not initialized has only ever been sent errors and results: no note, no update, no
      question. */
  lemma QuietBeforeInitialize(r: Run, i: nat, p: PhoneId)
    requires IsRun(r) && i < |r.states| && p in r.states[i].book.phones && !PhoneReady(r.states[i].book, p)
    ensures HubTexts.OnlyAnswers(Sent(r.states[i].texts, p))
  {
    hide IsRun, Subscribed, HubAway.AwayAgrees, HubLinks.LinksOk, HubIds.IdsOk, HubTexts.QuestionsOk;
    ReachedState(r, i);
  }

  /** Whoever watches a session is connected and initialized, and one of its watchers drives it. */
  lemma WatchersAreReady(r: Run, i: nat, session: SessionId, p: PhoneId)
    requires IsRun(r) && i < |r.states| && p in Watching(r.states[i].book, session)
    ensures PhoneReady(r.states[i].book, p)
    ensures session in r.states[i].book.driver && r.states[i].book.driver[session] in Watching(r.states[i].book, session)
  {
    hide IsRun, HubAway.AwayAgrees, HubLinks.LinksOk, HubIds.IdsOk, HubTexts.TextsOk;
    ReachedState(r, i);
    assert Driven(r.states[i].book, session);
  }
}
