/** Finality is stable over whole runs. */
module Finality {
  import opened Ids
  import opened Records
  import opened State
  import opened WorkLifecycle
  import opened Machine

  /** What a finality receipt promises about its work receipt. */
  ghost predicate Settled(d: Docket, f: FinalityReceipt) {
    && f.receipt in d.receipts && d.receipts[f.receipt].rootfield == f.rootfield
    && IsFinalityStatus(f.status)
    && HasAcceptedReport(d.reports, f.receipt)
    && !HasOpenChallenge(d.challenges, f.receipt)
    && f.challengeCount == |ChallengesOn(d.challenges, f.receipt)|
  }

  ghost predicate AllSettled(d: Docket) {
    forall k :: k in d.finality ==> Settled(d, d.finality[k])
  }

  /** A work receipt has at most one finality receipt. */
  ghost predicate FinalizedOnce(finality: map<Id, FinalityReceipt>) {
    forall j, k :: j in finality && k in finality && finality[j].receipt == finality[k].receipt ==> j == k
  }

  ghost predicate DocketOk(d: Docket) {
    AllSettled(d) && FinalizedOnce(d.finality)
  }

  /** What is final stays: finality receipts, and the challenges on finalized work, never change. */
  ghost predicate FinalStays(d: Docket, d': Docket) {
    && (forall k :: k in d.finality ==> k in d'.finality && d'.finality[k] == d.finality[k])
    && (forall x :: IsFinalized(d.finality, x) ==> SameChallenges(d.challenges, d'.challenges, x))
  }

  ghost predicate SameChallenges(m: map<Id, Challenge>, n: map<Id, Challenge>, receipt: Id) {
    && ChallengesOn(n, receipt) == ChallengesOn(m, receipt)
    && forall k :: k in ChallengesOn(m, receipt) ==> n[k] == m[k]
  }

  // ----- one step -----

  lemma Refinalized(d: Docket, x: Id)
    requires AllSettled(d) && IsFinalized(d.finality, x)
    ensures !HasOpenChallenge(d.challenges, x) && HasAcceptedReport(d.reports, x) && x in d.receipts
  {
    var k :| k in d.finality && d.finality[k].receipt == x;
    assert Settled(d, d.finality[k]);
  }

  lemma OpenSettles(d: Docket, now: nat, tx: Tx)
    requires DocketOk(d) && tx.OpenChallenge?
    ensures var d' := OpenStep(d, now, tx).state; DocketOk(d') && FinalStays(d, d')
  {
    hide HasAcceptedReport, IsFinalityStatus;
    var d' := OpenStep(d, now, tx).state;
    if d' != d {
      forall x | IsFinalized(d.finality, x)
        ensures SameChallenges(d.challenges, d'.challenges, x)
      {
        assert x != tx.receipt;
        assert ChallengesOn(d'.challenges, x) == ChallengesOn(d.challenges, x);
      }
      forall k | k in d'.finality
        ensures Settled(d', d'.finality[k])
      {
        assert Settled(d, d.finality[k]);
        assert IsFinalized(d.finality, d.finality[k].receipt);
        SettledWithSame(d, d', d.finality[k]);
      }
    }
  }

  lemma SettledWithSame(d: Docket, d': Docket, f: FinalityReceipt)
    requires Settled(d, f) && d'.receipts == d.receipts && d'.reports == d.reports
    requires SameChallenges(d.challenges, d'.challenges, f.receipt)
    ensures Settled(d', f)
  {
    hide HasAcceptedReport, IsFinalityStatus;
    forall k | k in d'.challenges && d'.challenges[k].receipt == f.receipt
      ensures !d'.challenges[k].status.Open?
    {
      assert k in ChallengesOn(d'.challenges, f.receipt);
    }
  }

  lemma ResolveSettles(d: Docket, now: nat, tx: Tx)
    requires DocketOk(d) && tx.ResolveChallenge?
    ensures var d' := ResolveStep(d, now, tx).state; DocketOk(d') && FinalStays(d, d')
  {
    hide HasAcceptedReport, IsFinalityStatus;
    var d' := ResolveStep(d, now, tx).state;
    if d' != d {
      forall x | IsFinalized(d.finality, x)
        ensures SameChallenges(d.challenges, d'.challenges, x)
      {
        Refinalized(d, x);
        assert d.challenges[tx.challenge].receipt != x;
        assert ChallengesOn(d'.challenges, x) == ChallengesOn(d.challenges, x);
      }
      forall k | k in d'.finality
        ensures Settled(d', d'.finality[k])
      {
        assert Settled(d, d.finality[k]);
        assert IsFinalized(d.finality, d.finality[k].receipt);
        SettledWithSame(d, d', d.finality[k]);
      }
    }
  }

  lemma FinalizeKeepsSettled(d: Docket, now: nat, root: Digest, tx: Tx)
    requires AllSettled(d) && tx.FinalizeWork?
    ensures AllSettled(FinalizeStep(d, now, root, tx).state)
  {
    hide HasAcceptedReport, IsFinalityStatus, HasFailedReport, HasOpenChallenge, IsFinalized, ChallengesOn;
    var d' := FinalizeStep(d, now, root, tx).state;
    forall k | k in d'.finality
      ensures Settled(d', d'.finality[k])
    {
      if k in d.finality {
        assert Settled(d, d.finality[k]);
      }
    }
  }

  lemma FinalizeOnlyOnce(d: Docket, now: nat, root: Digest, tx: Tx)
    requires FinalizedOnce(d.finality) && tx.FinalizeWork?
    ensures FinalizedOnce(FinalizeStep(d, now, root, tx).state.finality)
  {
    hide AcceptanceCheck, IsFinalityStatus, HasOpenChallenge, ChallengesOn;
  }

  lemma FinalizeOnlyAdds(d: Docket, now: nat, root: Digest, tx: Tx)
    requires tx.FinalizeWork?
    ensures FinalStays(d, FinalizeStep(d, now, root, tx).state)
  {
    hide AcceptanceCheck, IsFinalityStatus, HasOpenChallenge, IsFinalized;
  }

  lemma FinalizeSettles(d: Docket, now: nat, root: Digest, tx: Tx)
    requires DocketOk(d) && tx.FinalizeWork?
    ensures var d' := FinalizeStep(d, now, root, tx).state; DocketOk(d') && FinalStays(d, d')
  {
    hide AllSettled, FinalizedOnce, FinalizeStep;
    FinalizeKeepsSettled(d, now, root, tx);
    FinalizeOnlyOnce(d, now, root, tx);
    FinalizeOnlyAdds(d, now, root, tx);
  }

  /** New receipts and reports never unsettle what is final. */
  lemma GrowthSettles(d: Docket, d': Docket)
    requires DocketOk(d) && d'.challenges == d.challenges && d'.finality == d.finality
    requires forall k :: k in d.receipts ==> k in d'.receipts && d'.receipts[k] == d.receipts[k]
    requires forall k :: k in d.reports ==> k in d'.reports && d'.reports[k] == d.reports[k]
    ensures DocketOk(d') && FinalStays(d, d')
  {
    hide IsFinalityStatus, HasOpenChallenge, IsAccepted;
    forall k | k in d'.finality
      ensures Settled(d', d'.finality[k])
    {
      assert Settled(d, d.finality[k]);
      var r :| r in d.reports && d.reports[r].receipt == d.finality[k].receipt && IsAccepted(d.reports[r].status);
      assert r in d'.reports && d'.reports[r].receipt == d.finality[k].receipt && IsAccepted(d'.reports[r].status);
    }
  }

  lemma WorkStepGrows(w: Work, now: nat, root: Digest, tx: Tx)
    requires IsWorkTx(tx) && !IsDocketTx(tx)
    ensures var d := w.docket;
            var d' := WorkStep(w, now, root, tx).state.docket;
            && d'.challenges == d.challenges && d'.finality == d.finality
            && (forall k :: k in d.receipts ==> k in d'.receipts && d'.receipts[k] == d.receipts[k])
            && (forall k :: k in d.reports ==> k in d'.reports && d'.reports[k] == d.reports[k])
  {
    hide RegistryStep, ImportStep, AcceptanceCheck, RootfieldCheck;
  }

  lemma WorkSettles(w: Work, now: nat, root: Digest, tx: Tx)
    requires DocketOk(w.docket) && IsWorkTx(tx)
    ensures var d' := WorkStep(w, now, root, tx).state.docket; DocketOk(d') && FinalStays(w.docket, d')
  {
    hide DocketOk, FinalStays, RegistryStep, OpenStep, ResolveStep, FinalizeStep, ImportStep, MemoryStep, SubmitWorkStep,
         ReportStep, ArtifactStep;
    if tx.OpenChallenge? {
      OpenSettles(w.docket, now, tx);
    } else if tx.ResolveChallenge? {
      ResolveSettles(w.docket, now, tx);
    } else if tx.FinalizeWork? {
      FinalizeSettles(w.docket, now, root, tx);
    } else {
      WorkStepGrows(w, now, root, tx);
      GrowthSettles(w.docket, WorkStep(w, now, root, tx).state.docket);
    }
  }

  /** Every transaction keeps the docket sound and leaves what is final alone. */
  lemma ApplySettles(c: Core, env: Env, tx: Tx)
    requires DocketOk(c.work.docket)
    ensures DocketOk(Apply(c, env, tx).state.work.docket)
    ensures FinalStays(c.work.docket, Apply(c, env, tx).state.work.docket)
  {
    hide DocketOk, FinalStays, LedgerStep, WorkStep;
    if IsLedgerTx(tx) || tx.AnchorBatch? {
      StaysAsIs(c.work.docket);
    } else {
      WorkSettles(c.work, env.now, StateRoot(c), tx);
    }
  }

  lemma StaysAsIs(d: Docket)
    ensures FinalStays(d, d)
  {
  }

  lemma StaysOn(d: Docket, d1: Docket, d2: Docket)
    requires FinalStays(d, d1) && FinalStays(d1, d2)
    ensures FinalStays(d, d2)
  {
    forall x | IsFinalized(d.finality, x)
      ensures SameChallenges(d.challenges, d2.challenges, x)
    {
      var k :| k in d.finality && d.finality[k].receipt == x;
      assert k in d1.finality && d1.finality[k].receipt == x;
      assert IsFinalized(d1.finality, x);
      assert SameChallenges(d.challenges, d1.challenges, x) && SameChallenges(d1.challenges, d2.challenges, x);
    }
  }

  // ----- runs -----

  /**
   * Finality over any run: work is finalized at most once, finalized work keeps an accepting report,
   * no open challenge and its recorded challenge count, and none of this ever changes again.
   */
  lemma {:induction false} FinalityIsStable(c: Core, events: seq<Event>)
    requires DocketOk(c.work.docket)
    ensures DocketOk(Run(c, events).work.docket)
    ensures FinalStays(c.work.docket, Run(c, events).work.docket)
    decreases |events|
  {
    hide DocketOk, FinalStays, Apply;
    if events == [] {
      StaysAsIs(c.work.docket);
    } else {
      var c1 := Apply(c, events[0].env, events[0].tx).state;
      ApplySettles(c, events[0].env, events[0].tx);
      FinalityIsStable(c1, events[1..]);
      StaysOn(c.work.docket, c1.work.docket, Run(c, events).work.docket);
    }
  }

  /** The same from genesis, for every state of a run and every later one. */
  lemma FinalityFromGenesis(before: seq<Event>, after: seq<Event>)
    ensures var d := Run(EmptyCore(), before).work.docket;
            var d' := Run(EmptyCore(), before + after).work.docket;
            DocketOk(d) && DocketOk(d') && FinalStays(d, d')
  {
    hide FinalStays, Run, Settled;
    FinalityIsStable(EmptyCore(), before);
    RunAppend(EmptyCore(), before, after);
    FinalityIsStable(Run(EmptyCore(), before), after);
  }
}
