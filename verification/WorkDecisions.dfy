/** When work transactions apply, where finality comes from, and how an open challenge holds it back. */
module WorkDecisions {
  import opened Text
  import opened Ids
  import opened Records
  import opened State
  import opened WorkLifecycle
  import opened Machine
  import opened Finality

  // ----- statuses and reports -----

  /** A report on the receipt accepts it. */
  predicate AcceptedBy(reports: map<Id, VerifierReport>, receipt: Id) {
    exists k :: k in reports && reports[k].receipt == receipt &&
      (SameLetters(reports[k].status, "accepted") || SameLetters(reports[k].status, "verified"))
  }

  /** A status that fails a work receipt. */
  predicate Fails(status: string) {
    || SameLetters(status, "failed") || SameLetters(status, "invalid") || SameLetters(status, "rejected")
    || SameLetters(status, "unsupported") || SameLetters(status, "reorged")
  }

  /** A report on the receipt fails it. */
  predicate FailedBy(reports: map<Id, VerifierReport>, receipt: Id) {
    exists k :: k in reports && reports[k].receipt == receipt && Fails(reports[k].status)
  }

  lemma AcceptedMeans(status: string)
    ensures IsAccepted(status) <==> SameLetters(status, "accepted") || SameLetters(status, "verified")
  {
    hide SameLetters;
    LowerMeansSameLetters(status, "accepted");
    LowerMeansSameLetters(status, "verified");
    assert Lower("accepted") == "accepted" && Lower("verified") == "verified";
  }

  lemma FailedMeans(status: string)
    ensures IsFailed(status) <==> Fails(status)
  {
    hide SameLetters;
    LowerMeansSameLetters(status, "failed");
    LowerMeansSameLetters(status, "invalid");
    LowerMeansSameLetters(status, "rejected");
    LowerMeansSameLetters(status, "unsupported");
    LowerMeansSameLetters(status, "reorged");
    assert Lower("failed") == "failed" && Lower("invalid") == "invalid" && Lower("rejected") == "rejected";
    assert Lower("unsupported") == "unsupported" && Lower("reorged") == "reorged";
  }

  lemma FinalityStatusMeans(status: string)
    ensures IsFinalityStatus(status) <==> SameLetters(status, "finalized") || SameLetters(status, "local-finalized")
  {
    hide SameLetters;
    LowerMeansSameLetters(status, "finalized");
    LowerMeansSameLetters(status, "local-finalized");
    assert Lower("finalized") == "finalized" && Lower("local-finalized") == "local-finalized";
  }

  lemma ReportsMean(reports: map<Id, VerifierReport>, receipt: Id)
    ensures HasAcceptedReport(reports, receipt) <==> AcceptedBy(reports, receipt)
    ensures HasFailedReport(reports, receipt) <==> FailedBy(reports, receipt)
  {
    hide IsAccepted, IsFailed, Fails, SameLetters;
    forall k | k in reports
      ensures IsAccepted(reports[k].status) <==>
              SameLetters(reports[k].status, "accepted") || SameLetters(reports[k].status, "verified")
      ensures IsFailed(reports[k].status) <==> Fails(reports[k].status)
    {
      AcceptedMeans(reports[k].status);
      FailedMeans(reports[k].status);
    }
  }

  /** One failing report vetoes any number of accepting ones, and without an accepting one nothing passes. */
  lemma AcceptanceMeans(reports: map<Id, VerifierReport>, receipt: Id)
    ensures AcceptanceCheck(reports, receipt) ==
            if FailedBy(reports, receipt) then Rejected(WorkReceiptFailed(receipt))
            else if AcceptedBy(reports, receipt) then Applied else Rejected(WorkReceiptNotAccepted(receipt))
  {
    hide HasAcceptedReport, HasFailedReport, AcceptedBy, FailedBy;
    ReportsMean(reports, receipt);
  }

  // ----- registration, artifacts, work and reports -----

  predicate Active(r: Registry, rootfield: Id) {
    rootfield in r.rootfields && r.rootfields[rootfield].active
  }

  /** Each kind of record registers once; an agent's passport must be known, a committed root's rootfield active. */
  lemma RegisterAppliesIff(r: Registry, tx: Tx)
    requires IsRegistryTx(tx)
    ensures RegistryStep(r, tx).outcome.Applied? <==>
            match tx
            case RegisterRootfield(id, _) => id !in r.rootfields
            case RegisterAgent(id, passport, _) => id !in r.agents && (passport.Some? ==> passport.value in r.passports)
            case RegisterPassport(id, _) => id !in r.passports
            case RegisterModule(id, _) => id !in r.modules
            case CommitRoot(id, _) => Active(r, id)
  {
  }

  lemma ArtifactAppliesIff(w: Work, now: nat, tx: Tx)
    requires tx.SubmitArtifact? || tx.MarkAvailability?
    ensures ArtifactStep(w, now, tx).outcome.Applied? <==>
            && Active(w.registry, tx.rootfield)
            && (tx.SubmitArtifact? ==> tx.artifact !in w.library.artifacts)
            && (tx.MarkAvailability? ==>
                && tx.proof !in w.library.availability && tx.artifact in w.library.artifacts
                && w.library.artifacts[tx.artifact].rootfield == tx.rootfield)
    ensures var s := ArtifactStep(w, now, tx);
            s.outcome.Applied? ==>
              && (tx.SubmitArtifact? ==>
                  s.state.library.artifacts ==
                  w.library.artifacts[tx.artifact := Artifact(tx.rootfield, tx.commitment, tx.body)])
              && (tx.MarkAvailability? ==>
                  && tx.proof in s.state.library.availability
                  && var a := s.state.library.availability[tx.proof];
                     && a.artifact == tx.artifact && a.rootfield == tx.rootfield && a.body == tx.body && a.at == now
                     && a.commitment == w.library.artifacts[tx.artifact].commitment)
  {
  }

  lemma SubmitWorkAppliesIff(w: Work, tx: Tx)
    requires tx.SubmitWork?
    ensures SubmitWorkStep(w, tx).outcome.Applied? <==>
            && Active(w.registry, tx.rootfield) && tx.receipt !in w.docket.receipts
            && exists k :: k in w.library.artifacts && w.library.artifacts[k].rootfield == tx.rootfield &&
                 w.library.artifacts[k].commitment == tx.commitment
    ensures SubmitWorkStep(w, tx).outcome.Applied? ==>
              SubmitWorkStep(w, tx).state.docket.receipts ==
              w.docket.receipts[tx.receipt := WorkReceipt(tx.rootfield, tx.commitment, tx.body)]
  {
  }

  lemma ReportAppliesIff(w: Work, tx: Tx)
    requires tx.SubmitReport?
    ensures ReportStep(w, tx).outcome.Applied? <==>
            && Active(w.registry, tx.rootfield) && tx.verifier in w.registry.modules && w.registry.modules[tx.verifier].active
            && tx.receipt in w.docket.receipts && w.docket.receipts[tx.receipt].rootfield == tx.rootfield
            && tx.report !in w.docket.reports
    ensures ReportStep(w, tx).outcome.Applied? ==>
              ReportStep(w, tx).state.docket.reports ==
              w.docket.reports[tx.report := VerifierReport(tx.rootfield, tx.receipt, tx.verifier, tx.status, tx.body)]
  {
  }

  /**
   * A memory cell is updated exactly by an active agent in an active rootfield, from work of that
   * rootfield that is accepted and not failed, and only by its own agent and rootfield once it exists.
   */
  lemma MemoryAppliesIff(w: Work, now: nat, tx: Tx)
    requires tx.UpdateMemory?
    ensures MemoryStep(w, now, tx).outcome.Applied? <==>
            && Active(w.registry, tx.rootfield) && tx.agent in w.registry.agents && w.registry.agents[tx.agent].active
            && tx.receipt in w.docket.receipts && w.docket.receipts[tx.receipt].rootfield == tx.rootfield
            && AcceptedBy(w.docket.reports, tx.receipt) && !FailedBy(w.docket.reports, tx.receipt)
            && (tx.cell in w.library.memory ==>
                w.library.memory[tx.cell].agent == tx.agent && w.library.memory[tx.cell].rootfield == tx.rootfield)
  {
    hide AcceptanceCheck, AcceptedBy, FailedBy;
    AcceptanceMeans(w.docket.reports, tx.receipt);
  }

  // ----- challenges and finality -----

  lemma OpenAppliesIff(d: Docket, now: nat, tx: Tx)
    requires tx.OpenChallenge?
    ensures var s := OpenStep(d, now, tx);
            && (s.outcome.Applied? <==>
                && tx.challenge !in d.challenges && tx.receipt in d.receipts
                && !exists k :: k in d.finality && d.finality[k].receipt == tx.receipt)
            && (s.outcome.Applied? ==> HeldBy(s.state.challenges, tx.challenge, tx.receipt))
  {
  }

  lemma ResolveAppliesIff(d: Docket, now: nat, tx: Tx)
    requires tx.ResolveChallenge?
    ensures var s := ResolveStep(d, now, tx);
            && (s.outcome.Applied? <==> tx.challenge in d.challenges && d.challenges[tx.challenge].status.Open?)
            && (s.outcome.Applied? ==>
                && tx.challenge in s.state.challenges && !s.state.challenges[tx.challenge].status.Open?
                && s.state.challenges[tx.challenge].receipt == d.challenges[tx.challenge].receipt)
  {
  }

  /** Work is finalized exactly when it is accepted, not failed, unchallenged and not yet final. */
  lemma FinalizeAppliesIff(d: Docket, now: nat, root: Digest, tx: Tx)
    requires tx.FinalizeWork?
    ensures FinalizeStep(d, now, root, tx).outcome.Applied? <==>
            && (SameLetters(tx.status, "finalized") || SameLetters(tx.status, "local-finalized"))
            && tx.finality !in d.finality && tx.receipt in d.receipts
            && AcceptedBy(d.reports, tx.receipt) && !FailedBy(d.reports, tx.receipt)
            && (forall k :: k in d.challenges && d.challenges[k].receipt == tx.receipt ==> !d.challenges[k].status.Open?)
            && (forall k :: k in d.finality ==> d.finality[k].receipt != tx.receipt)
  {
    hide AcceptanceCheck, AcceptedBy, FailedBy, IsFinalityStatus, SameLetters, ChallengesOn;
    AcceptanceMeans(d.reports, tx.receipt);
    FinalityStatusMeans(tx.status);
  }

  // ----- where finality comes from -----

  /** The event finalized the work under this id, in a state where it was accepted, not failed and unchallenged. */
  ghost predicate Finalizes(c: Core, e: Event, id: Id, f: FinalityReceipt) {
    var d := c.work.docket;
    && e.tx.FinalizeWork? && e.tx.finality == id && Apply(c, e.env, e.tx).outcome.Applied?
    && id !in d.finality && f.receipt in d.receipts
    && AcceptedBy(d.reports, f.receipt) && !FailedBy(d.reports, f.receipt)
    && (forall k :: k in d.challenges && d.challenges[k].receipt == f.receipt ==> !d.challenges[k].status.Open?)
    && f == FinalityReceipt(e.tx.receipt, d.receipts[f.receipt].rootfield, e.tx.finalizer, e.tx.status,
                            |ChallengesOn(d.challenges, f.receipt)|, e.env.now, StateRoot(c))
  }

  lemma OnlyFinalizeAdds(w: Work, now: nat, root: Digest, tx: Tx, id: Id)
    requires IsWorkTx(tx) && id !in w.docket.finality && id in WorkStep(w, now, root, tx).state.docket.finality
    ensures tx.FinalizeWork? && tx.finality == id && FinalizeStep(w.docket, now, root, tx).outcome.Applied?
    ensures tx.receipt in w.docket.receipts
    ensures WorkStep(w, now, root, tx).state.docket.finality[id] ==
            FinalityReceipt(tx.receipt, w.docket.receipts[tx.receipt].rootfield, tx.finalizer, tx.status,
                            |ChallengesOn(w.docket.challenges, tx.receipt)|, now, root)
  {
    hide AcceptanceCheck, IsFinalityStatus, HasOpenChallenge, IsFinalized, ChallengesOn, RegistryStep, ImportStep,
         RootfieldCheck;
  }

  lemma StepFinalizes(c: Core, e: Event, id: Id)
    requires id !in c.work.docket.finality && id in Apply(c, e.env, e.tx).state.work.docket.finality
    ensures Finalizes(c, e, id, Apply(c, e.env, e.tx).state.work.docket.finality[id])
  {
    hide LedgerStep, WorkStep, FinalizeStep, AcceptedBy, FailedBy, ChallengesOn, SameLetters;
    OnlyFinalizeAdds(c.work, e.env.now, StateRoot(c), e.tx, id);
    FinalizeAppliesIff(c.work.docket, e.env.now, StateRoot(c), e.tx);
    WorkOutcome(c, e);
  }

  lemma WorkOutcome(c: Core, e: Event)
    requires e.tx.FinalizeWork?
    ensures Apply(c, e.env, e.tx).outcome == FinalizeStep(c.work.docket, e.env.now, StateRoot(c), e.tx).outcome
  {
    hide LedgerStep, FinalizeStep;
  }

  lemma RunLast(c: Core, events: seq<Event>)
    requires events != []
    ensures var (most, e) := (events[..|events| - 1], events[|events| - 1]);
            Run(c, events) == Apply(Run(c, most), e.env, e.tx).state
  {
    hide Apply;
    var (most, e) := (events[..|events| - 1], events[|events| - 1]);
    assert events == most + [e];
    RunAppend(c, most, [e]);
  }

  /** Every finality receipt of a reachable state was added, as it stands, when its work had no failing report. */
  lemma {:induction false} FinalityHasCause(events: seq<Event>, id: Id) returns (i: nat)
    requires id in Run(EmptyCore(), events).work.docket.finality
    ensures i < |events|
    ensures Finalizes(Run(EmptyCore(), events[..i]), events[i], id, Run(EmptyCore(), events).work.docket.finality[id])
    decreases |events|
  {
    hide Run, Apply, Finalizes, Settled;
    NothingRun(EmptyCore());
    var (n, e) := (|events| - 1, events[|events| - 1]);
    var c := Run(EmptyCore(), events[..n]);
    RunLast(EmptyCore(), events);
    if id in c.work.docket.finality {
      i := FinalityHasCause(events[..n], id);
      FinalityIsStable(EmptyCore(), events[..n]);
      ApplySettles(c, e.env, e.tx);
      assert events[..n][..i] == events[..i];
    } else {
      i := n;
      StepFinalizes(c, e, id);
    }
  }

  lemma NothingRun(c: Core)
    ensures Run(c, []) == c
  {
  }

  // ----- an open challenge holds finality back -----

  /** The challenge is open against the receipt. */
  predicate HeldBy(challenges: map<Id, Challenge>, id: Id, receipt: Id) {
    id in challenges && challenges[id].receipt == receipt && challenges[id].status.Open?
  }

  lemma DocketHolds(d: Docket, now: nat, root: Digest, tx: Tx, id: Id, receipt: Id)
    requires IsDocketTx(tx) && HeldBy(d.challenges, id, receipt) && (tx.ResolveChallenge? ==> tx.challenge != id)
    ensures HeldBy(DocketStep(d, now, root, tx).state.challenges, id, receipt)
    ensures tx.FinalizeWork? && tx.receipt == receipt ==> DocketStep(d, now, root, tx).outcome.Rejected?
  {
    hide AcceptanceCheck, IsFinalityStatus, IsFinalized, ChallengesOn;
  }

  lemma DocketPart(w: Work, now: nat, root: Digest, tx: Tx)
    requires IsDocketTx(tx)
    ensures var s := DocketStep(w.docket, now, root, tx);
            WorkStep(w, now, root, tx).state.docket == s.state && WorkStep(w, now, root, tx).outcome == s.outcome
  {
    hide DocketStep;
  }

  lemma WorkHolds(w: Work, now: nat, root: Digest, tx: Tx, id: Id, receipt: Id)
    requires IsWorkTx(tx) && HeldBy(w.docket.challenges, id, receipt) && (tx.ResolveChallenge? ==> tx.challenge != id)
    ensures HeldBy(WorkStep(w, now, root, tx).state.docket.challenges, id, receipt)
    ensures tx.FinalizeWork? && tx.receipt == receipt ==> WorkStep(w, now, root, tx).outcome.Rejected?
  {
    hide WorkStep, OpenStep, ResolveStep, FinalizeStep;
    if IsDocketTx(tx) {
      DocketHolds(w.docket, now, root, tx, id, receipt);
      DocketPart(w, now, root, tx);
    } else {
      WorkStepGrows(w, now, root, tx);
    }
  }

  lemma StepHolds(c: Core, e: Event, id: Id, receipt: Id)
    requires HeldBy(c.work.docket.challenges, id, receipt) && (e.tx.ResolveChallenge? ==> e.tx.challenge != id)
    ensures HeldBy(Apply(c, e.env, e.tx).state.work.docket.challenges, id, receipt)
    ensures e.tx.FinalizeWork? && e.tx.receipt == receipt ==> Apply(c, e.env, e.tx).outcome.Rejected?
  {
    hide LedgerStep, WorkStep, HeldBy;
    if !IsLedgerTx(e.tx) && !e.tx.AnchorBatch? {
      WorkHolds(c.work, e.env.now, StateRoot(c), e.tx, id, receipt);
    }
  }

  /** Until it is resolved, an open challenge stays open over any run and every attempt to finalize its work is refused. */
  lemma {:induction false} OpenChallengeHolds(c: Core, events: seq<Event>, id: Id, receipt: Id)
    requires HeldBy(c.work.docket.challenges, id, receipt)
    requires forall i :: 0 <= i < |events| && events[i].tx.ResolveChallenge? ==> events[i].tx.challenge != id
    ensures HeldBy(Run(c, events).work.docket.challenges, id, receipt)
    ensures forall i :: 0 <= i < |events| && events[i].tx.FinalizeWork? && events[i].tx.receipt == receipt ==>
              Outcomes(c, events)[i].Rejected?
    decreases |events|
  {
    hide Apply, HeldBy;
    if events != [] {
      StepHolds(c, events[0], id, receipt);
      var c1 := Apply(c, events[0].env, events[0].tx).state;
      OpenChallengeHolds(c1, events[1..], id, receipt);
      forall i | 0 <= i < |events| && events[i].tx.FinalizeWork? && events[i].tx.receipt == receipt
        ensures Outcomes(c, events)[i].Rejected?
      {
        if i > 0 {
          assert events[1..][i - 1] == events[i];
          assert Outcomes(c, events)[i] == Outcomes(c1, events[1..])[i - 1];
        }
      }
    }
  }

  // ----- imports -----

  lemma ImportAppliesIff(m: Imports, tx: Tx)
    requires tx.ImportObservation? || tx.ImportReport?
    ensures ImportStep(m, tx).outcome.Applied? <==>
            match tx
            case ImportObservation(id, signature, _) =>
              id !in m.observations && SameLetters(signature, FlowPulseTopic())
            case ImportReport(id, _) => id !in m.reports
  {
    hide IsFlowPulseTopic, SameLetters, FlowPulseTopic;
    if tx.ImportObservation? {
      TopicMeans(tx.signature);
    }
  }

  lemma TopicMeans(signature: string)
    ensures IsFlowPulseTopic(signature) <==> SameLetters(signature, FlowPulseTopic())
  {
    hide SameLetters, FlowPulseTopic;
    LowerMeansSameLetters(signature, FlowPulseTopic());
    TopicIsLower();
  }

  lemma LowerConcat(s: string, t: string)
    ensures Lower(s + t) == Lower(s) + Lower(t)
  {
  }

  lemma TopicIsLower()
    ensures Lower(FlowPulseTopic()) == FlowPulseTopic()
  {
    hide Lower;
    var (a, b) := ("0x5d07190b9ae441b4", "d7b16259a48424ac");
    var (c, d) := ("d451492b12f5f99a", "29f5bfd992c13e43");
    assert Lower(a) == a && Lower(b) == b && Lower(c) == c && Lower(d) == d;
    LowerConcat(a, b);
    LowerConcat(a + b, c);
    LowerConcat(a + b + c, d);
  }
}
