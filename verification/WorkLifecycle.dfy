/** Registration, work receipts, verifier reports, challenges and finality. */
module WorkLifecycle {
  import opened Prelude
  import opened Text
  import opened Ids
  import opened Records
  import opened State

  function FlowPulseTopic(): string {
    "0x5d07190b9ae441b4" + "d7b16259a48424ac" + "d451492b12f5f99a" + "29f5bfd992c13e43"
  }

  predicate IsFlowPulseTopic(signature: string) {
    Lower(signature) == FlowPulseTopic()
  }

  predicate IsAccepted(status: string) {
    Lower(status) in {"accepted", "verified"}
  }

  predicate IsFailed(status: string) {
    Lower(status) in {"failed", "invalid", "rejected", "unsupported", "reorged"}
  }

  predicate IsFinalityStatus(status: string) {
    Lower(status) in {"finalized", "local-finalized"}
  }

  predicate HasFailedReport(reports: map<Id, VerifierReport>, receipt: Id) {
    exists k :: k in reports && reports[k].receipt == receipt && IsFailed(reports[k].status)
  }

  predicate HasAcceptedReport(reports: map<Id, VerifierReport>, receipt: Id) {
    exists k :: k in reports && reports[k].receipt == receipt && IsAccepted(reports[k].status)
  }

  predicate IsFinalized(finality: map<Id, FinalityReceipt>, receipt: Id) {
    exists k :: k in finality && finality[k].receipt == receipt
  }

  predicate HasOpenChallenge(challenges: map<Id, Challenge>, receipt: Id) {
    exists k :: k in challenges && challenges[k].receipt == receipt && challenges[k].status.Open?
  }

  /** The challenges ever opened against a receipt. */
  function ChallengesOn(challenges: map<Id, Challenge>, receipt: Id): set<Id> {
    set k | k in challenges && challenges[k].receipt == receipt
  }

  function RootfieldCheck(r: Registry, rootfield: Id): Outcome {
    if rootfield !in r.rootfields then Rejected(RootfieldMissing(rootfield))
    else if !r.rootfields[rootfield].active then Rejected(RootfieldInactive(rootfield))
    else Applied
  }

  /** `ensure_receipt_status_accepted`: a failing report wins over an accepting one. */
  function AcceptanceCheck(reports: map<Id, VerifierReport>, receipt: Id): Outcome {
    if HasFailedReport(reports, receipt) then Rejected(WorkReceiptFailed(receipt))
    else if HasAcceptedReport(reports, receipt) then Applied
    else Rejected(WorkReceiptNotAccepted(receipt))
  }

  // ----- registry -----

  function RegistryStep(r: Registry, tx: Tx): Step<Registry>
    requires tx.RegisterRootfield? || tx.RegisterAgent? || tx.RegisterPassport? || tx.RegisterModule? || tx.CommitRoot?
  {
    match tx
    case RegisterRootfield(id, body) =>
      if id in r.rootfields then Refuse(r, RootfieldAlreadyExists(id))
      else Done(r.(rootfields := r.rootfields[id := Rootfield(body, None, 1, 0, true)]))
    case RegisterAgent(id, passportOf, body) =>
      if id in r.agents then Refuse(r, AgentAlreadyExists(id))
      else if passportOf.Some? && passportOf.value !in r.passports then Refuse(r, PassportMissing(passportOf.value))
      else Done(r.(agents := r.agents[id := Agent(body, passportOf, None, true)]))
    case RegisterPassport(id, body) =>
      if id in r.passports then Refuse(r, PassportAlreadyExists(id))
      else Done(r.(passports := r.passports[id := body]))
    case RegisterModule(id, body) =>
      if id in r.modules then Refuse(r, ModuleAlreadyExists(id))
      else Done(r.(modules := r.modules[id := VerifierModule(body, true)]))
    case CommitRoot(id, root) =>
      if RootfieldCheck(r, id).Rejected? then Refuse(r, RootfieldCheck(r, id).error)
      else
        var f := r.rootfields[id];
        Done(r.(rootfields := r.rootfields[id :=
          f.(latest := Some(root), pulses := f.pulses + 1, roots := f.roots + 1)]))
  }

  // ----- artifacts and memory -----

  function ArtifactStep(w: Work, now: nat, tx: Tx): Step<Work>
    requires tx.SubmitArtifact? || tx.MarkAvailability?
  {
    var check := RootfieldCheck(w.registry, tx.rootfield);
    var b := w.library;
    if check.Rejected? then Refuse(w, check.error)
    else
      match tx
      case SubmitArtifact(id, rootfield, commitment, body) =>
        if id in b.artifacts then Refuse(w, ArtifactAlreadyExists(id))
        else Done(w.(library := b.(artifacts := b.artifacts[id := Artifact(rootfield, commitment, body)])))
      case MarkAvailability(id, artifact, rootfield, body) =>
        if id in b.availability then Refuse(w, AvailabilityAlreadyExists(id))
        else if artifact !in b.artifacts then Refuse(w, ArtifactMissing(artifact))
        else if b.artifacts[artifact].rootfield != rootfield then Refuse(w, ArtifactRootfieldMismatch(artifact))
        else
          Done(w.(library := b.(availability := b.availability[id :=
            AvailabilityProof(artifact, rootfield, b.artifacts[artifact].commitment, body, now)])))
  }

  /** A memory cell remembers the root it replaces; only its own agent and rootfield may update it. */
  function MemoryStep(w: Work, now: nat, tx: Tx): Step<Work>
    requires tx.UpdateMemory?
  {
    var check := RootfieldCheck(w.registry, tx.rootfield);
    var cells := w.library.memory;
    if check.Rejected? then Refuse(w, check.error)
    else if tx.agent !in w.registry.agents then Refuse(w, AgentMissing(tx.agent))
    else if !w.registry.agents[tx.agent].active then Refuse(w, AgentInactive(tx.agent))
    else if tx.receipt !in w.docket.receipts then Refuse(w, WorkReceiptMissing(tx.receipt))
    else if w.docket.receipts[tx.receipt].rootfield != tx.rootfield then
      Refuse(w, WorkReceiptRootfieldMismatch(tx.receipt))
    else if AcceptanceCheck(w.docket.reports, tx.receipt).Rejected? then
      Refuse(w, AcceptanceCheck(w.docket.reports, tx.receipt).error)
    else if tx.cell in cells && (cells[tx.cell].agent != tx.agent || cells[tx.cell].rootfield != tx.rootfield) then
      Refuse(w, MemoryOwnershipMismatch(tx.cell))
    else
      var parent := if tx.cell in cells then Some(cells[tx.cell].current) else None;
      var updates := if tx.cell in cells then cells[tx.cell].updates + 1 else 1;
      var agent := w.registry.agents[tx.agent].(memoryRoot := Some(tx.root));
      Done(w.(
           library := w.library.(memory := cells[tx.cell :=
             MemoryCell(tx.agent, tx.rootfield, tx.root, parent, tx.receipt, tx.body, updates, now)]),
           registry := w.registry.(agents := w.registry.agents[tx.agent := agent])))
  }

  // ----- work receipts and reports -----

  function SubmitWorkStep(w: Work, tx: Tx): Step<Work>
    requires tx.SubmitWork?
  {
    var check := RootfieldCheck(w.registry, tx.rootfield);
    var known := w.library.artifacts;
    if check.Rejected? then Refuse(w, check.error)
    else if !exists k :: k in known && known[k].rootfield == tx.rootfield && known[k].commitment == tx.commitment then
      Refuse(w, CommitmentMissing(tx.commitment))
    else if tx.receipt in w.docket.receipts then Refuse(w, WorkReceiptAlreadyExists(tx.receipt))
    else
      Done(w.(docket := w.docket.(receipts := w.docket.receipts[tx.receipt :=
        WorkReceipt(tx.rootfield, tx.commitment, tx.body)])))
  }

  function ReportStep(w: Work, tx: Tx): Step<Work>
    requires tx.SubmitReport?
  {
    var check := RootfieldCheck(w.registry, tx.rootfield);
    if check.Rejected? then Refuse(w, check.error)
    else if tx.verifier !in w.registry.modules then Refuse(w, ModuleMissing(tx.verifier))
    else if !w.registry.modules[tx.verifier].active then Refuse(w, ModuleInactive(tx.verifier))
    else if tx.receipt !in w.docket.receipts then Refuse(w, WorkReceiptMissing(tx.receipt))
    else if w.docket.receipts[tx.receipt].rootfield != tx.rootfield then
      Refuse(w, WorkReceiptRootfieldMismatch(tx.receipt))
    else if tx.report in w.docket.reports then Refuse(w, ReportAlreadyExists(tx.report))
    else
      Done(w.(docket := w.docket.(reports := w.docket.reports[tx.report :=
        VerifierReport(tx.rootfield, tx.receipt, tx.verifier, tx.status, tx.body)])))
  }

  // ----- challenges and finality -----

  function OpenStep(d: Docket, now: nat, tx: Tx): Step<Docket>
    requires tx.OpenChallenge?
  {
    if tx.challenge in d.challenges then Refuse(d, ChallengeAlreadyExists(tx.challenge))
    else if tx.receipt !in d.receipts then Refuse(d, WorkReceiptMissing(tx.receipt))
    else if IsFinalized(d.finality, tx.receipt) then Refuse(d, WorkReceiptAlreadyFinalized(tx.receipt))
    else Done(d.(challenges := d.challenges[tx.challenge := Challenge(tx.receipt, tx.body, Open, now)]))
  }

  function ResolveStep(d: Docket, now: nat, tx: Tx): Step<Docket>
    requires tx.ResolveChallenge?
  {
    if tx.challenge !in d.challenges then Refuse(d, ChallengeMissing(tx.challenge))
    else if !d.challenges[tx.challenge].status.Open? then Refuse(d, ChallengeAlreadyResolved(tx.challenge))
    else
      Done(d.(challenges := d.challenges[tx.challenge :=
        d.challenges[tx.challenge].(status := Resolved(tx.resolution, now))]))
  }

  /** `root` is the state root at the moment of finalization. */
  function FinalizeStep(d: Docket, now: nat, root: Digest, tx: Tx): Step<Docket>
    requires tx.FinalizeWork?
  {
    if !IsFinalityStatus(tx.status) then Refuse(d, InvalidFinalityStatus(tx.status))
    else if tx.finality in d.finality then Refuse(d, FinalityAlreadyExists(tx.finality))
    else if tx.receipt !in d.receipts then Refuse(d, WorkReceiptMissing(tx.receipt))
    else if AcceptanceCheck(d.reports, tx.receipt).Rejected? then Refuse(d, AcceptanceCheck(d.reports, tx.receipt).error)
    else if HasOpenChallenge(d.challenges, tx.receipt) then Refuse(d, ChallengeUnresolved(tx.receipt))
    else if IsFinalized(d.finality, tx.receipt) then Refuse(d, WorkReceiptAlreadyFinalized(tx.receipt))
    else
      Done(d.(finality := d.finality[tx.finality :=
        FinalityReceipt(tx.receipt, d.receipts[tx.receipt].rootfield, tx.finalizer, tx.status,
                        |ChallengesOn(d.challenges, tx.receipt)|, now, root)]))
  }

  // ----- imports -----

  function ImportStep(m: Imports, tx: Tx): Step<Imports>
    requires tx.ImportObservation? || tx.ImportReport?
  {
    match tx
    case ImportObservation(id, signature, body) =>
      if !IsFlowPulseTopic(signature) then Refuse(m, InvalidEventSignature(signature))
      else if id in m.observations then Refuse(m, ObservationAlreadyExists(id))
      else Done(m.(observations := m.observations[id := Observation(signature, body)]))
    case ImportReport(id, body) =>
      if id in m.reports then Refuse(m, ImportedReportAlreadyExists(id))
      else Done(m.(reports := m.reports[id := body]))
  }

  // ----- dispatch -----

  predicate IsRegistryTx(tx: Tx) {
    tx.RegisterRootfield? || tx.RegisterAgent? || tx.RegisterPassport? || tx.RegisterModule? || tx.CommitRoot?
  }

  predicate IsDocketTx(tx: Tx) {
    tx.OpenChallenge? || tx.ResolveChallenge? || tx.FinalizeWork?
  }

  predicate IsWorkTx(tx: Tx) {
    IsRegistryTx(tx) || IsDocketTx(tx) || tx.SubmitArtifact? || tx.MarkAvailability? || tx.UpdateMemory? ||
    tx.SubmitWork? || tx.SubmitReport? || tx.ImportObservation? || tx.ImportReport?
  }

  function DocketStep(d: Docket, now: nat, root: Digest, tx: Tx): Step<Docket>
    requires IsDocketTx(tx)
  {
    if tx.OpenChallenge? then OpenStep(d, now, tx)
    else if tx.ResolveChallenge? then ResolveStep(d, now, tx)
    else FinalizeStep(d, now, root, tx)
  }

  function WorkStep(w: Work, now: nat, root: Digest, tx: Tx): Step<Work>
    requires IsWorkTx(tx)
  {
    if IsRegistryTx(tx) then
      var s := RegistryStep(w.registry, tx);
      Step(w.(registry := s.state), s.outcome)
    else if IsDocketTx(tx) then
      var s := DocketStep(w.docket, now, root, tx);
      Step(w.(docket := s.state), s.outcome)
    else if tx.ImportObservation? || tx.ImportReport? then
      var s := ImportStep(w.imports, tx);
      Step(w.(imports := s.state), s.outcome)
    else if tx.UpdateMemory? then MemoryStep(w, now, tx)
    else if tx.SubmitWork? then SubmitWorkStep(w, tx)
    else if tx.SubmitReport? then ReportStep(w, tx)
    else ArtifactStep(w, now, tx)
  }
}
