/** Memory cells and rootfields count and remember exactly the updates they took. */
module WorkCounts {
  import opened Prelude
  import opened Ids
  import opened Records
  import opened State
  import opened WorkLifecycle
  import opened Machine

  // ----- memory cells -----

  function UpdatesOf(cells: map<Id, MemoryCell>, cell: Id): nat {
    if cell in cells then cells[cell].updates else 0
  }

  /** The root a cell holds, if any. */
  function RootIn(cells: map<Id, MemoryCell>, cell: Id): Option<string> {
    if cell in cells then Some(cells[cell].current) else None
  }

  predicate Updates(tx: Tx, outcome: Outcome, cell: Id) {
    tx.UpdateMemory? && tx.cell == cell && outcome.Applied?
  }

  lemma MemoryStepCell(w: Work, now: nat, tx: Tx, cell: Id)
    requires tx.UpdateMemory?
    ensures var s := MemoryStep(w, now, tx);
            var (m, n) := (w.library.memory, s.state.library.memory);
            && (Updates(tx, s.outcome, cell) ==>
                && cell in n && n[cell].updates == UpdatesOf(m, cell) + 1
                && n[cell].current == tx.root && n[cell].parent == RootIn(m, cell)
                && n[cell].receipt == tx.receipt && n[cell].agent == tx.agent && n[cell].rootfield == tx.rootfield
                && tx.agent in s.state.registry.agents && s.state.registry.agents[tx.agent].memoryRoot == Some(tx.root))
            && (!Updates(tx, s.outcome, cell) ==> (cell in n <==> cell in m) && (cell in m ==> n[cell] == m[cell]))
  {
    hide AcceptanceCheck, RootfieldCheck;
  }

  lemma OnlyMemoryTouchesCells(w: Work, now: nat, root: Digest, tx: Tx)
    requires IsWorkTx(tx) && !tx.UpdateMemory?
    ensures WorkStep(w, now, root, tx).state.library.memory == w.library.memory
  {
    hide RegistryStep, DocketStep, ImportStep, RootfieldCheck;
  }

  /**
   * An applied update adds one to the cell's count, sets its root and remembers the root it replaced;
   * nothing else changes the cell.
   */
  lemma ApplyCell(c: Core, env: Env, tx: Tx, cell: Id)
    ensures var s := Apply(c, env, tx);
            var (m, n) := (c.work.library.memory, s.state.work.library.memory);
            && (Updates(tx, s.outcome, cell) ==>
                && cell in n && n[cell].updates == UpdatesOf(m, cell) + 1
                && n[cell].current == tx.root && n[cell].parent == RootIn(m, cell))
            && (!Updates(tx, s.outcome, cell) ==> (cell in n <==> cell in m) && (cell in m ==> n[cell] == m[cell]))
  {
    hide LedgerStep, WorkStep, MemoryStep, AnchorStep;
    if IsLedgerTx(tx) || tx.AnchorBatch? {
      WorkUntouched(c, env, tx);
    } else if tx.UpdateMemory? {
      MemoryStepCell(c.work, env.now, tx, cell);
      MemoryPart(c, env, tx);
    } else {
      OnlyMemoryTouchesCells(c.work, env.now, StateRoot(c), tx);
    }
  }

  lemma WorkUntouched(c: Core, env: Env, tx: Tx)
    requires IsLedgerTx(tx) || tx.AnchorBatch?
    ensures Apply(c, env, tx).state.work == c.work
  {
    hide LedgerStep, WorkStep;
  }

  lemma MemoryPart(c: Core, env: Env, tx: Tx)
    requires tx.UpdateMemory?
    ensures var s := MemoryStep(c.work, env.now, tx);
            Apply(c, env, tx).state.work == s.state && Apply(c, env, tx).outcome == s.outcome
  {
    hide LedgerStep, MemoryStep;
  }

  /** How often a run updates a cell. */
  ghost function CellUpdates(c: Core, events: seq<Event>, cell: Id): nat
    decreases |events|
  {
    if events == [] then 0
    else
      var s := Apply(c, events[0].env, events[0].tx);
      (if Updates(events[0].tx, s.outcome, cell) then 1 else 0) + CellUpdates(s.state, events[1..], cell)
  }

  /** Over any run a cell's count grows by exactly the updates the run applied to it. */
  lemma {:induction false} CellCountsUpdates(c: Core, events: seq<Event>, cell: Id)
    ensures UpdatesOf(Run(c, events).work.library.memory, cell) ==
            UpdatesOf(c.work.library.memory, cell) + CellUpdates(c, events, cell)
    decreases |events|
  {
    hide Apply;
    if events != [] {
      ApplyCell(c, events[0].env, events[0].tx, cell);
      CellCountsUpdates(Apply(c, events[0].env, events[0].tx).state, events[1..], cell);
    }
  }

  // ----- rootfields -----

  /** The pulse of registration, one pulse per root, and a latest root exactly when there is one. */
  ghost predicate RootsCounted(rootfields: map<Id, Rootfield>) {
    forall id :: id in rootfields ==>
      && rootfields[id].pulses == rootfields[id].roots + 1
      && (rootfields[id].latest.Some? <==> rootfields[id].roots > 0)
  }

  predicate Commits(tx: Tx, outcome: Outcome, id: Id) {
    tx.CommitRoot? && tx.rootfield == id && outcome.Applied?
  }

  function RootsOf(rootfields: map<Id, Rootfield>, id: Id): nat {
    if id in rootfields then rootfields[id].roots else 0
  }

  lemma RegistryStepRoots(r: Registry, tx: Tx, id: Id)
    requires IsRegistryTx(tx) && RootsCounted(r.rootfields)
    ensures var s := RegistryStep(r, tx);
            && RootsCounted(s.state.rootfields)
            && RootsOf(s.state.rootfields, id) == RootsOf(r.rootfields, id) + (if Commits(tx, s.outcome, id) then 1 else 0)
            && (Commits(tx, s.outcome, id) ==> id in s.state.rootfields && s.state.rootfields[id].latest == Some(tx.root))
            && (!Commits(tx, s.outcome, id) && id in r.rootfields ==>
                id in s.state.rootfields && s.state.rootfields[id] == r.rootfields[id])
  {
  }

  lemma OnlyRegistryTouchesRoots(w: Work, now: nat, root: Digest, tx: Tx)
    requires IsWorkTx(tx) && !IsRegistryTx(tx)
    ensures WorkStep(w, now, root, tx).state.registry.rootfields == w.registry.rootfields
  {
    hide DocketStep, ImportStep, RootfieldCheck, AcceptanceCheck;
  }

  lemma RegistryPart(c: Core, env: Env, tx: Tx)
    requires IsRegistryTx(tx)
    ensures var s := RegistryStep(c.work.registry, tx);
            Apply(c, env, tx).state.work.registry == s.state && Apply(c, env, tx).outcome == s.outcome
  {
    hide LedgerStep, RegistryStep;
  }

  lemma ApplyRoots(c: Core, env: Env, tx: Tx, id: Id)
    requires RootsCounted(c.work.registry.rootfields)
    ensures var s := Apply(c, env, tx);
            var (m, n) := (c.work.registry.rootfields, s.state.work.registry.rootfields);
            && RootsCounted(n) && RootsOf(n, id) == RootsOf(m, id) + (if Commits(tx, s.outcome, id) then 1 else 0)
            && (Commits(tx, s.outcome, id) ==> id in n && n[id].latest == Some(tx.root))
            && (!Commits(tx, s.outcome, id) && id in m ==> id in n && n[id] == m[id])
  {
    hide LedgerStep, WorkStep, RegistryStep, AnchorStep, RootsCounted, RootsOf;
    if IsLedgerTx(tx) || tx.AnchorBatch? {
      WorkUntouched(c, env, tx);
    } else if IsRegistryTx(tx) {
      RegistryStepRoots(c.work.registry, tx, id);
      RegistryPart(c, env, tx);
    } else {
      OnlyRegistryTouchesRoots(c.work, env.now, StateRoot(c), tx);
    }
  }

  /** How often a run commits a root to a rootfield. */
  ghost function RootCommits(c: Core, events: seq<Event>, id: Id): nat
    decreases |events|
  {
    if events == [] then 0
    else
      var s := Apply(c, events[0].env, events[0].tx);
      (if Commits(events[0].tx, s.outcome, id) then 1 else 0) + RootCommits(s.state, events[1..], id)
  }

  /** Over any run a rootfield's count grows by exactly the roots committed, with one pulse more than roots. */
  lemma {:induction false} RootfieldCountsRoots(c: Core, events: seq<Event>, id: Id)
    requires RootsCounted(c.work.registry.rootfields)
    ensures RootsCounted(Run(c, events).work.registry.rootfields)
    ensures RootsOf(Run(c, events).work.registry.rootfields, id) ==
            RootsOf(c.work.registry.rootfields, id) + RootCommits(c, events, id)
    decreases |events|
  {
    hide Apply, RootsCounted, RootsOf;
    if events != [] {
      ApplyRoots(c, events[0].env, events[0].tx, id);
      RootfieldCountsRoots(Apply(c, events[0].env, events[0].tx).state, events[1..], id);
    }
  }
}
