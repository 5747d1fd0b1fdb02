/**
  The cutover sweep as a protocol: any number of replicas, each with its own image version, sweeping
  one database while rollout phases, operators and migrations change tables, while transactions
  abort, connections drop, and a deadline or a kill lands between any two steps.

  The database side of a run (its transaction) and the client side (its phase and progress flags)
  are separate, because a COMMIT can land after the client has gone.
 */
module SweepProtocol {
  import opened Wrappers
  import opened Order
  import opened RlsPosture

  type Id = nat

  /** Two facts the code relies on and cannot check. `rejectMeansRolledBack`: when `sql.begin`
      rejects, the transaction has been rolled back. `lockOutlivesTx`: the advisory lock, which rides another
      connection, is not lost before the run's transaction is resolved. */
  datatype Assumptions = Assumptions(rejectMeansRolledBack: bool, lockOutlivesTx: bool)

  /** The module-level progress flags. */
  datatype Progress = Progress(txStarted: bool, writesIssued: bool, committed: bool, verified: bool)

  const IDLE := Progress(false, false, false, false)

  datatype Failure = Conflicted | Faulted

  datatype Phase =
    | Waiting                                       // for the advisory lock
    | Holding                                       // the advisory lock, nothing read yet
    | Planned(plan: Plan)                           // catalog read
    | Beginning(plan: Plan)                         // ledger read and behind; about to open the transaction
    | Locking(plan: Plan, next: nat)                // LOCK TABLE, one target at a time
    | Altering(todo: seq<string>)                   // decided under the locks; ALTERs to go
    | Stamping                                      // the ledger row is written, its reply outstanding
    | Issued                                        // every write issued
    | AwaitingCommit                                // COMMIT sent
    | Verifying                                     // the commit was observed
    | Finishing                                     // verified; cleaning up
    | Reporting                                     // ledger current: reported, cleaning up
    | Unwinding(failure: Failure)                   // an error on its way out, cleaning up
    | Exited(code: nat)
    | Killed

  /** The server's side of a run's one transaction. `planned` and `decided` are history: what the
      plan named, and that the bootstrap tables were checked under the locks. */
  datatype Tx =
    | NoTx
    | Active(locks: set<string>, planned: set<string>, decided: bool, altered: set<string>, stamp: nat, stamped: bool, sent: bool)
    | Committed
    | RolledBack

  datatype Replica = Replica(version: nat, phase: Phase, tx: Tx, flags: Progress)

  /** What one commit did. */
  datatype Record = Record(id: Id, version: nat, before: Catalog, after: Catalog, ledgerBefore: nat, ledgerAfter: nat, planned: set<string>)

  datatype State = State(catalog: Catalog, ledger: nat, advisory: set<Id>, replicas: map<Id, Replica>, commits: seq<Record>)

  datatype Event =
    | Environment(catalog: Catalog)
    | Boot(version: nat)
    | TakeLock | LoseLock
    | ReadCatalog(rows: seq<TableRow>) | ReadLedger
    | Begin | LockTable | Decide | Alter | Stamp | Issue | SendCommit
    | ServerCommit | ServerAbort
    | ObserveCommit | ObserveReject
    | Verify(rows: seq<TableRow>)
    | Fault | Finish | Deadline | Kill

  // ------------------------------------------------------------------ exit codes

  /** The decision in the top-level catch. */
  function ExitCode(failure: Failure, flags: Progress): nat
  {
    if failure.Conflicted? then 4
    else if flags.verified then 0
    else if flags.committed || flags.writesIssued then 5
    else 1
  }

  // ------------------------------------------------------------------ steps

  function LocksOf(r: Replica): set<string>
  {
    if r.tx.Active? then r.tx.locks else {}
  }

  predicate HoldsLedgerRow(r: Replica) { r.tx.Active? && r.tx.stamped }

  ghost predicate FreeTable(s: State, i: Id, t: string)
  {
    forall j :: j in s.replicas && j != i ==> t !in LocksOf(s.replicas[j])
  }

  ghost predicate FreeLedgerRow(s: State, i: Id)
  {
    forall j :: j in s.replicas && j != i ==> !HoldsLedgerRow(s.replicas[j])
  }

  /** Nobody else's locks are touched: LOCK and ALTER conflict with every other lock on a table. */
  ghost predicate RespectsLocks(s: State, cat: Catalog)
  {
    forall j, t :: j in s.replicas && t in LocksOf(s.replicas[j]) ==>
      (t in s.catalog <==> t in cat) && (t in cat ==> cat[t] == s.catalog[t])
  }

  predicate InTransaction(p: Phase)
  {
    p.Beginning? || p.Locking? || p.Altering? || p.Stamping? || p.Issued? || p.AwaitingCommit?
  }

  predicate Gone(p: Phase) { p.Exited? || p.Killed? }

  predicate CleaningUp(p: Phase) { p.Reporting? || p.Finishing? || p.Unwinding? }

  ghost predicate Enabled(a: Assumptions, s: State, i: Id, e: Event)
  {
    if e.Environment? then RespectsLocks(s, e.catalog)
    else if e.Boot? then i !in s.replicas
    else i in s.replicas && EnabledFor(a, s, i, s.replicas[i], e)
  }

  ghost predicate EnabledFor(a: Assumptions, s: State, i: Id, r: Replica, e: Event)
  {
    match e
    case Environment(_) => false
    case Boot(_) => false
    case TakeLock => r.phase.Waiting? && s.advisory == {}
    case LoseLock => i in s.advisory && (a.lockOutlivesTx ==> (Gone(r.phase) || CleaningUp(r.phase)) && !r.tx.Active?)
    case ReadCatalog(rows) => r.phase.Holding? && Lists(rows, s.catalog)
    case ReadLedger => r.phase.Planned?
    case Begin => r.phase.Beginning? && r.tx.NoTx?
    case LockTable => r.phase.Locking? && r.tx.Active? && r.phase.next < |Targets(r.phase.plan.toDisable)|
        && (var t := Targets(r.phase.plan.toDisable)[r.phase.next]; t in s.catalog && FreeTable(s, i, t))
    case Decide => r.phase.Locking? && r.tx.Active? && r.phase.next == |Targets(r.phase.plan.toDisable)|
    case Alter => r.phase.Altering? && r.tx.Active? && r.phase.todo != []
    case Stamp => r.phase.Altering? && r.tx.Active? && r.phase.todo == [] && FreeLedgerRow(s, i)
    case Issue => r.phase.Stamping? && r.tx.Active?
    case SendCommit => r.phase.Issued? && r.tx.Active?
    case ServerCommit => r.tx.Active? && r.tx.sent
    case ServerAbort => r.tx.Active?
    case ObserveCommit => r.phase.AwaitingCommit? && r.tx.Committed?
    case ObserveReject => InTransaction(r.phase) && (r.tx.Committed? ==> !a.rejectMeansRolledBack)
        && (r.tx.Active? ==> r.tx.sent && !a.rejectMeansRolledBack)
    case Verify(rows) => r.phase.Verifying? && Lists(rows, s.catalog)
    case Fault => r.phase.Waiting? || r.phase.Holding? || r.phase.Planned? || r.phase.Verifying?
    case Finish => CleaningUp(r.phase)
    case Deadline => !Gone(r.phase)
    case Kill => !Gone(r.phase)
  }

  function Unwind(r: Replica, f: Failure): Replica { r.(phase := Unwinding(f)) }

  /** What an event makes of its own replica; the catalog, ledger and locks change only below. */
  function Local(s: State, r: Replica, e: Event): Replica
  {
    match e
    case TakeLock => r.(phase := Holding)
    case ReadCatalog(rows) =>
      if exists t :: t in BOOTSTRAP && t !in s.catalog then Unwind(r, Faulted)
      else r.(phase := Planned(PlanOf(rows)))
    case ReadLedger =>
      if !r.phase.Planned? then r
      else if s.ledger >= r.version then r.(phase := Reporting)
      else if r.phase.plan.conflicts != [] then Unwind(r, Conflicted)
      else r.(phase := Beginning(r.phase.plan), flags := r.flags.(txStarted := true))
    case Begin =>
      if !r.phase.Beginning? then r
      else r.(phase := Locking(r.phase.plan, 0), tx := Active({}, AsSet(r.phase.plan.toDisable), false, {}, 0, false, false))
    case LockTable =>
      if !(r.phase.Locking? && r.tx.Active? && r.phase.next < |Targets(r.phase.plan.toDisable)|) then r
      else r.(phase := Locking(r.phase.plan, r.phase.next + 1),
              tx := r.tx.(locks := r.tx.locks + {Targets(r.phase.plan.toDisable)[r.phase.next]}))
    case Decide =>
      if !(r.phase.Locking? && r.tx.Active?) then r
      else if ConflictsUnder(Targets(r.phase.plan.toDisable), s.catalog) != [] then
        Unwind(r.(tx := RolledBack, flags := r.flags.(txStarted := false, writesIssued := false)), Conflicted)
      else r.(phase := Altering(UnvettedOf(r.phase.plan.toDisable, s.catalog)), tx := r.tx.(decided := true))
    case Alter =>
      if !(r.phase.Altering? && r.tx.Active? && r.phase.todo != []) then r
      else r.(phase := Altering(r.phase.todo[1..]), tx := r.tx.(altered := r.tx.altered + {r.phase.todo[0]}))
    case Stamp =>
      if !r.tx.Active? then r
      else r.(phase := Stamping, tx := r.tx.(stamp := Max(s.ledger, r.version), stamped := true))
    case Issue => r.(phase := Issued, flags := r.flags.(writesIssued := true))
    case SendCommit => if !r.tx.Active? then r else r.(phase := AwaitingCommit, tx := r.tx.(sent := true))
    case ServerCommit => r.(tx := Committed)
    case ServerAbort => r.(tx := RolledBack)
    case ObserveCommit => r.(phase := Verifying, flags := r.flags.(committed := true, txStarted := false))
    case ObserveReject => Unwind(r.(flags := r.flags.(txStarted := false, writesIssued := false)), Faulted)
    case Verify(_) =>
      if HasHazard(BindingHazards(s.catalog)) then Unwind(r, Faulted)
      else r.(phase := Finishing, flags := r.flags.(verified := true))
    case Fault => Unwind(r, Faulted)
    case Finish =>
      r.(phase := Exited(if r.phase.Unwinding? then ExitCode(r.phase.failure, r.flags) else 0))
    case Deadline => r.(phase := Exited(ExitCode(Faulted, r.flags)))
    case Kill => r.(phase := Killed)
    case _ => r
  }

  function RecordOf(s: State, i: Id): Record
    requires i in s.replicas && s.replicas[i].tx.Active?
  {
    var r := s.replicas[i];
    Record(i, r.version, s.catalog, DisableAll(s.catalog, r.tx.altered), s.ledger, r.tx.stamp, r.tx.planned)
  }

  function Apply(s: State, i: Id, e: Event): State
    requires e.Environment? || e.Boot? || i in s.replicas
  {
    match e
    case Environment(cat) => s.(catalog := cat)
    case Boot(version) => s.(replicas := s.replicas[i := Replica(version, Waiting, NoTx, IDLE)])
    case LoseLock => s.(advisory := s.advisory - {i})
    case _ =>
      var s' := s.(replicas := s.replicas[i := Local(s, s.replicas[i], e)]);
      if e.TakeLock? then s'.(advisory := s.advisory + {i})
      else if e.ServerCommit? && s.replicas[i].tx.Active? then
        var c := RecordOf(s, i);
        s'.(catalog := c.after, ledger := c.ledgerAfter, commits := s.commits + [c])
      else s'
  }

  /** The events that move their own replica and nothing else of the database. */
  predicate Moves(e: Event)
  {
    !e.Environment? && !e.Boot? && !e.TakeLock? && !e.LoseLock? && !e.ServerCommit?
  }

  lemma ApplyMove(s: State, i: Id, e: Event)
    requires i in s.replicas && Moves(e)
    ensures Apply(s, i, e) == s.(replicas := s.replicas[i := Local(s, s.replicas[i], e)])
  {
  }

  /** What an event of replica j makes of a replica i. */
  lemma ApplyReplica(a: Assumptions, s: State, j: Id, e: Event, i: Id)
    requires Enabled(a, s, j, e) && i in s.replicas
    ensures i in Apply(s, j, e).replicas
    ensures Apply(s, j, e).replicas[i] == s.replicas[i]
      || (i == j && EnabledFor(a, s, i, s.replicas[i], e) && Apply(s, j, e).replicas[i] == Local(s, s.replicas[i], e))
    ensures !e.ServerCommit? ==> Apply(s, j, e).ledger == s.ledger && Apply(s, j, e).commits == s.commits
  {
  }

  ghost predicate Next(a: Assumptions, s: State, s': State)
  {
    exists i, e :: Enabled(a, s, i, e) && s' == Apply(s, i, e)
  }

  ghost predicate Initial(s: State)
  {
    s.advisory == {} && s.replicas == map[] && s.commits == []
  }

  ghost predicate StepAt(a: Assumptions, run: seq<State>, k: nat)
  {
    && k + 1 < |run|
    && Next(a, run[k], run[k + 1])
  }

  ghost predicate IsRun(a: Assumptions, run: seq<State>)
  {
    |run| > 0 && Initial(run[0]) && forall k :: 0 <= k < |run| - 1 ==> StepAt(a, run, k)
  }

  // ------------------------------------------------------------------ the invariant

  /** What the progress flags and the transaction can be in each phase. */
  ghost predicate PhaseOk(a: Assumptions, r: Replica)
  {
    var f := r.flags;
    match r.phase
    case Waiting => f == IDLE && r.tx.NoTx?
    case Holding => f == IDLE && r.tx.NoTx?
    case Planned(_) => f == IDLE && r.tx.NoTx?
    case Reporting => f == IDLE && r.tx.NoTx?
    case Beginning(_) => f == IDLE.(txStarted := true) && r.tx.NoTx?
    case Locking(_, _) => f == IDLE.(txStarted := true) && !r.tx.NoTx? && !r.tx.Committed? && (r.tx.Active? ==> !r.tx.decided)
    case Altering(_) => f == IDLE.(txStarted := true) && !r.tx.NoTx? && !r.tx.Committed? && (r.tx.Active? ==> r.tx.decided && !r.tx.stamped)
    case Stamping => f == IDLE.(txStarted := true) && !r.tx.NoTx? && !r.tx.Committed? && (r.tx.Active? ==> r.tx.stamped && !r.tx.sent)
    case Issued => f == Progress(true, true, false, false) && !r.tx.NoTx? && !r.tx.Committed? && (r.tx.Active? ==> r.tx.stamped && !r.tx.sent)
    case AwaitingCommit => f == Progress(true, true, false, false) && !r.tx.NoTx? && (r.tx.Active? ==> r.tx.sent)
    case Verifying => f == Progress(false, true, true, false) && r.tx.Committed?
    case Finishing => f == Progress(false, true, true, true) && r.tx.Committed?
    case Unwinding(g) =>
      || (f == IDLE && (r.tx.Active? ==> r.tx.sent) && (r.tx.Active? || r.tx.Committed? ==> g.Faulted? && !a.rejectMeansRolledBack))
      || (f == Progress(false, true, true, false) && g.Faulted? && r.tx.Committed?)
    case Exited(c) => ExitOk(a, r, c)
    case Killed => FlagsOk(a, r)
  }

  /** The flags never claim more than the database did, and, if a reject means rolled back, never less once
      COMMIT could land. */
  ghost predicate FlagsOk(a: Assumptions, r: Replica)
  {
    && (r.tx.Committed? && a.rejectMeansRolledBack ==> r.flags.writesIssued || r.flags.committed)
    && (r.tx.Active? && r.tx.sent && a.rejectMeansRolledBack ==> r.flags.writesIssued)
    && (r.flags.verified ==> r.flags.committed)
    && (r.flags.committed ==> r.tx.Committed?)
  }

  /** An honest exit code. The one hole is a reject whose transaction had committed, or still could. */
  ghost predicate ExitOk(a: Assumptions, r: Replica, c: nat)
  {
    || (c == 0 && r.flags == IDLE && r.tx.NoTx?)
    || (c == 0 && r.flags.verified && r.flags.committed && r.tx.Committed?)
    || (c == 5 && r.flags.writesIssued && !r.flags.verified && !r.tx.NoTx? && (r.flags.committed ==> r.tx.Committed?))
    || (c == 4 && r.flags == IDLE && (r.tx.NoTx? || r.tx.RolledBack?))
    || (c == 1 && !r.flags.writesIssued && !r.flags.committed && !r.flags.verified
        && ((r.tx.Active? && r.tx.sent) || r.tx.Committed? ==> !a.rejectMeansRolledBack))
  }

  function Max(x: nat, y: nat): nat { if x > y then x else y }

  /** What an open transaction has established under its locks. */
  ghost predicate TxOk(cat: Catalog, ledger: nat, version: nat, tx: Tx)
  {
    tx.Active? ==>
      && tx.altered <= tx.planned
      && (forall t :: t in tx.altered ==> t in tx.locks && t in cat && Unvetted(cat[t]))
      && (tx.decided ==> tx.planned <= tx.locks && (forall t :: t in BOOTSTRAP ==> t in tx.locks))
      && (tx.decided ==> forall t :: t in BOOTSTRAP && t in cat ==> !PhaseOwned(cat[t]))
      && (tx.stamped ==> tx.decided && tx.stamp == Max(ledger, version))
      && (tx.stamped ==> forall t :: t in tx.planned && t in cat && Unvetted(cat[t]) ==> t in tx.altered)
      && (tx.sent ==> tx.stamped)
      && (!tx.decided ==> tx.altered == {})
  }

  /** How far the client has walked through its plan, against what the transaction has done. */
  ghost predicate WalkOk(cat: Catalog, phase: Phase, tx: Tx)
  {
    && (tx.Active? && phase.Locking? ==>
          var ts := Targets(phase.plan.toDisable);
          phase.next <= |ts| && tx.locks == AsSet(ts[..phase.next]) && tx.planned == AsSet(phase.plan.toDisable))
    && (tx.Active? && phase.Altering? ==>
          && (forall t :: t in phase.todo ==> t in tx.planned && t in cat && Unvetted(cat[t]))
          && (forall t :: t in tx.planned && t in cat && Unvetted(cat[t]) ==> t in tx.altered || t in phase.todo))
  }

  /** The part of a run that needs the advisory lock to have been kept. */
  predicate NeedsLock(r: Replica)
  {
    r.tx.Active? || r.phase.Holding? || r.phase.Planned? || InTransaction(r.phase)
  }

  /** While the advisory lock outlives the transaction: who holds it, and what its holder knows. */
  ghost predicate LockOk(a: Assumptions, ledger: nat, advisory: set<Id>, i: Id, r: Replica)
  {
    a.lockOutlivesTx ==>
      && (NeedsLock(r) ==> advisory == {i})
      && (r.tx.Active? || r.phase.Beginning? ==> ledger < r.version)
  }

  ghost predicate ReplicaOk(a: Assumptions, cat: Catalog, ledger: nat, advisory: set<Id>, i: Id, r: Replica)
  {
    && PhaseOk(a, r)
    && TxOk(cat, ledger, r.version, r.tx)
    && WalkOk(cat, r.phase, r.tx)
    && LockOk(a, ledger, advisory, i, r)
  }

  /** Locks exclude each other. */
  ghost predicate Apart(r: Replica, q: Replica)
  {
    LocksOf(r) !! LocksOf(q) && !(HoldsLedgerRow(r) && HoldsLedgerRow(q))
  }

  /** What any commit may do: turn off planned tables that were ENABLEd and un-FORCEd, and nothing else. */
  ghost predicate RecordOk(a: Assumptions, c: Record)
  {
    && c.after.Keys == c.before.Keys
    && (forall t :: t in c.before && c.after[t] != c.before[t] ==>
          t in c.planned && c.before[t] == Posture(true, false) && c.after[t] == Posture(false, false))
    && (forall t :: t in c.planned && t in c.before && Unvetted(c.before[t]) ==> !c.after[t].enabled)
    && (forall t :: t in BOOTSTRAP && t in c.before ==> !PhaseOwned(c.before[t]))
    && c.ledgerAfter == Max(c.ledgerBefore, c.version)
    && (a.lockOutlivesTx ==> c.ledgerBefore < c.version)
  }

  ghost predicate LedgerOk(a: Assumptions, ledger: nat, commits: seq<Record>)
  {
    && (forall k :: 0 <= k < |commits| ==> RecordOk(a, commits[k]))
    && (forall k :: 0 <= k < |commits| - 1 ==> commits[k].ledgerAfter == commits[k + 1].ledgerBefore)
    && (commits != [] ==> ledger == commits[|commits| - 1].ledgerAfter)
  }

  /** A run's commit is in the history exactly when the server committed it. */
  ghost predicate Recorded(replicas: map<Id, Replica>, commits: seq<Record>)
  {
    && (forall k :: 0 <= k < |commits| ==> commits[k].id in replicas && replicas[commits[k].id].tx.Committed?)
    && (forall i :: i in replicas && replicas[i].tx.Committed? ==> exists k :: 0 <= k < |commits| && commits[k].id == i)
  }

  ghost predicate AllOk(a: Assumptions, s: State)
  {
    forall i :: i in s.replicas ==> ReplicaOk(a, s.catalog, s.ledger, s.advisory, i, s.replicas[i])
  }

  ghost predicate AllApart(replicas: map<Id, Replica>)
  {
    forall i, j :: i in replicas && j in replicas && i != j ==> Apart(replicas[i], replicas[j])
  }

  ghost predicate Inv(a: Assumptions, s: State)
  {
    && AllOk(a, s)
    && AllApart(s.replicas)
    && LedgerOk(a, s.ledger, s.commits)
    && Recorded(s.replicas, s.commits)
  }

  // ------------------------------------------------------------------ one event keeps it

  /** The client's own moves: they leave the transaction alone or find it closed. */
  predicate ClientMove(e: Event)
  {
    || e.ReadCatalog? || e.ReadLedger? || e.ObserveCommit? || e.ObserveReject? || e.Verify?
    || e.Fault? || e.Finish? || e.Deadline? || e.Kill? || e.ServerAbort?
  }

  predicate TxMove(e: Event)
  {
    e.Begin? || e.LockTable? || e.Decide? || e.Alter? || e.Stamp? || e.Issue? || e.SendCommit?
  }

  lemma ClientMovePhase(a: Assumptions, s: State, i: Id, r: Replica, e: Event)
    requires ReplicaOk(a, s.catalog, s.ledger, s.advisory, i, r)
    requires ClientMove(e) && EnabledFor(a, s, i, r, e)
    ensures PhaseOk(a, Local(s, r, e)) && LockOk(a, s.ledger, s.advisory, i, Local(s, r, e))
  {
  }

  lemma ClientMoveOk(a: Assumptions, s: State, i: Id, r: Replica, e: Event)
    requires ReplicaOk(a, s.catalog, s.ledger, s.advisory, i, r)
    requires ClientMove(e) && EnabledFor(a, s, i, r, e)
    ensures ReplicaOk(a, s.catalog, s.ledger, s.advisory, i, Local(s, r, e))
    ensures LocksOf(Local(s, r, e)) <= LocksOf(r) && (HoldsLedgerRow(Local(s, r, e)) ==> HoldsLedgerRow(r))
    ensures Local(s, r, e).tx.Committed? <==> r.tx.Committed?
  {
    ClientMovePhase(a, s, i, r, e);
  }

  lemma DecideOk(a: Assumptions, s: State, i: Id, r: Replica)
    requires ReplicaOk(a, s.catalog, s.ledger, s.advisory, i, r)
    requires EnabledFor(a, s, i, r, Decide)
    ensures ReplicaOk(a, s.catalog, s.ledger, s.advisory, i, Local(s, r, Decide))
  {
    var planned := r.phase.plan.toDisable;
    var ts := Targets(planned);
    assert ts[..|ts|] == ts;
    ConflictsUnderMeaning(ts, s.catalog);
    SelectedMeaning(planned, s.catalog);
    assert forall t :: t in BOOTSTRAP && t in s.catalog && PhaseOwned(s.catalog[t]) ==> t in ConflictsUnder(ts, s.catalog);
  }

  lemma LockTableOk(a: Assumptions, s: State, i: Id, r: Replica)
    requires ReplicaOk(a, s.catalog, s.ledger, s.advisory, i, r)
    requires EnabledFor(a, s, i, r, LockTable)
    ensures ReplicaOk(a, s.catalog, s.ledger, s.advisory, i, Local(s, r, LockTable))
  {
    var ts := Targets(r.phase.plan.toDisable);
    assert ts[..r.phase.next + 1] == ts[..r.phase.next] + [ts[r.phase.next]];
  }

  lemma AlterOk(a: Assumptions, s: State, i: Id, r: Replica)
    requires ReplicaOk(a, s.catalog, s.ledger, s.advisory, i, r)
    requires EnabledFor(a, s, i, r, Alter)
    ensures ReplicaOk(a, s.catalog, s.ledger, s.advisory, i, Local(s, r, Alter))
  {
    assert r.phase.todo == [r.phase.todo[0]] + r.phase.todo[1..];
  }

  lemma StampOk(a: Assumptions, s: State, i: Id, r: Replica)
    requires ReplicaOk(a, s.catalog, s.ledger, s.advisory, i, r)
    requires EnabledFor(a, s, i, r, Stamp)
    ensures ReplicaOk(a, s.catalog, s.ledger, s.advisory, i, Local(s, r, Stamp))
  {
  }

  lemma OtherTxMoveOk(a: Assumptions, s: State, i: Id, r: Replica, e: Event)
    requires ReplicaOk(a, s.catalog, s.ledger, s.advisory, i, r)
    requires (e.Begin? || e.Issue? || e.SendCommit?) && EnabledFor(a, s, i, r, e)
    ensures ReplicaOk(a, s.catalog, s.ledger, s.advisory, i, Local(s, r, e))
  {
  }

  lemma TxMoveOk(a: Assumptions, s: State, i: Id, r: Replica, e: Event)
    requires ReplicaOk(a, s.catalog, s.ledger, s.advisory, i, r)
    requires TxMove(e) && EnabledFor(a, s, i, r, e)
    ensures ReplicaOk(a, s.catalog, s.ledger, s.advisory, i, Local(s, r, e))
  {
    match e
    case LockTable => LockTableOk(a, s, i, r);
    case Decide => DecideOk(a, s, i, r);
    case Alter => AlterOk(a, s, i, r);
    case Stamp => StampOk(a, s, i, r);
    case _ => OtherTxMoveOk(a, s, i, r, e);
  }

  lemma TxMoveApart(a: Assumptions, s: State, i: Id, r: Replica, e: Event, j: Id)
    requires TxMove(e) && EnabledFor(a, s, i, r, e)
    requires j in s.replicas && j != i && Apart(r, s.replicas[j])
    ensures Apart(Local(s, r, e), s.replicas[j])
  {
  }

  lemma TxMoveTx(a: Assumptions, s: State, i: Id, r: Replica, e: Event)
    requires TxMove(e) && EnabledFor(a, s, i, r, e)
    ensures !Local(s, r, e).tx.Committed? && !r.tx.Committed?
  {
  }

  lemma ReplaceApart(replicas: map<Id, Replica>, i: Id, r: Replica)
    requires AllApart(replicas)
    requires forall j :: j in replicas && j != i ==> Apart(r, replicas[j])
    ensures AllApart(replicas[i := r])
  {
    var replicas' := replicas[i := r];
    forall j, k | j in replicas' && k in replicas' && j != k ensures Apart(replicas'[j], replicas'[k]) {
      if j != i && k != i { assert Apart(replicas[j], replicas[k]); }
    }
  }

  lemma ReplaceRecorded(replicas: map<Id, Replica>, i: Id, r: Replica, commits: seq<Record>)
    requires Recorded(replicas, commits)
    requires r.tx.Committed? <==> i in replicas && replicas[i].tx.Committed?
    ensures Recorded(replicas[i := r], commits)
  {
    var replicas' := replicas[i := r];
    forall j | j in replicas' && replicas'[j].tx.Committed?
      ensures exists k :: 0 <= k < |commits| && commits[k].id == j
    {
      assert j in replicas && replicas[j].tx.Committed?;
    }
  }

  /** Changing one replica, with the catalog and the ledger as they were. */
  lemma ReplaceOne(a: Assumptions, s: State, i: Id, r: Replica)
    requires Inv(a, s)
    requires ReplicaOk(a, s.catalog, s.ledger, s.advisory, i, r)
    requires r.tx.Committed? <==> i in s.replicas && s.replicas[i].tx.Committed?
    requires forall j :: j in s.replicas && j != i ==> Apart(r, s.replicas[j])
    ensures Inv(a, s.(replicas := s.replicas[i := r]))
  {
    ReplaceApart(s.replicas, i, r);
    ReplaceRecorded(s.replicas, i, r, s.commits);
  }

  lemma MovedReplica(a: Assumptions, s: State, i: Id, r: Replica, e: Event)
    requires Inv(a, s) && i in s.replicas && r == s.replicas[i]
    requires (ClientMove(e) || TxMove(e)) && EnabledFor(a, s, i, r, e)
    ensures ReplicaOk(a, s.catalog, s.ledger, s.advisory, i, Local(s, r, e))
    ensures Local(s, r, e).tx.Committed? <==> r.tx.Committed?
    ensures forall j :: j in s.replicas && j != i ==> Apart(Local(s, r, e), s.replicas[j])
  {
    var r' := Local(s, r, e);
    if ClientMove(e) { ClientMoveOk(a, s, i, r, e); } else { TxMoveOk(a, s, i, r, e); }
    forall j | j in s.replicas && j != i ensures Apart(r', s.replicas[j]) {
      assert Apart(r, s.replicas[j]);
      if TxMove(e) { TxMoveApart(a, s, i, r, e, j); }
    }
    if TxMove(e) { TxMoveTx(a, s, i, r, e); }
  }

  lemma MoveKeeps(a: Assumptions, s: State, i: Id, e: Event)
    requires Inv(a, s) && (ClientMove(e) || TxMove(e)) && Enabled(a, s, i, e)
    ensures Inv(a, Apply(s, i, e))
  {
    var r := s.replicas[i];
    MovedReplica(a, s, i, r, e);
    ReplaceOne(a, s, i, Local(s, r, e));
  }

  /** A change of the catalog that respects a transaction's locks leaves what it established standing. */
  lemma CatalogChangeOk(cat: Catalog, cat': Catalog, ledger: nat, version: nat, phase: Phase, tx: Tx)
    requires TxOk(cat, ledger, version, tx) && WalkOk(cat, phase, tx)
    requires tx.Active? ==> forall t :: t in tx.locks ==> (t in cat <==> t in cat') && (t in cat' ==> cat'[t] == cat[t])
    requires tx.Active? && phase.Altering? ==> tx.decided
    ensures TxOk(cat', ledger, version, tx) && WalkOk(cat', phase, tx)
  {
  }

  lemma EnvironmentKeeps(a: Assumptions, s: State, i: Id, e: Event)
    requires Inv(a, s) && e.Environment? && Enabled(a, s, i, e)
    ensures Inv(a, Apply(s, i, e))
  {
    var s' := Apply(s, i, e);
    forall j | j in s.replicas ensures ReplicaOk(a, s'.catalog, s'.ledger, s'.advisory, j, s.replicas[j]) {
      var r := s.replicas[j];
      assert ReplicaOk(a, s.catalog, s.ledger, s.advisory, j, r);
      if r.tx.Active? {
        forall t | t in r.tx.locks
          ensures (t in s.catalog <==> t in s'.catalog) && (t in s'.catalog ==> s'.catalog[t] == s.catalog[t])
        {
          assert t in LocksOf(r);
        }
      }
      CatalogChangeOk(s.catalog, s'.catalog, s.ledger, r.version, r.phase, r.tx);
    }
  }

  lemma BootKeeps(a: Assumptions, s: State, i: Id, e: Event)
    requires Inv(a, s) && e.Boot? && Enabled(a, s, i, e)
    ensures Inv(a, Apply(s, i, e))
  {
    ReplaceOne(a, s, i, Replica(e.version, Waiting, NoTx, IDLE));
  }

  lemma TakeLockKeeps(a: Assumptions, s: State, i: Id, e: Event)
    requires Inv(a, s) && e.TakeLock? && Enabled(a, s, i, e)
    ensures Inv(a, Apply(s, i, e))
  {
    var r' := Local(s, s.replicas[i], e);
    var s0 := s.(advisory := {i});
    assert s.advisory + {i} == {i};
    forall j | j in s.replicas && j != i ensures ReplicaOk(a, s0.catalog, s0.ledger, s0.advisory, j, s.replicas[j]) {
      assert ReplicaOk(a, s.catalog, s.ledger, s.advisory, j, s.replicas[j]);
    }
    assert ReplicaOk(a, s.catalog, s.ledger, s.advisory, i, s.replicas[i]);
    assert AllOk(a, s0);
    forall j | j in s.replicas && j != i ensures Apart(r', s.replicas[j]) {
      assert Apart(s.replicas[i], s.replicas[j]);
    }
    ReplaceOne(a, s0, i, r');
    assert Apply(s, i, e) == s0.(replicas := s0.replicas[i := r']);
  }

  lemma LoseLockKeeps(a: Assumptions, s: State, i: Id, e: Event)
    requires Inv(a, s) && e.LoseLock? && Enabled(a, s, i, e)
    ensures Inv(a, Apply(s, i, e))
  {
    var s' := Apply(s, i, e);
    forall j | j in s'.replicas ensures ReplicaOk(a, s'.catalog, s'.ledger, s'.advisory, j, s'.replicas[j]) {
      var r := s.replicas[j];
      assert ReplicaOk(a, s.catalog, s.ledger, s.advisory, j, r);
      if a.lockOutlivesTx {
        assert NeedsLock(r) ==> s.advisory == {j};
        assert i in s.advisory;
        assert NeedsLock(r) ==> j == i;
      }
    }
  }

  lemma CommitRecordOk(a: Assumptions, s: State, i: Id)
    requires Inv(a, s) && Enabled(a, s, i, ServerCommit)
    ensures RecordOk(a, RecordOf(s, i))
  {
    assert ReplicaOk(a, s.catalog, s.ledger, s.advisory, i, s.replicas[i]);
  }

  lemma CommitOthersOk(a: Assumptions, s: State, i: Id, j: Id)
    requires Inv(a, s) && Enabled(a, s, i, ServerCommit) && j in s.replicas && j != i
    ensures var s' := Apply(s, i, ServerCommit);
      ReplicaOk(a, s'.catalog, s'.ledger, s'.advisory, j, s.replicas[j])
  {
    var s' := Apply(s, i, ServerCommit);
    var r, q := s.replicas[i], s.replicas[j];
    assert ReplicaOk(a, s.catalog, s.ledger, s.advisory, i, r);
    assert ReplicaOk(a, s.catalog, s.ledger, s.advisory, j, q);
    assert Apart(r, q);
    if q.tx.Active? {
      forall t | t in q.tx.locks
        ensures (t in s.catalog <==> t in s'.catalog) && (t in s'.catalog ==> s'.catalog[t] == s.catalog[t])
      {
        assert t in LocksOf(q) && t !in LocksOf(r);
      }
    }
    CatalogChangeOk(s.catalog, s'.catalog, s.ledger, q.version, q.phase, q.tx);
    if a.lockOutlivesTx {
      assert s.advisory == {i};
      assert i in s.advisory;
      assert NeedsLock(q) ==> j in s.advisory;
    }
  }

  lemma CommitOwnOk(a: Assumptions, s: State, i: Id)
    requires Inv(a, s) && Enabled(a, s, i, ServerCommit)
    ensures var s' := Apply(s, i, ServerCommit);
      ReplicaOk(a, s'.catalog, s'.ledger, s'.advisory, i, s.replicas[i].(tx := Committed))
  {
    assert ReplicaOk(a, s.catalog, s.ledger, s.advisory, i, s.replicas[i]);
  }

  lemma OneMoreRecord(a: Assumptions, ledger: nat, commits: seq<Record>, c: Record)
    requires LedgerOk(a, ledger, commits) && RecordOk(a, c) && c.ledgerBefore == ledger
    ensures LedgerOk(a, c.ledgerAfter, commits + [c])
  {
  }

  lemma CommitKeeps(a: Assumptions, s: State, i: Id, e: Event)
    requires Inv(a, s) && e.ServerCommit? && Enabled(a, s, i, e)
    ensures Inv(a, Apply(s, i, e))
  {
    var s' := Apply(s, i, e);
    var r' := s.replicas[i].(tx := Committed);
    assert s'.replicas == s.replicas[i := r'];
    CommitOwnOk(a, s, i);
    CommitRecordOk(a, s, i);
    OneMoreRecord(a, s.ledger, s.commits, RecordOf(s, i));
    forall j | j in s'.replicas
      ensures ReplicaOk(a, s'.catalog, s'.ledger, s'.advisory, j, s'.replicas[j])
    {
      if j != i { CommitOthersOk(a, s, i, j); }
    }
    ReplaceApart(s.replicas, i, r');
    CommitRecorded(s, i);
  }

  lemma CommitRecorded(s: State, i: Id)
    requires i in s.replicas && s.replicas[i].tx.Active? && Recorded(s.replicas, s.commits)
    ensures Recorded(s.replicas[i := s.replicas[i].(tx := Committed)], s.commits + [RecordOf(s, i)])
  {
    var replicas' := s.replicas[i := s.replicas[i].(tx := Committed)];
    var commits' := s.commits + [RecordOf(s, i)];
    assert commits'[|s.commits|].id == i;
    forall j | j in replicas' && replicas'[j].tx.Committed?
      ensures exists k :: 0 <= k < |commits'| && commits'[k].id == j
    {
      if j != i {
        var k :| 0 <= k < |s.commits| && s.commits[k].id == j;
        assert commits'[k].id == j;
      }
    }
  }

  lemma EventKeeps(a: Assumptions, s: State, i: Id, e: Event)
    requires Inv(a, s) && Enabled(a, s, i, e)
    ensures Inv(a, Apply(s, i, e))
  {
    if e.Environment? { EnvironmentKeeps(a, s, i, e); }
    else if e.Boot? { BootKeeps(a, s, i, e); }
    else if e.TakeLock? { TakeLockKeeps(a, s, i, e); }
    else if e.LoseLock? { LoseLockKeeps(a, s, i, e); }
    else if e.ServerCommit? { CommitKeeps(a, s, i, e); }
    else { MoveKeeps(a, s, i, e); }
  }

  lemma {:induction false} RunKeeps(a: Assumptions, run: seq<State>, k: nat)
    requires IsRun(a, run) && k < |run|
    ensures Inv(a, run[k])
  {
    if k > 0 {
      RunKeeps(a, run, k - 1);
      assert StepAt(a, run, k - 1);
      var i, e :| Enabled(a, run[k - 1], i, e) && run[k] == Apply(run[k - 1], i, e);
      EventKeeps(a, run[k - 1], i, e);
    }
  }
}
