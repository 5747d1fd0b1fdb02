/** Runs of the sweep that end badly. The two assumptions are exactly what its promises need: without each
    there is a run that breaks the promise; and a commit need not leave the gate content. */
module SweepAssumptions {
  import opened Wrappers
  import opened Order
  import opened RlsPosture
  import opened SweepProtocol
  import opened SweepResults

  /** A run of the protocol that ends in this state. */
  ghost predicate Reached(a: Assumptions, s: State)
  {
    exists run :: IsRun(a, run) && run[|run| - 1] == s
  }

  lemma Go(a: Assumptions, s: State, i: Id, e: Event)
    requires Reached(a, s) && Enabled(a, s, i, e)
    ensures Reached(a, Apply(s, i, e))
  {
    var run :| IsRun(a, run) && run[|run| - 1] == s;
    var longer := run + [Apply(s, i, e)];
    forall k | 0 <= k < |longer| - 1 ensures StepAt(a, longer, k) {
      if k < |run| - 1 { assert StepAt(a, run, k); }
    }
    assert IsRun(a, longer);
  }

  function Put(s: State, i: Id, r: Replica): State { s.(replicas := s.replicas[i := r]) }

  lemma GoAlone(a: Assumptions, s: State, i: Id, e: Event)
    requires Reached(a, s) && i in s.replicas && EnabledFor(a, s, i, s.replicas[i], e) && Moves(e)
    ensures Reached(a, Put(s, i, Local(s, s.replicas[i], e)))
  {
    Go(a, s, i, e);
    ApplyMove(s, i, e);
  }

  // ------------------------------------------------------------------ a database with nothing to disable

  /** Nothing to disable and nothing to refuse. */
  predicate Empty(plan: Plan) { plan.toDisable == [] && plan.conflicts == [] }

  /** Every bootstrap table is there and every table is off. */
  ghost predicate Quiet(cat: Catalog)
  {
    (forall t :: t in BOOTSTRAP ==> t in cat) && forall t :: t in cat ==> cat[t] == Posture(false, false)
  }

  lemma QuietNames(rows: seq<TableRow>, cat: Catalog, b: Bucket)
    requires Lists(rows, cat) && Quiet(cat) && (b == ToDisable || b == Conflict)
    ensures NamesIn(rows, b) == []
  {
    var names := NamesIn(rows, b);
    if names != [] {
      NamesInMeaning(rows, b, names[0]);
    }
  }

  lemma QuietPlanned(rows: seq<TableRow>, cat: Catalog)
    requires Lists(rows, cat) && Quiet(cat)
    ensures Empty(PlanOf(rows))
  {
    QuietNames(rows, cat, ToDisable);
    QuietNames(rows, cat, Conflict);
  }

  /** Every bootstrap table is there and no phase owns one. */
  ghost predicate Calm(cat: Catalog)
  {
    forall t :: t in BOOTSTRAP ==> t in cat && !PhaseOwned(cat[t])
  }

  /** Only i may hold locks. */
  ghost predicate Alone(s: State, i: Id)
  {
    Calm(s.catalog) && i in s.replicas && forall j :: j in s.replicas && j != i ==> !s.replicas[j].tx.Active?
  }

  /** Every planned table is there. */
  ghost predicate Fits(plan: Plan, cat: Catalog) { forall t :: t in plan.toDisable ==> t in cat }

  lemma LockIsFree(s: State, i: Id, plan: Plan, k: nat)
    requires Alone(s, i) && Fits(plan, s.catalog) && k < |Targets(plan.toDisable)|
    ensures var t := Targets(plan.toDisable)[k]; t in s.catalog && FreeTable(s, i, t)
  {
    assert Targets(plan.toDisable)[k] in Targets(plan.toDisable);
  }

  /** A sweep alone takes every lock it wants. */
  lemma {:induction false} TakesLocks(a: Assumptions, s: State, i: Id, plan: Plan) returns (r: Replica)
    requires Reached(a, s) && Alone(s, i) && Fits(plan, s.catalog)
    requires var q := s.replicas[i];
      q.phase.Locking? && q.phase.plan == plan && q.tx.Active? && q.phase.next <= |Targets(plan.toDisable)|
    ensures Reached(a, Put(s, i, r))
    ensures var q := s.replicas[i];
      r.version == q.version && r.flags == q.flags && r.phase == Locking(plan, |Targets(plan.toDisable)|)
      && r.tx.Active? && r.tx == q.tx.(locks := r.tx.locks)
    decreases |Targets(plan.toDisable)| - s.replicas[i].phase.next
  {
    var q := s.replicas[i];
    if q.phase.next == |Targets(plan.toDisable)| {
      r := q;
      assert Put(s, i, r) == s;
    } else {
      LockIsFree(s, i, plan, q.phase.next);
      GoAlone(a, s, i, LockTable);
      var q' := Local(s, q, LockTable);
      r := TakesLocks(a, Put(s, i, q'), i, plan);
      assert Put(Put(s, i, q'), i, r) == Put(s, i, r);
    }
  }

  /** A sweep alone opens its transaction, takes its locks and finds what it is to alter. */
  lemma Decides(a: Assumptions, s: State, i: Id, plan: Plan) returns (r: Replica)
    requires Reached(a, s) && Alone(s, i) && Fits(plan, s.catalog)
    requires var q := s.replicas[i]; q.phase == Beginning(plan) && q.tx.NoTx?
    ensures Reached(a, Put(s, i, r))
    ensures r.version == s.replicas[i].version && r.flags == s.replicas[i].flags
    ensures r.phase == Altering(UnvettedOf(plan.toDisable, s.catalog))
    ensures r.tx.Active? && r.tx == Active(r.tx.locks, AsSet(plan.toDisable), true, {}, 0, false, false)
  {
    var q0 := Begins(a, s, i, plan);
    var q := TakesLocks(a, Put(s, i, q0), i, plan);
    var s2 := Put(s, i, q);
    assert Put(Put(s, i, q0), i, q) == s2;
    r := DecidesQuietly(a, s2, i, plan);
    assert Put(s2, i, r) == Put(s, i, r);
  }

  lemma Begins(a: Assumptions, s: State, i: Id, plan: Plan) returns (r: Replica)
    requires Reached(a, s) && i in s.replicas && s.replicas[i].phase == Beginning(plan) && s.replicas[i].tx.NoTx?
    ensures Reached(a, Put(s, i, r))
    ensures r == s.replicas[i].(phase := Locking(plan, 0), tx := Active({}, AsSet(plan.toDisable), false, {}, 0, false, false))
  {
    GoAlone(a, s, i, Begin);
    r := Local(s, s.replicas[i], Begin);
  }

  lemma DecidesQuietly(a: Assumptions, s: State, i: Id, plan: Plan) returns (r: Replica)
    requires Reached(a, s) && i in s.replicas && Calm(s.catalog)
    requires var q := s.replicas[i]; q.phase == Locking(plan, |Targets(plan.toDisable)|) && q.tx.Active?
    ensures Reached(a, Put(s, i, r))
    ensures r == s.replicas[i].(phase := Altering(UnvettedOf(plan.toDisable, s.catalog)), tx := s.replicas[i].tx.(decided := true))
  {
    var ts := Targets(plan.toDisable);
    ConflictsUnderMeaning(ts, s.catalog);
    var cs := ConflictsUnder(ts, s.catalog);
    assert forall k :: 0 <= k < |cs| ==> cs[k] in cs;
    GoAlone(a, s, i, Decide);
    r := Local(s, s.replicas[i], Decide);
  }

  /** It alters them one by one. */
  lemma {:induction false} Alters(a: Assumptions, s: State, i: Id, todo: seq<string>) returns (r: Replica)
    requires Reached(a, s) && i in s.replicas && s.replicas[i].phase == Altering(todo) && s.replicas[i].tx.Active?
    ensures Reached(a, Put(s, i, r))
    ensures var q := s.replicas[i]; r == q.(phase := Altering([]), tx := q.tx.(altered := q.tx.altered + AsSet(todo)))
    decreases |todo|
  {
    var q := s.replicas[i];
    if todo == [] {
      r := q;
      assert Put(s, i, r) == s && q.tx.altered + AsSet(todo) == q.tx.altered;
    } else {
      var q' := AltersOne(a, s, i, todo);
      r := Alters(a, Put(s, i, q'), i, todo[1..]);
      assert Put(Put(s, i, q'), i, r) == Put(s, i, r);
      OneAndTheRest(q.tx.altered, todo);
    }
  }

  lemma AltersOne(a: Assumptions, s: State, i: Id, todo: seq<string>) returns (r: Replica)
    requires Reached(a, s) && i in s.replicas && s.replicas[i].phase == Altering(todo) && s.replicas[i].tx.Active? && todo != []
    ensures Reached(a, Put(s, i, r))
    ensures var q := s.replicas[i]; r == q.(phase := Altering(todo[1..]), tx := q.tx.(altered := q.tx.altered + {todo[0]}))
  {
    GoAlone(a, s, i, Alter);
    r := Local(s, s.replicas[i], Alter);
  }

  lemma OneAndTheRest(had: set<string>, todo: seq<string>)
    requires todo != []
    ensures had + {todo[0]} + AsSet(todo[1..]) == had + AsSet(todo)
  {
    assert todo == [todo[0]] + todo[1..];
  }

  /** Nothing left to alter: the ledger is stamped and every write is issued. */
  lemma Stamps(a: Assumptions, s: State, i: Id)
    requires Reached(a, s) && Alone(s, i)
    requires var q := s.replicas[i]; q.phase == Altering([]) && q.tx.Active? && q.version >= s.ledger
    ensures var q := s.replicas[i]; Reached(a, Put(s, i,
      q.(phase := Issued, tx := q.tx.(stamp := q.version, stamped := true), flags := q.flags.(writesIssued := true))))
  {
    GoAlone(a, s, i, Stamp);
    var s' := Put(s, i, Local(s, s.replicas[i], Stamp));
    GoAlone(a, s', i, Issue);
    assert Put(s', i, Local(s', s'.replicas[i], Issue)) == Put(s, i, s'.replicas[i].(phase := Issued,
      flags := s'.replicas[i].flags.(writesIssued := true)));
  }

  /** The server commits; the client has not heard yet. */
  lemma Lands(a: Assumptions, s: State, i: Id) returns (s': State)
    requires Reached(a, s) && i in s.replicas && s.replicas[i].tx.Active? && s.replicas[i].tx.sent
    ensures Reached(a, s')
    ensures var q := s.replicas[i]; var after := DisableAll(s.catalog, q.tx.altered);
      s' == State(after, q.tx.stamp, s.advisory, s.replicas[i := q.(tx := Committed)],
              s.commits + [Record(i, q.version, s.catalog, after, s.ledger, q.tx.stamp, q.tx.planned)])
  {
    Go(a, s, i, ServerCommit);
    s' := Apply(s, i, ServerCommit);
  }

  /** What a sweep alone with this plan turns off. */
  function SweptBy(plan: Plan, cat: Catalog): Catalog { DisableAll(cat, AsSet(UnvettedOf(plan.toDisable, cat))) }

  function Landed(s: State, i: Id, v: nat, plan: Plan): State
  {
    var after := SweptBy(plan, s.catalog);
    State(after, v, s.advisory, s.replicas[i := Replica(v, AwaitingCommit, Committed, Progress(true, true, false, false))],
      s.commits + [Record(i, v, s.catalog, after, s.ledger, v, AsSet(plan.toDisable))])
  }

  /** A sweep alone goes from opening its transaction to a commit the client has not yet heard of. */
  lemma CommitsPlan(a: Assumptions, s: State, i: Id, plan: Plan)
    requires Reached(a, s) && Alone(s, i) && Fits(plan, s.catalog)
    requires var q := s.replicas[i];
      q.phase == Beginning(plan) && q.tx.NoTx? && q.flags == IDLE.(txStarted := true) && q.version >= s.ledger
    ensures Reached(a, Landed(s, i, s.replicas[i].version, plan))
  {
    var v := s.replicas[i].version;
    var r0 := Decides(a, s, i, plan);
    var s0 := Put(s, i, r0);
    var todo := UnvettedOf(plan.toDisable, s.catalog);
    var r := Alters(a, s0, i, todo);
    var s1 := Put(s0, i, r);
    Stamps(a, s1, i);
    var r2 := r.(phase := Issued, tx := r.tx.(stamp := r.version, stamped := true), flags := r.flags.(writesIssued := true));
    SendsAndLands(a, Put(s1, i, r2), i, todo, AsSet(plan.toDisable), v);
    assert s.replicas[i := r0][i := r][i := r2][i := Replica(v, AwaitingCommit, Committed, r2.flags)]
      == s.replicas[i := Replica(v, AwaitingCommit, Committed, r2.flags)];
  }

  lemma SendsAndLands(a: Assumptions, s: State, i: Id, todo: seq<string>, planned: set<string>, v: nat)
    requires Reached(a, s) && i in s.replicas
    requires var q := s.replicas[i];
      && q.version == v && q.phase == Issued && q.flags == Progress(true, true, false, false)
      && q.tx.Active? && q.tx.altered == AsSet(todo) && q.tx.planned == planned && q.tx.stamp == v
    ensures var after := DisableAll(s.catalog, AsSet(todo));
      Reached(a, State(after, v, s.advisory, s.replicas[i := Replica(v, AwaitingCommit, Committed, Progress(true, true, false, false))],
        s.commits + [Record(i, v, s.catalog, after, s.ledger, v, planned)]))
  {
    GoAlone(a, s, i, SendCommit);
    var q := s.replicas[i];
    var r := q.(phase := AwaitingCommit, tx := q.tx.(sent := true));
    var s' := Lands(a, Put(s, i, r), i);
    assert s'.replicas == s.replicas[i := r.(tx := Committed)];
  }

  /** With nothing planned it changes nothing but the ledger. */
  lemma Commits(a: Assumptions, s: State, i: Id, plan: Plan) returns (s': State)
    requires Reached(a, s) && Alone(s, i) && Empty(plan)
    requires var q := s.replicas[i];
      q.phase == Beginning(plan) && q.tx.NoTx? && q.flags == IDLE.(txStarted := true) && q.version >= s.ledger
    ensures Reached(a, s')
    ensures var v := s.replicas[i].version;
      s' == State(s.catalog, v, s.advisory, s.replicas[i := Replica(v, AwaitingCommit, Committed, Progress(true, true, false, false))],
              s.commits + [Record(i, v, s.catalog, s.catalog, s.ledger, v, {})])
  {
    CommitsPlan(a, s, i, plan);
    s' := Landed(s, i, s.replicas[i].version, plan);
    assert UnvettedOf(plan.toDisable, s.catalog) == [] && AsSet(plan.toDisable) == {};
    assert DisableAll(s.catalog, {}) == s.catalog;
  }

  /** A fresh replica reads the quiet catalog, finds the ledger behind and is about to begin. */
  lemma GetsReady(a: Assumptions, s: State, i: Id, rows: seq<TableRow>) returns (s': State)
    requires Reached(a, s) && Quiet(s.catalog) && Lists(rows, s.catalog)
    requires s.advisory == {} && i !in s.replicas && s.ledger == 0
    ensures Reached(a, s') && s' == s.(advisory := {i},
      replicas := s.replicas[i := Replica(1, Beginning(PlanOf(rows)), NoTx, IDLE.(txStarted := true))])
  {
    var s2 := BootsAndLocks(a, s, i, 1);
    s' := ReadsAndBegins(a, s2, i, rows);
    assert s'.replicas == s.replicas[i := Replica(1, Beginning(PlanOf(rows)), NoTx, IDLE.(txStarted := true))];
  }

  lemma BootsAndLocks(a: Assumptions, s: State, i: Id, v: nat) returns (s': State)
    requires Reached(a, s) && s.advisory == {} && i !in s.replicas
    ensures Reached(a, s') && s' == s.(advisory := {i}, replicas := s.replicas[i := Replica(v, Holding, NoTx, IDLE)])
  {
    Go(a, s, i, Boot(v));
    var s1 := Apply(s, i, Boot(v));
    Go(a, s1, i, TakeLock);
    s' := Apply(s1, i, TakeLock);
    assert s'.replicas == s.replicas[i := Replica(v, Holding, NoTx, IDLE)];
  }

  lemma ReadsAndBegins(a: Assumptions, s: State, i: Id, rows: seq<TableRow>) returns (s': State)
    requires Reached(a, s) && Quiet(s.catalog) && Lists(rows, s.catalog) && s.ledger == 0
    requires i in s.replicas && s.replicas[i] == Replica(1, Holding, NoTx, IDLE)
    ensures Reached(a, s') && s' == Put(s, i, Replica(1, Beginning(PlanOf(rows)), NoTx, IDLE.(txStarted := true)))
  {
    QuietPlanned(rows, s.catalog);
    GoAlone(a, s, i, ReadCatalog(rows));
    var s1 := Apply(s, i, ReadCatalog(rows));
    assert s1 == Put(s, i, Replica(1, Planned(PlanOf(rows)), NoTx, IDLE));
    GoAlone(a, s1, i, ReadLedger);
    s' := Apply(s1, i, ReadLedger);
  }

  /** Exactly these tables, all off. */
  lemma AllOff(names: seq<string>) returns (cat: Catalog, rows: seq<TableRow>)
    requires Ascending(names)
    ensures Lists(rows, cat) && cat == map t | t in names :: Posture(false, false)
  {
    cat := map t | t in names :: Posture(false, false);
    rows := seq(|names|, k requires 0 <= k < |names| => TableRow(names[k], Posture(false, false)));
    forall t | t in cat ensures exists k :: 0 <= k < |rows| && rows[k].relname == t {
      var k :| 0 <= k < |names| && names[k] == t;
      assert rows[k].relname == t;
    }
  }

  /** A quiet database nobody has swept. */
  lemma Start(a: Assumptions) returns (s: State, rows: seq<TableRow>)
    ensures Reached(a, s) && s.ledger == 0 && s.advisory == {} && s.replicas == map[] && s.commits == []
    ensures Quiet(s.catalog) && Lists(rows, s.catalog)
  {
    var none: seq<string> :| |none| == 0;
    var cat;
    cat, rows := AllOff(Targets(none));
    s := State(cat, 0, {}, map[], []);
    assert IsRun(a, [s]);
  }

  // ------------------------------------------------------------------ the two equivalences

  ghost predicate ExitOneIsHonest(a: Assumptions)
  {
    forall s: State, i: Id :: Reached(a, s) && i in s.replicas && s.replicas[i].phase == Exited(1) ==> !HasCommitted(s, i)
  }

  /** "Nothing was committed" on exit 1 is true of every run exactly when a reject means rolled back. */
  lemma ExitOneIsHonestIff(a: Assumptions)
    ensures ExitOneIsHonest(a) <==> a.rejectMeansRolledBack
  {
    if a.rejectMeansRolledBack {
      forall s: State, i: Id | Reached(a, s) && i in s.replicas && s.replicas[i].phase == Exited(1)
        ensures !HasCommitted(s, i)
      {
        var run :| IsRun(a, run) && run[|run| - 1] == s;
        ExitCodesAreHonest(a, run, |run| - 1, i);
      }
    } else {
      var s := CommittedThenRejected(a);
      assert HasCommitted(s, 0) by { assert s.commits[0].id == 0; }
    }
  }

  lemma RejectedAfterCommit(a: Assumptions, s: State, i: Id) returns (s': State)
    requires !a.rejectMeansRolledBack && Reached(a, s) && i in s.replicas
    requires s.replicas[i].phase.AwaitingCommit? && s.replicas[i].tx.Committed? && !s.replicas[i].flags.committed && !s.replicas[i].flags.verified
    ensures Reached(a, s') && s'.commits == s.commits && i in s'.replicas && s'.replicas[i].phase == Exited(1)
  {
    GoAlone(a, s, i, ObserveReject);
    var s1 := Put(s, i, Local(s, s.replicas[i], ObserveReject));
    GoAlone(a, s1, i, Finish);
    s' := Put(s1, i, Local(s1, s1.replicas[i], Finish));
  }

  /** The reply to a COMMIT that landed is lost, and the run exits 1. */
  lemma CommittedThenRejected(a: Assumptions) returns (s: State)
    requires !a.rejectMeansRolledBack
    ensures Reached(a, s) && 0 in s.replicas && s.replicas[0].phase == Exited(1)
    ensures |s.commits| == 1 && s.commits[0].id == 0
  {
    var rows;
    s, rows := Start(a);
    s := GetsReady(a, s, 0, rows);
    QuietPlanned(rows, s.catalog);
    s := Commits(a, s, 0, PlanOf(rows));
    s := RejectedAfterCommit(a, s, 0);
  }

  ghost predicate CommitsRaise(a: Assumptions)
  {
    forall s: State, c: Record :: Reached(a, s) && c in s.commits ==> c.ledgerBefore < c.version
  }

  /** Every commit of every run raises the ledger, so one version commits at most once, exactly when
      the advisory lock outlives its transaction. */
  lemma CommitsRaiseIff(a: Assumptions)
    ensures CommitsRaise(a) <==> a.lockOutlivesTx
  {
    if a.lockOutlivesTx {
      forall s: State, c: Record | Reached(a, s) && c in s.commits ensures c.ledgerBefore < c.version {
        var run :| IsRun(a, run) && run[|run| - 1] == s;
        RunKeeps(a, run, |run| - 1);
        assert RecordOk(a, c);
      }
    } else {
      var s := SameVersionTwice(a);
      assert s.commits[1] in s.commits;
    }
  }

  /** Ready replica 0 loses the advisory lock, and replica 1 gets ready on the same old ledger. Both then
      commit at version 1, and the second raises nothing. */
  lemma SameVersionTwice(a: Assumptions) returns (s: State)
    requires !a.lockOutlivesTx
    ensures Reached(a, s) && |s.commits| == 2 && s.commits[0].version == s.commits[1].version == s.commits[1].ledgerBefore
  {
    var rows;
    s, rows := Start(a);
    QuietPlanned(rows, s.catalog);
    var plan := PlanOf(rows);
    s := GetsReady(a, s, 0, rows);
    Go(a, s, 0, LoseLock);
    s := s.(advisory := {0} - {0});
    assert s.advisory == {};
    s := GetsReady(a, s, 1, rows);
    s := Commits(a, s, 0, plan);
    s := Commits(a, s, 1, plan);
  }

  // ------------------------------------------------------------------ a commit that is not clean

  lemma Changes(a: Assumptions, s: State, i: Id, cat: Catalog)
    requires Reached(a, s) && forall j :: j in s.replicas ==> !s.replicas[j].tx.Active?
    ensures Reached(a, s.(catalog := cat))
  {
    Go(a, s, i, Environment(cat));
  }

  /** A bootstrap table that was off when the sweep planned is ENABLEd before the sweep takes its locks. It is
      neither a conflict nor planned, and the sweep commits beside it. */
  lemma EnabledInTheWindow(a: Assumptions, t: string) returns (s: State)
    requires t in BOOTSTRAP
    ensures Reached(a, s) && |s.commits| == 1 && s.catalog == s.commits[0].after
    ensures t in BindingHazards(s.catalog).bootstrapStillEnabled && HasHazard(BindingHazards(s.catalog))
  {
    var rows;
    s, rows := Start(a);
    var plan := PlanOf(rows);
    QuietPlanned(rows, s.catalog);
    s := GetsReady(a, s, 0, rows);
    var enabled := s.catalog[t := Posture(true, false)];
    Changes(a, s, 0, enabled);
    s := Commits(a, s.(catalog := enabled), 0, plan);
    assert s.catalog == enabled;
  }
}
