/** What a sweep comes to when nobody else acts and nothing fails: the three ends it is meant to have. */
module SweepCompletion {
  import opened Wrappers
  import opened Order
  import opened RlsPosture
  import opened SweepProtocol
  import opened SweepResults
  import opened SweepAssumptions

  /** Nobody has a transaction open, and the advisory lock is free. */
  ghost predicate AtRest(s: State)
  {
    s.advisory == {} && forall j :: j in s.replicas ==> !s.replicas[j].tx.Active?
  }

  /** The state but for a replica that has read the catalog and is about to read the ledger. */
  function HasRead(s: State, i: Id, v: nat, plan: Plan): State
  {
    s.(advisory := {i}, replicas := s.replicas[i := Replica(v, Planned(plan), NoTx, IDLE)])
  }

  function EndedAs(s: State, i: Id, v: nat, code: nat): State
  {
    s.(advisory := {i}, replicas := s.replicas[i := Replica(v, Exited(code), NoTx, IDLE)])
  }

  lemma Reads(a: Assumptions, s: State, i: Id, v: nat, rows: seq<TableRow>)
    requires Reached(a, s) && AtRest(s) && i !in s.replicas && Lists(rows, s.catalog)
    requires forall t :: t in BOOTSTRAP ==> t in s.catalog
    ensures Reached(a, HasRead(s, i, v, PlanOf(rows)))
  {
    var s1 := BootsAndLocks(a, s, i, v);
    GoAlone(a, s1, i, ReadCatalog(rows));
    var s2 := Put(s1, i, Local(s1, s1.replicas[i], ReadCatalog(rows)));
    assert s2.replicas == s.replicas[i := Replica(v, Planned(PlanOf(rows)), NoTx, IDLE)];
  }

  /** It reads the ledger and, having nothing to do or a conflict, cleans up. */
  lemma Ends(a: Assumptions, s: State, i: Id, v: nat, plan: Plan)
    requires i !in s.replicas && Reached(a, HasRead(s, i, v, plan))
    requires s.ledger >= v || plan.conflicts != []
    ensures Reached(a, EndedAs(s, i, v, if s.ledger >= v then 0 else 4))
  {
    var s1 := HasRead(s, i, v, plan);
    GoAlone(a, s1, i, ReadLedger);
    var r := Local(s1, s1.replicas[i], ReadLedger);
    var s2 := Put(s1, i, r);
    GoAlone(a, s2, i, Finish);
    var r' := Local(s2, s2.replicas[i], Finish);
    assert Put(s2, i, r').replicas == s.replicas[i := r'];
  }

  /** The ledger is current: the sweep exits 0 and has changed nothing. */
  lemma CurrentSweepEnds(a: Assumptions, s: State, i: Id, v: nat, rows: seq<TableRow>)
    requires Reached(a, s) && AtRest(s) && i !in s.replicas && Lists(rows, s.catalog)
    requires (forall t :: t in BOOTSTRAP ==> t in s.catalog) && s.ledger >= v
    ensures Reached(a, EndedAs(s, i, v, 0))
  {
    Reads(a, s, i, v, rows);
    Ends(a, s, i, v, PlanOf(rows));
  }

  /** A phase owns a bootstrap table: the sweep exits 4 and has changed nothing. */
  lemma ConflictedSweepEnds(a: Assumptions, s: State, i: Id, v: nat, rows: seq<TableRow>, t: string)
    requires Reached(a, s) && AtRest(s) && i !in s.replicas && Lists(rows, s.catalog)
    requires (forall t :: t in BOOTSTRAP ==> t in s.catalog) && s.ledger < v
    requires t in BOOTSTRAP && PhaseOwned(s.catalog[t])
    ensures Reached(a, EndedAs(s, i, v, 4))
  {
    Reads(a, s, i, v, rows);
    PlanMeaning(rows, s.catalog, t);
    Ends(a, s, i, v, PlanOf(rows));
  }

  /** A bootstrap table is missing: the sweep exits 1 and has changed nothing. */
  lemma SweepWithoutBootstrapEnds(a: Assumptions, s: State, i: Id, v: nat, rows: seq<TableRow>, t: string)
    requires Reached(a, s) && AtRest(s) && i !in s.replicas && Lists(rows, s.catalog)
    requires t in BOOTSTRAP && t !in s.catalog
    ensures Reached(a, EndedAs(s, i, v, 1))
  {
    var s1 := BootsAndLocks(a, s, i, v);
    GoAlone(a, s1, i, ReadCatalog(rows));
    var r := Local(s1, s1.replicas[i], ReadCatalog(rows));
    var s2 := Put(s1, i, r);
    GoAlone(a, s2, i, Finish);
    var r' := Local(s2, s2.replicas[i], Finish);
    assert Put(s2, i, r').replicas == s.replicas[i := r'];
  }

  /** The catalog as it reads once these rows' tables are as they now are. */
  function Relisted(rows: seq<TableRow>, cat: Catalog): seq<TableRow>
    requires forall k :: 0 <= k < |rows| ==> rows[k].relname in cat
  {
    seq(|rows|, k requires 0 <= k < |rows| => TableRow(rows[k].relname, cat[rows[k].relname]))
  }

  lemma StillLists(rows: seq<TableRow>, cat: Catalog, after: Catalog)
    requires Lists(rows, cat) && after.Keys == cat.Keys
    ensures Lists(Relisted(rows, after), after)
  {
    var again := Relisted(rows, after);
    forall t | t in after ensures exists k :: 0 <= k < |again| && again[k].relname == t {
      var k :| 0 <= k < |rows| && rows[k].relname == t;
      assert again[k].relname == t;
    }
  }

  /** It hears of its commit, verifies and exits. */
  lemma VerifiesAndEnds(a: Assumptions, s: State, i: Id, v: nat, rows: seq<TableRow>) returns (r: Replica)
    requires Reached(a, s) && i in s.replicas && Lists(rows, s.catalog) && !HasHazard(BindingHazards(s.catalog))
    requires s.replicas[i] == Replica(v, AwaitingCommit, Committed, Progress(true, true, false, false))
    ensures Reached(a, Put(s, i, r)) && r == Replica(v, Exited(0), Committed, Progress(false, true, true, true))
  {
    GoAlone(a, s, i, ObserveCommit);
    var r1 := Replica(v, Verifying, Committed, Progress(false, true, true, false));
    var s1 := Put(s, i, r1);
    GoAlone(a, s1, i, Verify(rows));
    var r2 := Replica(v, Finishing, Committed, Progress(false, true, true, true));
    var s2 := Put(s1, i, r2);
    GoAlone(a, s2, i, Finish);
    r := r2.(phase := Exited(0));
    assert Put(s2, i, r) == Put(s, i, r);
  }

  /** No phase owns a bootstrap table and the ledger is behind: the sweep can exit 0, committed and verified,
      with exactly the un-FORCEd tables turned off, nothing left for the gate to refuse, and the ledger at its
      own version. */
  lemma SweepSucceeds(a: Assumptions, s: State, i: Id, v: nat, rows: seq<TableRow>) returns (s': State)
    requires Reached(a, s) && AtRest(s) && i !in s.replicas && Lists(rows, s.catalog) && Calm(s.catalog) && s.ledger < v
    ensures Reached(a, s') && s'.ledger == v && i in s'.replicas
    ensures s'.replicas[i] == Replica(v, Exited(0), Committed, Progress(false, true, true, true))
    ensures s'.catalog == map t | t in s.catalog :: if Unvetted(s.catalog[t]) then Posture(false, false) else s.catalog[t]
    ensures !HasHazard(BindingHazards(s'.catalog))
  {
    PlannedAre(rows, s.catalog);
    var s3 := GetsToLand(a, s, i, v, rows);
    StillLists(rows, s.catalog, s3.catalog);
    var r := VerifiesAndEnds(a, s3, i, v, Relisted(rows, s3.catalog));
    s' := Put(s3, i, r);
  }

  lemma GetsToLand(a: Assumptions, s: State, i: Id, v: nat, rows: seq<TableRow>) returns (s': State)
    requires Reached(a, s) && AtRest(s) && i !in s.replicas && Lists(rows, s.catalog) && Calm(s.catalog) && s.ledger < v
    ensures Reached(a, s') && s'.ledger == v && s'.catalog == SweptBy(PlanOf(rows), s.catalog)
    ensures i in s'.replicas && s'.replicas[i] == Replica(v, AwaitingCommit, Committed, Progress(true, true, false, false))
  {
    PlannedAre(rows, s.catalog);
    var s2 := GetsToBegin(a, s, i, v, rows);
    CommitsPlan(a, s2, i, PlanOf(rows));
    s' := Landed(s2, i, v, PlanOf(rows));
  }

  lemma GetsToBegin(a: Assumptions, s: State, i: Id, v: nat, rows: seq<TableRow>) returns (s': State)
    requires Reached(a, s) && AtRest(s) && i !in s.replicas && Lists(rows, s.catalog) && Calm(s.catalog) && s.ledger < v
    ensures Reached(a, s')
    ensures s' == s.(advisory := {i}, replicas := s.replicas[i := Replica(v, Beginning(PlanOf(rows)), NoTx, IDLE.(txStarted := true))])
  {
    NoConflicts(rows, s.catalog);
    Reads(a, s, i, v, rows);
    var s1 := HasRead(s, i, v, PlanOf(rows));
    GoAlone(a, s1, i, ReadLedger);
    s' := Put(s1, i, Local(s1, s1.replicas[i], ReadLedger));
    assert s'.replicas == s.replicas[i := Replica(v, Beginning(PlanOf(rows)), NoTx, IDLE.(txStarted := true))];
  }

  /** The planned tables are there, and are the un-FORCEd ones. */
  lemma PlannedAre(rows: seq<TableRow>, cat: Catalog)
    requires Lists(rows, cat) && Calm(cat)
    ensures Fits(PlanOf(rows), cat)
    ensures SweptBy(PlanOf(rows), cat) == map t | t in cat :: if Unvetted(cat[t]) then Posture(false, false) else cat[t]
    ensures !HasHazard(BindingHazards(SweptBy(PlanOf(rows), cat)))
  {
    NoConflicts(rows, cat);
    SweptIsClean(rows, cat);
    var plan := PlanOf(rows);
    forall t ensures t in plan.toDisable <==> t in cat && Unvetted(cat[t]) { PlanMeaning(rows, cat, t); }
    SelectedMeaning(plan.toDisable, cat);
  }

  lemma NoConflicts(rows: seq<TableRow>, cat: Catalog)
    requires Lists(rows, cat) && Calm(cat)
    ensures PlanOf(rows).conflicts == []
  {
    var conflicts := PlanOf(rows).conflicts;
    if conflicts != [] { PlanMeaning(rows, cat, conflicts[0]); }
  }
}
