/** What the sweep protocol guarantees over every run, and where its two assumptions are needed. */
module SweepResults {
  import opened Wrappers
  import opened Order
  import opened RlsPosture
  import opened SweepProtocol

  ghost predicate HasCommitted(s: State, i: Id)
  {
    exists k :: 0 <= k < |s.commits| && s.commits[k].id == i
  }

  // ------------------------------------------------------------------ what a sweep may change

  /** Every step of every run: the catalog and the ledger change only by a change of the environment
      that respects the sweeps' locks, or by one commit, which turns off planned tables that were
      ENABLEd and un-FORCEd at that moment and nothing else, with no conflicted bootstrap table in
      sight. */
  lemma SweepsAreSafe(a: Assumptions, run: seq<State>, k: nat)
    requires IsRun(a, run) && k + 1 < |run|
    ensures var s, s' := run[k], run[k + 1];
      || (s'.commits == s.commits && s'.ledger == s.ledger && (s'.catalog == s.catalog || RespectsLocks(s, s'.catalog)))
      || (|s'.commits| == |s.commits| + 1 && s'.commits[..|s.commits|] == s.commits &&
          var c := s'.commits[|s.commits|];
          && c.before == s.catalog && c.after == s'.catalog && c.ledgerBefore == s.ledger && c.ledgerAfter == s'.ledger
          && s'.catalog.Keys == s.catalog.Keys
          && (forall t :: t in s.catalog ==> s'.catalog[t].forced == s.catalog[t].forced)
          && (forall t :: t in s.catalog && s'.catalog[t] != s.catalog[t] ==>
                t in c.planned && Unvetted(s.catalog[t]) && !s'.catalog[t].enabled)
          && (forall t :: t in s.catalog && PhaseOwned(s.catalog[t]) ==> s'.catalog[t] == s.catalog[t] && t !in BOOTSTRAP)
          && c.ledgerAfter == Max(c.ledgerBefore, c.version))
  {
    var s, s' := run[k], run[k + 1];
    assert StepAt(a, run, k);
    var i, e :| Enabled(a, s, i, e) && s' == Apply(s, i, e);
    RunKeeps(a, run, k);
    if e.ServerCommit? {
      CommitRecordOk(a, s, i);
      CommitEffect(a, s, i);
    } else if Moves(e) {
      ApplyMove(s, i, e);
    }
  }

  lemma CommitEffect(a: Assumptions, s: State, i: Id)
    requires Enabled(a, s, i, ServerCommit)
    ensures var s', c := Apply(s, i, ServerCommit), RecordOf(s, i);
      s'.commits == s.commits + [c] && s'.catalog == c.after && s'.ledger == c.ledgerAfter
  {
  }

  /** A commit leaves the gate nothing to refuse exactly when every table that was ENABLEd and
      un-FORCEd at the commit had been planned: one that turned up since the plan is left for
      verification to find. */
  lemma CommitIsCleanIff(a: Assumptions, s: State, i: Id)
    requires Inv(a, s) && Enabled(a, s, i, ServerCommit)
    ensures !HasHazard(BindingHazards(Apply(s, i, ServerCommit).catalog)) <==>
      forall t :: t in s.catalog && Unvetted(s.catalog[t]) ==> t in s.replicas[i].tx.planned
  {
    var c := RecordOf(s, i);
    CommitRecordOk(a, s, i);
    var h := BindingHazards(c.after);
    if t :| t in s.catalog && Unvetted(s.catalog[t]) && t !in s.replicas[i].tx.planned {
      assert c.after[t] == c.before[t];
      assert t in h.bindingUnvetted;
    } else {
      assert h.bindingUnvetted == {} && h.bootstrapStillEnabled == {} by {
        forall t | t in c.after ensures !Unvetted(c.after[t]) && (t in BOOTSTRAP ==> !c.after[t].enabled) {
          assert c.after[t] != c.before[t] ==> !c.after[t].enabled;
        }
      }
    }
  }

  // ------------------------------------------------------------------ exit codes

  /** The flags over every run: a commit that landed had its writes issued (given the reject
      assumption), verified implies committed, and committed implies it landed. */
  lemma FlagsAreHonest(a: Assumptions, run: seq<State>, k: nat, i: Id)
    requires IsRun(a, run) && k < |run| && i in run[k].replicas
    ensures var f := run[k].replicas[i].flags;
      && (HasCommitted(run[k], i) && a.rejectMeansRolledBack ==> f.writesIssued || f.committed)
      && (f.verified ==> f.committed)
      && (f.committed ==> HasCommitted(run[k], i))
  {
    RunKeeps(a, run, k);
    var s := run[k];
    assert ReplicaOk(a, s.catalog, s.ledger, s.advisory, i, s.replicas[i]);
  }

  /** The run's transaction is open with its ledger row written, so every planned table that is ENABLEd and
      un-FORCEd has been altered. */
  ghost predicate WroteEverything(s: State, i: Id)
  {
    && i in s.replicas && s.replicas[i].tx.Active? && s.replicas[i].tx.stamped
    && forall t :: t in s.replicas[i].tx.planned && t in s.catalog && Unvetted(s.catalog[t]) ==> t in s.replicas[i].tx.altered
  }

  lemma RaisedByWriting(a: Assumptions, s: State, j: Id, e: Event, i: Id)
    requires Inv(a, s) && Enabled(a, s, j, e) && i in s.replicas && !s.replicas[i].flags.writesIssued
    requires Apply(s, j, e).replicas[i].flags.writesIssued
    ensures WroteEverything(s, i)
  {
    assert ReplicaOk(a, s.catalog, s.ledger, s.advisory, i, s.replicas[i]);
    ApplyReplica(a, s, j, e, i);
  }

  /** The flag is never up on a run whose transaction did not write everything first. */
  lemma {:induction false} IssuedWroteEverything(a: Assumptions, run: seq<State>, k: nat, i: Id)
    requires IsRun(a, run) && k < |run| && i in run[k].replicas && run[k].replicas[i].flags.writesIssued
    ensures exists m :: 0 <= m < k && WroteEverything(run[m], i)
    decreases k
  {
    if k > 0 {
      var s := run[k - 1];
      assert StepAt(a, run, k - 1);
      var j, e :| Enabled(a, s, j, e) && run[k] == Apply(s, j, e);
      if i !in s.replicas {
        NewcomerIsIdle(a, s, j, e, i);
      } else if s.replicas[i].flags.writesIssued {
        IssuedWroteEverything(a, run, k - 1, i);
      } else {
        RunKeeps(a, run, k - 1);
        RaisedByWriting(a, s, j, e, i);
      }
    }
  }

  /** Exit codes over every run, wherever the deadline lands: 4, and 1 given the reject assumption,
      mean this run changed nothing and never will; 5 means its transaction had written everything, the
      ledger row included; 0 means it wrote nothing, or committed and verified. */
  lemma ExitCodesAreHonest(a: Assumptions, run: seq<State>, k: nat, i: Id)
    requires IsRun(a, run) && k < |run| && i in run[k].replicas && run[k].replicas[i].phase.Exited?
    ensures var r := run[k].replicas[i]; var c := r.phase.code;
      && c in {0, 1, 4, 5}
      && (c == 4 ==> !HasCommitted(run[k], i))
      && (c == 1 && a.rejectMeansRolledBack ==> !HasCommitted(run[k], i))
      && (c == 4 || (c == 1 && a.rejectMeansRolledBack) ==> !(r.tx.Active? && r.tx.sent))
      && (c == 5 ==> !r.flags.verified && exists m :: 0 <= m < k && WroteEverything(run[m], i))
      && (c == 5 && r.flags.committed ==> HasCommitted(run[k], i))
      && (c == 0 ==> (HasCommitted(run[k], i) <==> r.flags.verified) && (!HasCommitted(run[k], i) ==> r.tx.NoTx?))
  {
    RunKeeps(a, run, k);
    var s := run[k];
    assert ReplicaOk(a, s.catalog, s.ledger, s.advisory, i, s.replicas[i]);
    if s.replicas[i].phase.code == 5 { IssuedWroteEverything(a, run, k, i); }
  }

  /** The run found a bootstrap table that a phase owns, and is on its way out. */
  ghost predicate Conflicting(s: State, i: Id)
  {
    i in s.replicas && s.replicas[i].phase == Unwinding(Conflicted)
  }

  lemma ExitStep(a: Assumptions, s: State, i: Id, r: Replica, e: Event)
    requires EnabledFor(a, s, i, r, e) && !r.phase.Exited? && Local(s, r, e).phase.Exited?
    ensures Local(s, r, e).phase.code == 4 <==> r.phase == Unwinding(Conflicted) && e.Finish?
  {
  }

  lemma ConflictFinishes(s: State, i: Id)
    requires Conflicting(s, i)
    ensures Apply(s, i, Finish).replicas[i].phase == Exited(4)
  {
  }

  /** A run exits 4 exactly when it finishes unwinding from a conflict. */
  lemma ConflictExitsFour(a: Assumptions, run: seq<State>, k: nat, n: nat, i: Id)
    requires IsRun(a, run) && n == k + 1 && n < |run| && i in run[k].replicas && i in run[n].replicas
    requires !run[k].replicas[i].phase.Exited? && run[n].replicas[i].phase.Exited?
    ensures run[n].replicas[i].phase.code == 4 <==> Conflicting(run[k], i) && run[n] == Apply(run[k], i, Finish)
  {
    var s := run[k];
    assert StepAt(a, run, k);
    var j, e :| Enabled(a, s, j, e) && run[n] == Apply(s, j, e);
    ApplyReplica(a, s, j, e, i);
    ExitStep(a, s, i, s.replicas[i], e);
    if Conflicting(s, i) { ConflictFinishes(s, i); }
  }

  /** A conflict is a bootstrap table seen ENABLEd and FORCEd, when the plan was made or under the locks. */
  lemma ConflictsAreSeen(a: Assumptions, s: State, j: Id, e: Event, i: Id)
    requires Enabled(a, s, j, e) && i in s.replicas && !Conflicting(s, i) && Conflicting(Apply(s, j, e), i)
    ensures var p := s.replicas[i].phase;
      || (p.Planned? && p.plan.conflicts != [] && s.ledger < s.replicas[i].version)
      || (p.Locking? && exists t :: t in BOOTSTRAP && t in s.catalog && PhaseOwned(s.catalog[t]))
  {
    ApplyReplica(a, s, j, e, i);
    var p := s.replicas[i].phase;
    if p.Locking? {
      var targets := Targets(p.plan.toDisable);
      ConflictsUnderMeaning(targets, s.catalog);
      assert ConflictsUnder(targets, s.catalog)[0] in ConflictsUnder(targets, s.catalog);
    }
  }

  /** An exit code is the last word: nothing after it changes it. */
  lemma {:induction false} ExitIsFinal(a: Assumptions, run: seq<State>, k: nat, m: nat, i: Id)
    requires IsRun(a, run) && k <= m < |run| && i in run[k].replicas && run[k].replicas[i].phase.Exited?
    ensures i in run[m].replicas && run[m].replicas[i].phase == run[k].replicas[i].phase
    decreases m
  {
    if k < m {
      var s := run[m - 1];
      ExitIsFinal(a, run, k, m - 1, i);
      assert StepAt(a, run, m - 1);
      var j, e :| Enabled(a, s, j, e) && run[m] == Apply(s, j, e);
      ApplyReplica(a, s, j, e, i);
    }
  }

  lemma VerifiedByReading(a: Assumptions, s: State, i: Id, r: Replica, e: Event)
    requires EnabledFor(a, s, i, r, e) && Local(s, r, e).flags.verified && !r.flags.verified
    ensures e.Verify? && r.phase.Verifying? && !HasHazard(BindingHazards(s.catalog))
  {
  }

  lemma NewcomerIsIdle(a: Assumptions, s: State, j: Id, e: Event, i: Id)
    requires Enabled(a, s, j, e) && i !in s.replicas && i in Apply(s, j, e).replicas
    ensures Apply(s, j, e).replicas[i].flags == IDLE
  {
  }

  /** A verified run read a catalog with nothing to refuse, after its commit. */
  lemma {:induction false} VerifiedReadWasClean(a: Assumptions, run: seq<State>, k: nat, i: Id)
    requires IsRun(a, run) && k < |run| && i in run[k].replicas && run[k].replicas[i].flags.verified
    ensures exists m :: 0 <= m < k && HasCommitted(run[m], i) && !HasHazard(BindingHazards(run[m].catalog))
    decreases k
  {
    if k > 0 {
      var s := run[k - 1];
      assert StepAt(a, run, k - 1);
      var j, e :| Enabled(a, s, j, e) && run[k] == Apply(s, j, e);
      if i !in s.replicas {
        NewcomerIsIdle(a, s, j, e, i);
      } else if s.replicas[i].flags.verified {
        VerifiedReadWasClean(a, run, k - 1, i);
      } else {
        ApplyReplica(a, s, j, e, i);
        VerifiedByReading(a, s, i, s.replicas[i], e);
        RunKeeps(a, run, k - 1);
      }
    }
  }

  // ------------------------------------------------------------------ convergence

  /** The ledger never goes backwards, whatever versions sweep and whether or not the lock holds. */
  lemma {:induction false} LedgerNeverGoesBack(a: Assumptions, run: seq<State>, k: nat, m: nat)
    requires IsRun(a, run) && k <= m < |run|
    ensures run[k].ledger <= run[m].ledger
    decreases m
  {
    if k < m {
      LedgerNeverGoesBack(a, run, k, m - 1);
      SweepsAreSafe(a, run, m - 1);
    }
  }

  /** While the advisory lock outlives its transaction, every commit strictly raises the ledger to
      its own version, so there are never more commits than the highest version. */
  lemma {:induction false} CommitsRaiseTheLedger(a: Assumptions, ledger: nat, commits: seq<Record>, highest: nat)
    requires LedgerOk(a, ledger, commits) && a.lockOutlivesTx
    requires forall k :: 0 <= k < |commits| ==> commits[k].version <= highest
    ensures |commits| <= highest
    ensures commits != [] ==> |commits| <= ledger <= highest
  {
    if commits != [] {
      var n := |commits| - 1;
      var init := commits[..n];
      assert RecordOk(a, commits[n]);
      var before := commits[n].ledgerBefore;
      assert init != [] ==> init[n - 1].ledgerAfter == before by {
        if init != [] { assert commits[n - 1].ledgerAfter == commits[n - 1 + 1].ledgerBefore; }
      }
      assert LedgerOk(a, before, init) by {
        forall k | 0 <= k < |init| - 1 ensures init[k].ledgerAfter == init[k + 1].ledgerBefore {
          assert commits[k].ledgerAfter == commits[k + 1].ledgerBefore;
        }
      }
      CommitsRaiseTheLedger(a, before, init, highest);
    }
  }

  lemma CommitsAreBounded(a: Assumptions, run: seq<State>, k: nat, highest: nat)
    requires IsRun(a, run) && k < |run| && a.lockOutlivesTx
    requires forall c :: c in run[k].commits ==> c.version <= highest
    ensures |run[k].commits| <= highest
    ensures forall n :: 0 <= n < |run[k].commits| ==> run[k].commits[n].ledgerBefore < run[k].commits[n].ledgerAfter == run[k].commits[n].version
  {
    RunKeeps(a, run, k);
    CommitsRaiseTheLedger(a, run[k].ledger, run[k].commits, highest);
    forall n | 0 <= n < |run[k].commits|
      ensures run[k].commits[n].ledgerBefore < run[k].commits[n].ledgerAfter == run[k].commits[n].version
    {
      assert RecordOk(a, run[k].commits[n]);
    }
  }

  /** A run about to find the ledger current, or past having found it so, with no transaction. */
  predicate Harmless(ledger: nat, r: Replica)
  {
    && r.tx.NoTx?
    && ((r.phase.Planned? && ledger >= r.version) || r.phase.Reporting? || r.phase.Unwinding? || Gone(r.phase))
  }

  lemma HarmlessMoves(a: Assumptions, s: State, i: Id, r: Replica, e: Event)
    requires EnabledFor(a, s, i, r, e) && Harmless(s.ledger, r)
    ensures Harmless(s.ledger, Local(s, r, e))
  {
  }

  lemma StaysHarmless(a: Assumptions, s: State, s': State, i: Id)
    requires Inv(a, s) && Next(a, s, s') && i in s.replicas && Harmless(s.ledger, s.replicas[i])
    ensures i in s'.replicas && Harmless(s'.ledger, s'.replicas[i])
  {
    var j, e :| Enabled(a, s, j, e) && s' == Apply(s, j, e);
    ApplyReplica(a, s, j, e, i);
    if e.ServerCommit? {
      CommitRecordOk(a, s, j);
      CommitEffect(a, s, j);
    }
    if i == j && EnabledFor(a, s, i, s.replicas[i], e) { HarmlessMoves(a, s, i, s.replicas[i], e); }
  }

  lemma HarmlessUncommitted(a: Assumptions, s: State, i: Id)
    requires Inv(a, s) && i in s.replicas && s.replicas[i].tx.NoTx?
    ensures !HasCommitted(s, i)
  {
  }

  /** A run that finds the ledger current changes nothing, then or later. */
  lemma CurrentRunsChangeNothing(a: Assumptions, run: seq<State>, k: nat, m: nat, i: Id)
    requires IsRun(a, run) && k <= m < |run| && i in run[k].replicas
    requires run[k].replicas[i].phase.Planned? && run[k].ledger >= run[k].replicas[i].version
    ensures i in run[m].replicas && Harmless(run[m].ledger, run[m].replicas[i]) && !HasCommitted(run[m], i)
  {
    StaysHarmlessFor(a, run, k, m, i);
    RunKeeps(a, run, m);
    HarmlessUncommitted(a, run[m], i);
  }

  lemma PlannedIsHarmless(a: Assumptions, s: State, i: Id)
    requires Inv(a, s) && i in s.replicas && s.replicas[i].phase.Planned? && s.ledger >= s.replicas[i].version
    ensures Harmless(s.ledger, s.replicas[i])
  {
    assert ReplicaOk(a, s.catalog, s.ledger, s.advisory, i, s.replicas[i]);
  }

  lemma {:induction false} StaysHarmlessFor(a: Assumptions, run: seq<State>, k: nat, m: nat, i: Id)
    requires IsRun(a, run) && k <= m < |run| && i in run[k].replicas
    requires run[k].replicas[i].phase.Planned? && run[k].ledger >= run[k].replicas[i].version
    ensures i in run[m].replicas && Harmless(run[m].ledger, run[m].replicas[i])
    decreases m
  {
    if k < m {
      StaysHarmlessFor(a, run, k, m - 1, i);
      RunKeeps(a, run, m - 1);
      assert StepAt(a, run, m - 1);
      StaysHarmless(a, run[m - 1], run[m], i);
    } else {
      RunKeeps(a, run, m);
      PlannedIsHarmless(a, run[m], i);
    }
  }

  // ------------------------------------------------------------------ no deadlock

  /** The table a sweep needs next, when it is still taking its locks. */
  predicate Taking(r: Replica)
  {
    r.phase.Locking? && r.tx.Active? && r.phase.next < |Targets(r.phase.plan.toDisable)|
  }

  function NextTable(r: Replica): string
    requires Taking(r)
  {
    Targets(r.phase.plan.toDisable)[r.phase.next]
  }

  predicate AboutToStamp(r: Replica)
  {
    r.phase.Altering? && r.tx.Active? && r.phase.todo == []
  }

  /** Replica i waits for a lock that j holds. */
  predicate WaitsFor(s: State, i: Id, j: Id)
  {
    i in s.replicas && j in s.replicas && i != j &&
    var r, q := s.replicas[i], s.replicas[j];
    (Taking(r) && NextTable(r) in LocksOf(q)) || (AboutToStamp(r) && HoldsLedgerRow(q))
  }

  /** Along a wait, the table needed next only grows: what j holds comes before what j needs. */
  lemma WaitsAscend(a: Assumptions, s: State, i: Id, j: Id)
    requires Inv(a, s) && WaitsFor(s, i, j)
    ensures Taking(s.replicas[j]) ==> Taking(s.replicas[i]) && Less(NextTable(s.replicas[i]), NextTable(s.replicas[j]))
    ensures AboutToStamp(s.replicas[i]) ==> !Taking(s.replicas[j]) && !AboutToStamp(s.replicas[j])
  {
    var q := s.replicas[j];
    assert ReplicaOk(a, s.catalog, s.ledger, s.advisory, j, q);
    if Taking(q) && Taking(s.replicas[i]) {
      var ts := Targets(q.phase.plan.toDisable);
      var k :| 0 <= k < q.phase.next && ts[k] == NextTable(s.replicas[i]);
    }
  }

  ghost predicate WaitPath(s: State, path: seq<Id>)
  {
    |path| > 1 && forall k :: 0 <= k < |path| - 1 ==> WaitsFor(s, path[k], path[k + 1])
  }

  lemma {:induction false} WaitPathAscends(a: Assumptions, s: State, path: seq<Id>)
    requires Inv(a, s) && WaitPath(s, path)
    ensures path[|path| - 1] in s.replicas && path[0] in s.replicas
    ensures var q := s.replicas[path[|path| - 1]]; Taking(q) ==>
      Taking(s.replicas[path[0]]) && Less(NextTable(s.replicas[path[0]]), NextTable(q))
    ensures AboutToStamp(s.replicas[path[|path| - 1]]) ==> Taking(s.replicas[path[0]])
    decreases |path|
  {
    var n := |path| - 1;
    assert WaitsFor(s, path[n - 1], path[n - 1 + 1]);
    WaitsAscend(a, s, path[n - 1], path[n]);
    if n > 1 {
      var init := path[..n];
      assert WaitPath(s, init) by {
        forall k | 0 <= k < |init| - 1 ensures WaitsFor(s, init[k], init[k + 1]) {
          assert WaitsFor(s, path[k], path[k + 1]);
        }
      }
      WaitPathAscends(a, s, init);
      var p, q, z := s.replicas[path[0]], s.replicas[path[n - 1]], s.replicas[path[n]];
      if Taking(z) { LessTransitive(NextTable(p), NextTable(q), NextTable(z)); }
    }
  }

  /** Taking the locks in one sorted order, the wait-for graph of any set of sweeps has no cycle,
      with or without the advisory lock. */
  lemma NoWaitCycle(a: Assumptions, run: seq<State>, k: nat, path: seq<Id>)
    requires IsRun(a, run) && k < |run| && WaitPath(run[k], path)
    ensures path[0] != path[|path| - 1]
  {
    var s := run[k];
    RunKeeps(a, run, k);
    WaitPathAscends(a, s, path);
    assert WaitsFor(s, path[0], path[0 + 1]);
    if path[0] == path[|path| - 1] {
      var p := s.replicas[path[0]];
      if Taking(p) { LessIrreflexive(NextTable(p)); }
    }
  }

  ghost predicate Blocked(s: State, i: Id)
  {
    exists j :: WaitsFor(s, i, j)
  }

  /** Among the blocked sweeps that are taking table locks, one needs the greatest table. */
  lemma {:induction false} GreatestTaker(s: State, ids: set<Id>) returns (i: Id)
    requires ids != {} && forall j :: j in ids ==> j in s.replicas && Taking(s.replicas[j])
    ensures i in ids && forall j :: j in ids ==> !Less(NextTable(s.replicas[i]), NextTable(s.replicas[j]))
    decreases |ids|
  {
    var x :| x in ids;
    if ids == {x} {
      LessIrreflexive(NextTable(s.replicas[x]));
      i := x;
    } else {
      var rest := ids - {x};
      assert x !in rest && ids == rest + {x};
      assert |rest| < |ids|;
      var y := GreatestTaker(s, rest);
      var tx, ty := NextTable(s.replicas[x]), NextTable(s.replicas[y]);
      LessIrreflexive(tx);
      if Less(ty, tx) {
        forall j | j in ids ensures !Less(tx, NextTable(s.replicas[j])) {
          if j != x && Less(tx, NextTable(s.replicas[j])) {
            LessTransitive(ty, tx, NextTable(s.replicas[j]));
          }
        }
        i := x;
      } else {
        i := y;
      }
    }
  }

  lemma WaitersAreOpen(s: State, i: Id)
    requires Blocked(s, i)
    ensures i in s.replicas && s.replicas[i].tx.Active? && (Taking(s.replicas[i]) || AboutToStamp(s.replicas[i]))
  {
  }

  /** A sweep blocked on the greatest table any blocked sweep needs waits for a free one. */
  lemma GreatestTakerWaitsForFree(a: Assumptions, s: State, takers: set<Id>) returns (j: Id)
    requires Inv(a, s) && takers != {}
    requires forall i :: i in takers <==> i in s.replicas && Taking(s.replicas[i]) && Blocked(s, i)
    ensures j in s.replicas && s.replicas[j].tx.Active? && !Blocked(s, j)
  {
    var i := GreatestTaker(s, takers);
    var h :| WaitsFor(s, i, h);
    if !Blocked(s, h) {
      j := h;
    } else {
      WaitersAreOpen(s, h);
      if Taking(s.replicas[h]) {
        assert h in takers;
        WaitsAscend(a, s, i, h);
      } else {
        j :| WaitsFor(s, h, j);
        WaitsAscend(a, s, h, j);
      }
    }
  }

  /** Some open sweep can always proceed. */
  lemma SomeSweepCanProceed(a: Assumptions, run: seq<State>, k: nat)
    requires IsRun(a, run) && k < |run|
    requires exists i :: i in run[k].replicas && run[k].replicas[i].tx.Active?
    ensures exists i :: i in run[k].replicas && run[k].replicas[i].tx.Active? && !Blocked(run[k], i)
  {
    var s := run[k];
    RunKeeps(a, run, k);
    var takers := set i | i in s.replicas && Taking(s.replicas[i]) && Blocked(s, i);
    if takers != {} {
      var j := GreatestTakerWaitsForFree(a, s, takers);
    } else {
      var first :| first in s.replicas && s.replicas[first].tx.Active?;
      if Blocked(s, first) {
        WaitersAreOpen(s, first);
        assert Taking(s.replicas[first]) ==> first in takers;
        var j :| WaitsFor(s, first, j);
        WaitsAscend(a, s, first, j);
      }
    }
  }
}
