/**
  The migration runner: any number of replicas, each with its own image's files, applying numbered
  SQL files to one database, with lock timeouts, failed statements, dropped connections and crashes
  at any step. One file is one transaction: its body and its record commit together or not at all.
 */
module Migrate {
  import opened Wrappers
  import opened Order

  const MIGRATION_LOCK_ATTEMPTS: nat := 6

  type Id = nat

  /** A recorded migration: its name and the body that was run under that name. */
  datatype Entry<B> = Entry(name: string, body: B)

  function Names<B>(log: seq<Entry<B>>): set<string>
  {
    set k | 0 <= k < |log| :: log[k].name
  }

  ghost predicate NoRepeats<B>(log: seq<Entry<B>>)
  {
    forall j, k :: 0 <= j < k < |log| ==> log[j].name != log[k].name
  }

  /** The schema that running the recorded bodies in recorded order makes. */
  function Replay<S, B>(run: (S, B) -> S, empty: S, log: seq<Entry<B>>): S
  {
    if log == [] then empty
    else run(Replay(run, empty, log[..|log| - 1]), log[|log| - 1].body)
  }

  // ------------------------------------------------------------------ the protocol

  datatype Phase =
    | Waiting                                                   // for the advisory lock
    | Holding                                                   // the lock, nothing read
    | Applying(todo: seq<string>, applied: set<string>, attempt: nat)
    | Succeeded
    | Failed                                                    // exit 1, or crashed

  /** `own` is history: the names this run recorded, in order. `kept` says its lock was never lost. */
  datatype Replica<B> = Replica(files: map<string, B>, names: seq<string>, phase: Phase, own: seq<string>, kept: bool)

  datatype State<S, B> = State(schema: S, log: seq<Entry<B>>, lock: set<Id>, replicas: map<Id, Replica<B>>)

  datatype Event<B> =
    | Boot(files: map<string, B>, names: seq<string>)
    | TakeLock | LoseLock | ReadApplied | Skip
    | Commit | CommitUnheard | TxFails(lockTimeout: bool)
    | Finish | Crash

  predicate Running(p: Phase) { p.Holding? || p.Applying? }

  predicate Trying<B>(r: Replica<B>)
  {
    r.phase.Applying? && r.phase.todo != [] && r.phase.todo[0] !in r.phase.applied && r.phase.todo[0] in r.files
  }

  /** A body can commit only under a name nobody has recorded: the name is the primary key. */
  ghost predicate Enabled<S, B>(s: State<S, B>, i: Id, e: Event<B>)
  {
    if e.Boot? then i !in s.replicas && Ascending(e.names) && (forall f :: f in e.names <==> f in e.files)
    else i in s.replicas && EnabledFor(s.log, s.lock, i, s.replicas[i], e)
  }

  predicate EnabledFor<B>(log: seq<Entry<B>>, lock: set<Id>, i: Id, r: Replica<B>, e: Event<B>)
  {
    match e
    case Boot(_, _) => false
    case TakeLock => r.phase.Waiting? && lock == {}
    case LoseLock => i in lock
    case ReadApplied => r.phase.Holding?
    case Skip => r.phase.Applying? && r.phase.todo != [] && r.phase.todo[0] in r.phase.applied
    case Commit => Trying(r) && r.phase.todo[0] !in Names(log)
    case CommitUnheard => Trying(r) && r.phase.todo[0] !in Names(log)
    case TxFails(_) => Trying(r)
    case Finish => r.phase.Applying? && r.phase.todo == []
    case Crash => true
  }

  function Move<B>(log: seq<Entry<B>>, r: Replica<B>, e: Event<B>): Replica<B>
  {
    match e
    case TakeLock => r.(phase := Holding)
    case LoseLock => r.(kept := r.kept && !Running(r.phase))
    case ReadApplied => r.(phase := Applying(r.names, Names(log), 1))
    case Skip =>
      if r.phase.Applying? && r.phase.todo != [] then r.(phase := Applying(r.phase.todo[1..], r.phase.applied, 1)) else r
    case Commit =>
      if Trying(r) then r.(phase := Applying(r.phase.todo[1..], r.phase.applied, 1), own := r.own + [r.phase.todo[0]]) else r
    case CommitUnheard => if Trying(r) then r.(phase := Failed, own := r.own + [r.phase.todo[0]]) else r
    case TxFails(lockTimeout) =>
      if lockTimeout && r.phase.Applying? && r.phase.attempt < MIGRATION_LOCK_ATTEMPTS
      then r.(phase := r.phase.(attempt := r.phase.attempt + 1))
      else r.(phase := Failed)
    case Finish => r.(phase := Succeeded)
    case Crash => if r.phase.Succeeded? then r else r.(phase := Failed)
    case Boot(_, _) => r
  }

  predicate Records<B>(r: Replica<B>, e: Event<B>)
  {
    (e.Commit? || e.CommitUnheard?) && Trying(r)
  }

  function EntryOf<B>(r: Replica<B>): Entry<B>
    requires Trying(r)
  {
    Entry(r.phase.todo[0], r.files[r.phase.todo[0]])
  }

  function LogAfter<B>(log: seq<Entry<B>>, r: Replica<B>, e: Event<B>): seq<Entry<B>>
  {
    if Records(r, e) then log + [EntryOf(r)] else log
  }

  function LockAfter<B>(lock: set<Id>, i: Id, e: Event<B>): set<Id>
  {
    if e.TakeLock? then {i} else if e.LoseLock? then lock - {i} else lock
  }

  function Apply<S, B>(run: (S, B) -> S, s: State<S, B>, i: Id, e: Event<B>): State<S, B>
    requires e.Boot? || i in s.replicas
  {
    if e.Boot? then s.(replicas := s.replicas[i := Replica(e.files, e.names, Waiting, [], true)])
    else
      var r := s.replicas[i];
      State(if Records(r, e) then run(s.schema, EntryOf(r).body) else s.schema,
            LogAfter(s.log, r, e), LockAfter(s.lock, i, e), s.replicas[i := Move(s.log, r, e)])
  }

  ghost predicate Next<S(!new), B(!new)>(run: (S, B) -> S, s: State<S, B>, s': State<S, B>)
  {
    exists i: Id, e: Event<B> :: Enabled(s, i, e) && s' == Apply(run, s, i, e)
  }

  ghost predicate StepAt<S(!new), B(!new)>(run: (S, B) -> S, trace: seq<State<S, B>>, k: nat)
  {
    && k + 1 < |trace|
    && Next(run, trace[k], trace[k + 1])
  }

  ghost predicate IsTrace<S(!new), B(!new)>(run: (S, B) -> S, empty: S, trace: seq<State<S, B>>)
  {
    && |trace| > 0 && trace[0] == State(empty, [], {}, map[])
    && forall k :: 0 <= k < |trace| - 1 ==> StepAt(run, trace, k)
  }

  // ------------------------------------------------------------------ the invariant

  /** A run has settled every name it has passed, and passed them in order. */
  ghost predicate ReplicaOk<B>(log: seq<Entry<B>>, r: Replica<B>)
  {
    && Ascending(r.names) && (forall f :: f in r.names <==> f in r.files)
    && Ascending(r.own) && (forall f :: f in r.own ==> f in Names(log) && f in r.files)
    && (!r.phase.Applying? && !r.phase.Succeeded? && !r.phase.Failed? ==> r.own == [])
    && (r.phase.Applying? ==>
          && |r.phase.todo| <= |r.names| && r.phase.todo == r.names[|r.names| - |r.phase.todo|..]
          && (forall k :: 0 <= k < |r.names| - |r.phase.todo| ==> r.names[k] in Names(log))
          && (forall f, g :: f in r.own && g in r.phase.todo ==> Less(f, g))
          && r.phase.applied <= Names(log)
          && 1 <= r.phase.attempt <= MIGRATION_LOCK_ATTEMPTS)
    && (r.phase.Succeeded? ==> forall f :: f in r.files ==> f in Names(log))
  }

  /** While a run has kept its lock, nobody else has recorded anything since it read. */
  ghost predicate LockOk<B>(log: seq<Entry<B>>, lock: set<Id>, i: Id, r: Replica<B>)
  {
    r.kept && Running(r.phase) ==>
      && lock == {i}
      && (r.phase.Applying? ==> Names(log) == r.phase.applied + (set f | f in r.own))
  }

  /** Every replica has kept its lock for as long as it runs. */
  ghost predicate AllKept<S, B>(s: State<S, B>)
  {
    forall i :: i in s.replicas ==> s.replicas[i].kept
  }

  ghost predicate Inv<S, B>(run: (S, B) -> S, empty: S, s: State<S, B>)
  {
    && s.schema == Replay(run, empty, s.log) && NoRepeats(s.log)
    && (forall i :: i in s.replicas ==> ReplicaOk(s.log, s.replicas[i]))
    && (AllKept(s) ==> forall i :: i in s.replicas ==> LockOk(s.log, s.lock, i, s.replicas[i]))
  }

  lemma NamesGrow<B>(log: seq<Entry<B>>, e: Entry<B>)
    ensures Names(log + [e]) == Names(log) + {e.name}
  {
    forall f | f in Names(log) + {e.name} ensures f in Names(log + [e]) {
      if f == e.name { assert (log + [e])[|log|].name == f; }
      else { var k :| 0 <= k < |log| && log[k].name == f; assert (log + [e])[k].name == f; }
    }
  }

  /** Recording one more migration leaves what other runs have settled standing. */
  lemma GrownLogOk<B>(log: seq<Entry<B>>, e: Entry<B>, r: Replica<B>)
    requires ReplicaOk(log, r)
    ensures ReplicaOk(log + [e], r)
  {
    NamesGrow(log, e);
  }

  lemma AscendingMore(s: seq<string>, x: string)
    requires Ascending(s) && forall f :: f in s ==> Less(f, x)
    ensures Ascending(s + [x])
  {
    var t := s + [x];
    forall i, j | 0 <= i < j < |t| ensures Less(t[i], t[j]) {
      if j == |s| { assert s[i] in s; }
    }
  }

  /** Passing the first pending name, once it is recorded, whether by this run or before. */
  lemma PassedOk<B>(log: seq<Entry<B>>, r: Replica<B>, mine: bool)
    requires ReplicaOk(log, r) && r.phase.Applying? && r.phase.todo != [] && r.phase.todo[0] in Names(log)
    ensures ReplicaOk(log, r.(phase := Applying(r.phase.todo[1..], r.phase.applied, 1),
                              own := if mine then r.own + [r.phase.todo[0]] else r.own))
  {
    var n := |r.names| - |r.phase.todo|;
    var next := r.phase.todo[0];
    assert next == r.names[n] && next in r.names;
    assert r.phase.todo[1..] == r.names[n + 1..];
    if mine {
      AscendingMore(r.own, next);
      forall f, g | f in r.own + [next] && g in r.phase.todo[1..] ensures Less(f, g) {
        var k :| 0 <= k < |r.phase.todo[1..]| && r.phase.todo[1..][k] == g;
        assert g == r.names[n + 1 + k];
        assert g in r.phase.todo;
      }
    }
  }

  /** A run whose commit landed has passed its file, whether it heard of it or stops there. */
  lemma CommittedOk<B>(log: seq<Entry<B>>, log': seq<Entry<B>>, r: Replica<B>, e: Event<B>)
    requires Records(r, e) && ReplicaOk(log', r) && r.phase.todo[0] in Names(log')
    ensures ReplicaOk(log', Move(log, r, e))
  {
    var passed := r.(phase := Applying(r.phase.todo[1..], r.phase.applied, 1), own := r.own + [r.phase.todo[0]]);
    assert ReplicaOk(log', passed) by { PassedOk(log', r, true); }
    assert Move(log, r, e) in {passed, passed.(phase := Failed)};
  }

  lemma MovedOk<B>(log: seq<Entry<B>>, lock: set<Id>, i: Id, r: Replica<B>, e: Event<B>)
    requires EnabledFor(log, lock, i, r, e) && ReplicaOk(log, r)
    ensures ReplicaOk(LogAfter(log, r, e), Move(log, r, e))
  {
    if Records(r, e) {
      NamesGrow(log, EntryOf(r));
      GrownLogOk(log, EntryOf(r), r);
      CommittedOk(log, log + [EntryOf(r)], r, e);
    } else if e.Skip? {
      PassedOk(log, r, false);
    } else if e.ReadApplied? {
      assert r.names[0..] == r.names;
    }
  }

  lemma MovedLockOk<B>(log: seq<Entry<B>>, lock: set<Id>, i: Id, r: Replica<B>, e: Event<B>)
    requires EnabledFor(log, lock, i, r, e) && LockOk(log, lock, i, r)
    requires e.ReadApplied? ==> r.own == []
    ensures LockOk(LogAfter(log, r, e), LockAfter(lock, i, e), i, Move(log, r, e))
  {
    if Records(r, e) {
      NamesGrow(log, EntryOf(r));
      assert (set f | f in r.own + [r.phase.todo[0]]) == (set f | f in r.own) + {r.phase.todo[0]};
    }
  }

  /** The replicas' share of the invariant. */
  lemma ReplicasKeep<S, B>(run: (S, B) -> S, empty: S, s: State<S, B>, i: Id, e: Event<B>)
    requires Inv(run, empty, s) && Enabled(s, i, e)
    ensures var s' := Apply(run, s, i, e); forall j :: j in s'.replicas ==> ReplicaOk(s'.log, s'.replicas[j])
  {
    var s' := Apply(run, s, i, e);
    if !e.Boot? {
      var r := s.replicas[i];
      MovedOk(s.log, s.lock, i, r, e);
      if Records(r, e) {
        forall j | j in s.replicas && j != i ensures ReplicaOk(s'.log, s'.replicas[j]) {
          GrownLogOk(s.log, EntryOf(r), s.replicas[j]);
        }
      }
    }
  }

  lemma EventKeeps<S, B>(run: (S, B) -> S, empty: S, s: State<S, B>, i: Id, e: Event<B>)
    requires Inv(run, empty, s) && Enabled(s, i, e)
    ensures Inv(run, empty, Apply(run, s, i, e))
  {
    ReplicasKeep(run, empty, s, i, e);
    if AllKept(Apply(run, s, i, e)) { KeptLocksOk(run, empty, s, i, e); }
  }

  lemma KeptLocksOk<S, B>(run: (S, B) -> S, empty: S, s: State<S, B>, i: Id, e: Event<B>)
    requires Inv(run, empty, s) && Enabled(s, i, e) && AllKept(Apply(run, s, i, e))
    ensures var s' := Apply(run, s, i, e); forall j :: j in s'.replicas ==> LockOk(s'.log, s'.lock, j, s'.replicas[j])
  {
    var s' := Apply(run, s, i, e);
    assert AllKept(s) by {
      forall j | j in s.replicas ensures s.replicas[j].kept {
        assert s'.replicas[j].kept;
      }
    }
    forall j | j in s'.replicas ensures LockOk(s'.log, s'.lock, j, s'.replicas[j]) {
      if j == i && !e.Boot? {
        assert ReplicaOk(s.log, s.replicas[i]);
        MovedLockOk(s.log, s.lock, i, s.replicas[i], e);
      } else if j != i {
        assert LockOk(s.log, s.lock, j, s.replicas[j]);
        assert Running(s.replicas[j].phase) ==> s.lock == {j};
      }
    }
  }

  lemma {:induction false} TraceKeeps<S(!new), B(!new)>(run: (S, B) -> S, empty: S, trace: seq<State<S, B>>, k: nat)
    requires IsTrace(run, empty, trace) && k < |trace|
    ensures Inv(run, empty, trace[k])
  {
    if k > 0 {
      TraceKeeps(run, empty, trace, k - 1);
      assert StepAt(run, trace, k - 1);
      var i: Id, e: Event<B> :| Enabled(trace[k - 1], i, e) && trace[k] == Apply(run, trace[k - 1], i, e);
      EventKeeps(run, empty, trace[k - 1], i, e);
    }
  }

  // ------------------------------------------------------------------ main results

  /** At every point of every interleaving, crashes and lost locks included: the schema is what
      replaying the record makes, no name is recorded twice, each run's own migrations are in lexical
      order, and a run that succeeded has every file of its image recorded. */
  lemma MigrationsAreExact<S(!new), B(!new)>(run: (S, B) -> S, empty: S, trace: seq<State<S, B>>, k: nat, i: Id)
    requires IsTrace(run, empty, trace) && k < |trace|
    ensures trace[k].schema == Replay(run, empty, trace[k].log) && NoRepeats(trace[k].log)
    ensures i in trace[k].replicas ==> Ascending(trace[k].replicas[i].own)
    ensures i in trace[k].replicas && trace[k].replicas[i].phase.Succeeded? ==>
      forall f :: f in trace[k].replicas[i].files ==> f in Names(trace[k].log)
  {
    TraceKeeps(run, empty, trace, k);
    if i in trace[k].replicas { assert ReplicaOk(trace[k].log, trace[k].replicas[i]); }
  }

  /** The record only grows. */
  lemma {:induction false} RecordOnlyGrows<S(!new), B(!new)>(run: (S, B) -> S, empty: S, trace: seq<State<S, B>>, k: nat, m: nat)
    requires IsTrace(run, empty, trace) && k <= m < |trace|
    ensures trace[k].log <= trace[m].log
    decreases m
  {
    if k < m {
      RecordOnlyGrows(run, empty, trace, k, m - 1);
      assert StepAt(run, trace, m - 1);
      var i: Id, e: Event<B> :| Enabled(trace[m - 1], i, e) && trace[m] == Apply(run, trace[m - 1], i, e);
    }
  }

  /** What the lock is for: while every run keeps it, no run ever tries a name that is recorded
      already, so none fails on the primary key. */
  lemma KeptLockMeansNoClash<S(!new), B(!new)>(run: (S, B) -> S, empty: S, trace: seq<State<S, B>>, k: nat, i: Id)
    requires IsTrace(run, empty, trace) && k < |trace| && AllKept(trace[k])
    requires i in trace[k].replicas && Trying(trace[k].replicas[i])
    ensures trace[k].replicas[i].phase.todo[0] !in Names(trace[k].log)
  {
    TraceKeeps(run, empty, trace, k);
    var r := trace[k].replicas[i];
    assert LockOk(trace[k].log, trace[k].lock, i, r);
    assert ReplicaOk(trace[k].log, r);
    var next := r.phase.todo[0];
    if next in r.own {
      LessIrreflexive(next);
    }
  }

  /** What makes a run fail: a crash, a commit it did not hear of, a statement that failed, or a lock timeout
      on the last of six attempts. A recorded file, a lock that is lost and another run's work are not among them. */
  lemma FailsOnlyWhen<S(!new), B(!new)>(run: (S, B) -> S, s: State<S, B>, j: Id, e: Event<B>, i: Id)
    requires Enabled(s, j, e) && i in s.replicas && !s.replicas[i].phase.Failed?
    ensures i in Apply(run, s, j, e).replicas
    ensures Apply(run, s, j, e).replicas[i].phase.Failed? ==>
      i == j && FailsOn(s.replicas[i], e)
  {
  }

  predicate FailsOn<B>(r: Replica<B>, e: Event<B>)
  {
    e.Crash? || e.CommitUnheard? || e == TxFails(false) ||
    (e == TxFails(true) && r.phase.Applying? && r.phase.attempt >= MIGRATION_LOCK_ATTEMPTS)
  }

  // ------------------------------------------------------------------ one run's loops

  datatype Attempt = Commits | LockTimeout | Fails

  class Database<S(==), B> {
    var schema: S
    var log: seq<Entry<B>>

    constructor (schema: S, log: seq<Entry<B>>)
      ensures this.schema == schema && this.log == log
    {
      this.schema := schema;
      this.log := log;
    }
  }

  function Entries<B>(files: map<string, B>, names: seq<string>): seq<Entry<B>>
    requires forall f :: f in names ==> f in files
  {
    seq(|names|, k requires 0 <= k < |names| => Entry(names[k], files[names[k]]))
  }

  /** The names a run finds unrecorded, in order. */
  function Unrecorded(names: seq<string>, recorded: set<string>): seq<string>
  {
    if names == [] then []
    else
      var n := |names| - 1;
      Unrecorded(names[..n], recorded) + if names[n] in recorded then [] else [names[n]]
  }

  lemma {:induction false} UnrecordedHas(names: seq<string>, recorded: set<string>)
    ensures forall f :: f in Unrecorded(names, recorded) <==> f in names && f !in recorded
  {
    if names != [] {
      var n := |names| - 1;
      assert names == names[..n] + [names[n]];
      UnrecordedHas(names[..n], recorded);
    }
  }

  lemma {:induction false} UnrecordedStart(names: seq<string>, recorded: set<string>, i: nat)
    requires i <= |names|
    ensures Unrecorded(names[..i], recorded) <= Unrecorded(names, recorded)
    decreases |names|
  {
    var n := |names| - 1;
    if i <= n {
      assert names[..n][..i] == names[..i];
      UnrecordedStart(names[..n], recorded, i);
    } else {
      assert names[..i] == names;
    }
  }

  lemma NextUnrecorded(names: seq<string>, recorded: set<string>, i: nat, n: nat)
    requires i < |names| && n == i + 1
    ensures Unrecorded(names[..n], recorded) == Unrecorded(names[..i], recorded) + if names[i] in recorded then [] else [names[i]]
    ensures Unrecorded(names[..n], recorded) <= Unrecorded(names, recorded)
  {
    assert names[..n][..i] == names[..i];
    UnrecordedStart(names, recorded, n);
  }

  /** The transaction a file's attempts end with when the n-th is its first, `left` more being allowed. */
  function LastTry(outcome: nat -> Attempt, n: nat, left: nat): nat
    decreases left
  {
    if outcome(n) == LockTimeout && left > 0 then LastTry(outcome, n + 1, left - 1) else n
  }

  const RETRIES: nat := MIGRATION_LOCK_ATTEMPTS - 1

  /** The first transaction of the j-th file to apply. */
  function FirstTry(outcome: nat -> Attempt, j: nat): nat
  {
    if j == 0 then 0 else LastTry(outcome, FirstTry(outcome, j - 1), RETRIES) + 1
  }

  /** The j-th file to apply comes to a commit within its attempts. */
  predicate ComesToCommit(outcome: nat -> Attempt, j: nat)
  {
    outcome(LastTry(outcome, FirstTry(outcome, j), RETRIES)) == Commits
  }

  /** A file's last attempt is its first that is not a lock timeout, or the sixth. */
  lemma {:induction false} LastTryMeaning(outcome: nat -> Attempt, n: nat, left: nat, m: nat)
    ensures m == LastTry(outcome, n, left) <==>
      n <= m <= n + left && (forall k :: n <= k < m ==> outcome(k) == LockTimeout) && (outcome(m) == LockTimeout ==> m == n + left)
    decreases left
  {
    if outcome(n) == LockTimeout && left > 0 { LastTryMeaning(outcome, n + 1, left - 1, m); }
  }

  /** A file comes to a commit exactly when one of its first six transactions commits after lock timeouts only. */
  lemma CommitsWithinSix(outcome: nat -> Attempt, j: nat)
    ensures var n := FirstTry(outcome, j);
      ComesToCommit(outcome, j) <==>
      exists m :: n <= m < n + MIGRATION_LOCK_ATTEMPTS && outcome(m) == Commits && forall k :: n <= k < m ==> outcome(k) == LockTimeout
  {
    var n := FirstTry(outcome, j);
    LastTryMeaning(outcome, n, RETRIES, LastTry(outcome, n, RETRIES));
    forall m | n <= m < n + MIGRATION_LOCK_ATTEMPTS && outcome(m) == Commits && forall k :: n <= k < m ==> outcome(k) == LockTimeout
      ensures m == LastTry(outcome, n, RETRIES)
    {
      LastTryMeaning(outcome, n, RETRIES, m);
    }
  }

  /** How far a run has come: it has passed the first i names, and recorded these of them itself. */
  ghost predicate Progress<B>(before: seq<Entry<B>>, files: map<string, B>, names: seq<string>, i: nat, own: seq<string>, log: seq<Entry<B>>)
  {
    && i <= |names|
    && (forall f :: f in own ==> f in files && exists k :: 0 <= k < i && names[k] == f)
    && Ascending(own)
    && log == before + Entries(files, own)
    && Names(log) == Names(before) + AsSet(own)
    && (forall k :: 0 <= k < i ==> names[k] in Names(log))
  }

  lemma NextIsNew(names: seq<string>, i: nat, own: seq<string>)
    requires i < |names| && Ascending(names) && Ascending(own)
    requires forall f :: f in own ==> exists k :: 0 <= k < i && names[k] == f
    ensures names[i] !in own && Ascending(own + [names[i]])
  {
    assert forall f :: f in own ==> Less(f, names[i]);
    LessIrreflexive(names[i]);
  }

  lemma ProgressMore<B>(before: seq<Entry<B>>, files: map<string, B>, names: seq<string>, i: nat, own: seq<string>, log: seq<Entry<B>>)
    requires i < |names| && Ascending(names) && names[i] in files && names[i] !in Names(before)
    requires Progress(before, files, names, i, own, log)
    ensures names[i] !in Names(log)
    ensures Progress(before, files, names, i + 1, own + [names[i]], log + [Entry(names[i], files[names[i]])])
  {
    var file := names[i];
    var own', log' := own + [file], log + [Entry(file, files[file])];
    NextIsNew(names, i, own);
    assert file !in AsSet(own);
    NamesGrow(log, Entry(file, files[file]));
    assert Entries(files, own') == Entries(files, own) + [Entry(file, files[file])];
    assert AsSet(own') == AsSet(own) + {file};
    assert Names(log') == Names(before) + AsSet(own');
    forall f | f in own' ensures f in files && exists k :: 0 <= k < i + 1 && names[k] == f {
      if f in own { var k :| 0 <= k < i && names[k] == f; }
    }
  }

  lemma ProgressPassed<B>(before: seq<Entry<B>>, files: map<string, B>, names: seq<string>, i: nat, own: seq<string>, log: seq<Entry<B>>)
    requires i < |names| && names[i] in Names(before) && Progress(before, files, names, i, own, log)
    ensures Progress(before, files, names, i + 1, own, log)
  {
  }

  /** What a run with these files to apply comes to. */
  ghost predicate Outcome(todo: seq<string>, outcome: nat -> Attempt, ok: bool, own: seq<string>)
  {
    && own <= todo && (forall j :: 0 <= j < |own| ==> ComesToCommit(outcome, j))
    && (ok <==> own == todo)
    && (!ok ==> !ComesToCommit(outcome, |own|))
  }

  /** A run succeeds exactly when each of its files comes to a commit, and otherwise stops at the first that does not. */
  lemma SucceedsIff(todo: seq<string>, outcome: nat -> Attempt, ok: bool, own: seq<string>)
    requires Outcome(todo, outcome, ok, own)
    ensures ok <==> forall j :: 0 <= j < |todo| ==> ComesToCommit(outcome, j)
    ensures !ok ==> |own| < |todo| && !ComesToCommit(outcome, |own|) && own == todo[..|own|]
  {
  }

  /** Past the first i names: what is applied is what was unrecorded among them, one commit each. */
  ghost predicate Walked(names: seq<string>, recorded: set<string>, outcome: nat -> Attempt, i: nat, own: seq<string>, n: nat)
  {
    && i <= |names| && own == Unrecorded(names[..i], recorded)
    && own <= Unrecorded(names, recorded)
    && n == FirstTry(outcome, |own|)
    && (forall j :: 0 <= j < |own| ==> ComesToCommit(outcome, j))
  }

  lemma WalkOn(names: seq<string>, recorded: set<string>, outcome: nat -> Attempt, i: nat, next: nat, own: seq<string>, n: nat)
    requires i < |names| && next == i + 1 && Walked(names, recorded, outcome, i, own, n)
    ensures names[i] in recorded ==> Walked(names, recorded, outcome, next, own, n)
    ensures var last := LastTry(outcome, n, RETRIES);
      names[i] !in recorded && outcome(last) == Commits ==> Walked(names, recorded, outcome, next, own + [names[i]], last + 1)
    ensures var last := LastTry(outcome, n, RETRIES);
      names[i] !in recorded && outcome(last) != Commits ==> Outcome(Unrecorded(names, recorded), outcome, false, own)
  {
    NextUnrecorded(names, recorded, i, next);
  }

  lemma WholeWalk(names: seq<string>, recorded: set<string>, outcome: nat -> Attempt, own: seq<string>, n: nat)
    requires Walked(names, recorded, outcome, |names|, own, n)
    ensures Outcome(Unrecorded(names, recorded), outcome, true, own)
  {
    assert names[..|names|] == names;
  }

  /** The runner's file and attempt loops, alone on the database: outcome(n) is what the n-th
      transaction comes to. A run records files of its image under their own bodies, in lexical order and
      each once: those it found unrecorded, up to the first that does not come to a commit within its
      attempts. It succeeds exactly when there is none, and then every file is recorded. */
  method Run<S, B>(db: Database<S, B>, run: (S, B) -> S, ghost empty: S, files: map<string, B>, names: seq<string>, outcome: nat -> Attempt)
    returns (ok: bool, own: seq<string>)
    requires Ascending(names) && forall f :: f in names <==> f in files
    requires db.schema == Replay(run, empty, db.log) && NoRepeats(db.log)
    modifies db
    ensures Ascending(own) && forall f :: f in own ==> f in files
    ensures db.log == old(db.log) + Entries(files, own)
    ensures db.schema == Replay(run, empty, db.log) && NoRepeats(db.log)
    ensures Outcome(Unrecorded(names, Names(old(db.log))), outcome, ok, own)
    ensures ok ==> forall f :: f in files ==> f in Names(db.log)
  {
    own := [];
    ghost var before := db.log;
    var applied := Names(db.log);
    var n := 0;
    for i := 0 to |names|
      invariant Progress(before, files, names, i, own, db.log)
      invariant db.schema == Replay(run, empty, db.log) && NoRepeats(db.log)
      invariant Walked(names, applied, outcome, i, own, n)
    {
      var file := names[i];
      WalkOn(names, applied, outcome, i, i + 1, own, n);
      if file !in applied {
        ProgressMore(before, files, names, i, own, db.log);
        var committed;
        committed, n := Attempts(outcome, n);
        if !committed { return false, own; }
        Record(db, run, empty, Entry(file, files[file]));
        own := own + [file];
      } else {
        ProgressPassed(before, files, names, i, own, db.log);
      }
    }
    WholeWalk(names, applied, outcome, own, n);
    forall f | f in files ensures f in Names(db.log) { assert f in names; }
    ok := true;
  }

  /** One file's transaction: its body and its record. */
  method Record<S, B>(db: Database<S, B>, run: (S, B) -> S, ghost empty: S, entry: Entry<B>)
    requires db.schema == Replay(run, empty, db.log) && NoRepeats(db.log) && entry.name !in Names(db.log)
    modifies db
    ensures db.log == old(db.log) + [entry] && Names(db.log) == Names(old(db.log)) + {entry.name}
    ensures db.schema == Replay(run, empty, db.log) && NoRepeats(db.log)
  {
    NamesGrow(db.log, entry);
    db.schema := run(db.schema, entry.body);
    db.log := db.log + [entry];
  }

  /** The attempt loop: a lock timeout is retried, at most six attempts in all. */
  method Attempts(outcome: nat -> Attempt, n: nat) returns (committed: bool, n': nat)
    ensures n < n' <= n + MIGRATION_LOCK_ATTEMPTS
    ensures committed <==> outcome(n' - 1) == Commits
    ensures forall k :: n <= k < n' - 1 ==> outcome(k) == LockTimeout
    ensures !committed ==> outcome(n' - 1) == Fails || n' == n + MIGRATION_LOCK_ATTEMPTS
    ensures n' == LastTry(outcome, n, RETRIES) + 1
  {
    var attempt := 1;
    n' := n;
    while true
      invariant 1 <= attempt <= MIGRATION_LOCK_ATTEMPTS && n' == n + attempt - 1
      invariant forall k :: n <= k < n' ==> outcome(k) == LockTimeout
      invariant LastTry(outcome, n, RETRIES) == LastTry(outcome, n', MIGRATION_LOCK_ATTEMPTS - attempt)
      decreases MIGRATION_LOCK_ATTEMPTS - attempt
    {
      var a := outcome(n');
      n' := n' + 1;
      if a.Commits? { return true, n'; }
      if !a.LockTimeout? || attempt >= MIGRATION_LOCK_ATTEMPTS { return false, n'; }
      attempt := attempt + 1;
    }
  }
}
