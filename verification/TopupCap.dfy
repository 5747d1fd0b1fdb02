/**
  The per-project top-up cap: appends and edits by any number of concurrent requests, each with a
  request clock and a transaction start that may lag behind real time, serialised by a
  project-keyed advisory lock that is held to the end of the transaction.
 */
module TopupCap {

  const MAX_LIVE_TOPUPS_PER_PROJECT: nat := 50
  const TOPUP_CAP_RECENT_DAYS: nat := 30
  const DAY: nat := 86400

  type Id = nat

  /** A top-up: when its range ends, and when the audit row it points at was recorded. */
  datatype Topup = Topup(upper: int, recorded: int)

  type Topups = map<Id, Topup>

  predicate IsLive(r: Topup, at: int) { r.upper > at }

  predicate IsRecent(r: Topup, at: int) { r.recorded > at - TOPUP_CAP_RECENT_DAYS * DAY }

  function Live(rows: Topups, at: int): set<Id>
  {
    set i | i in rows && IsLive(rows[i], at)
  }

  /** The rows the append's COUNT sees: live by the request clock, or recent by the transaction start. */
  function Counted(rows: Topups, at: int, start: int): set<Id>
  {
    set i | i in rows && (IsLive(rows[i], at) || IsRecent(rows[i], start))
  }

  /** The rows that are live or recently recorded at a real time. */
  function LiveOrRecent(rows: Topups, t: int): set<Id>
  {
    Counted(rows, t, t)
  }

  // ------------------------------------------------------------------ one append

  datatype AppendResult = Added(id: Id) | CapReached

  class Project {
    var rows: Topups

    constructor ()
      ensures rows == map[]
    {
      rows := map[];
    }

    /** The body of one append, the lock already held: what the protocol's count and commit make of it. */
    method AppendTopup(id: Id, upper: int, at: int, start: int) returns (r: AppendResult)
      requires id !in rows
      modifies this
      ensures var x := Tx(Append(id, upper), at, start, Holding);
        if Admits(old(rows), x) then r == Added(id) && rows == Written(old(rows), x) else r == CapReached && rows == old(rows)
    {
      var held := |Counted(rows, at, start)|;
      if held >= MAX_LIVE_TOPUPS_PER_PROJECT { return CapReached; }
      rows := rows[id := Topup(upper, start)];
      r := Added(id);
    }
  }

  // ------------------------------------------------------------------ the protocol

  datatype Write = Append(id: Id, upper: int) | Edit(id: Id, upper: int)

  datatype Phase = Open | Holding | Admitted | Ended

  /** A request: its write, its clock and its transaction start. */
  datatype Tx = Tx(write: Write, at: int, start: int, phase: Phase)

  datatype State = State(now: int, rows: Topups, lock: set<Id>, txs: map<Id, Tx>)

  datatype Event = Tick(now: int) | Begin(write: Write, at: int) | Lock | Count | Commit | Abort

  predicate HoldsLock(x: Tx) { x.phase.Holding? || x.phase.Admitted? }

  /** What the request finds when it counts: an append counts live or recent rows; an edit counts
      the other live rows, and only when it makes its own row live. */
  predicate Admits(rows: Topups, x: Tx)
  {
    match x.write
    case Append(id, _) => id !in rows && |Counted(rows, x.at, x.start)| < MAX_LIVE_TOPUPS_PER_PROJECT
    case Edit(id, upper) =>
      id in rows && (upper > x.at ==> |Live(rows, x.at) - {id}| < MAX_LIVE_TOPUPS_PER_PROJECT)
  }

  predicate Enabled(s: State, i: Id, e: Event)
  {
    match e
    case Tick(now) => s.now <= now
    case Begin(_, at) => i !in s.txs && at <= s.now
    case Lock => i in s.txs && s.txs[i].phase.Open? && s.lock == {}
    case Count => i in s.txs && s.txs[i].phase.Holding?
    case Commit => i in s.txs && s.txs[i].phase.Admitted? && (s.txs[i].write.Append? ==> s.txs[i].write.id !in s.rows)
    case Abort => i in s.txs && !s.txs[i].phase.Ended?
  }

  function Written(rows: Topups, x: Tx): Topups
  {
    rows[x.write.id := Topup(x.write.upper, x.start)]
  }

  function Apply(s: State, i: Id, e: Event): State
    requires Enabled(s, i, e)
  {
    match e
    case Tick(now) => s.(now := now)
    case Begin(write, at) => s.(txs := s.txs[i := Tx(write, at, s.now, Open)])
    case Lock => s.(lock := {i}, txs := s.txs[i := s.txs[i].(phase := Holding)])
    case Count =>
      if Admits(s.rows, s.txs[i]) then s.(txs := s.txs[i := s.txs[i].(phase := Admitted)])
      else s.(lock := s.lock - {i}, txs := s.txs[i := s.txs[i].(phase := Ended)])
    case Commit =>
      s.(rows := Written(s.rows, s.txs[i]), lock := s.lock - {i}, txs := s.txs[i := s.txs[i].(phase := Ended)])
    case Abort => s.(lock := s.lock - {i}, txs := s.txs[i := s.txs[i].(phase := Ended)])
  }

  ghost predicate Next(s: State, s': State)
  {
    exists i, e :: Enabled(s, i, e) && s' == Apply(s, i, e)
  }

  ghost predicate StepAt(run: seq<State>, k: nat)
  {
    && k + 1 < |run|
    && Next(run[k], run[k + 1])
  }

  /** A run from a project with no top-ups and no request in flight. */
  ghost predicate IsRun(run: seq<State>)
  {
    && |run| > 0 && run[0].rows == map[] && run[0].lock == {} && run[0].txs == map[]
    && forall k :: 0 <= k < |run| - 1 ==> StepAt(run, k)
  }

  // ------------------------------------------------------------------ invariants

  ghost predicate TxOk(s: State, i: Id)
  {
    i in s.txs &&
    var x := s.txs[i];
    && x.at <= s.now && x.start <= s.now
    && (HoldsLock(x) ==> s.lock == {i})
    && (x.phase.Admitted? ==> Admits(s.rows, x))
  }

  ghost predicate AppendsOnly(s: State)
  {
    forall i :: i in s.txs ==> s.txs[i].write.Append?
  }

  ghost predicate Inv(s: State)
  {
    && (forall i :: i in s.txs ==> TxOk(s, i))
    && |Live(s.rows, s.now)| <= MAX_LIVE_TOPUPS_PER_PROJECT
    && (AppendsOnly(s) ==> |LiveOrRecent(s.rows, s.now)| <= MAX_LIVE_TOPUPS_PER_PROJECT)
  }

  lemma SubsetSize(a: set<Id>, b: set<Id>)
    requires a <= b
    ensures |a| <= |b|
  {
    assert b == a + (b - a);
  }

  /** An edit is not counted against itself: a row that is live can be edited at a full cap, and one that
      is not can be made live exactly while there is room. */
  lemma EditIsNotItsOwnRival(rows: Topups, id: Id, upper: int, at: int, start: int)
    requires id in rows && upper > at
    ensures Admits(rows, Tx(Edit(id, upper), at, start, Holding)) <==>
      |Live(rows, at)| < MAX_LIVE_TOPUPS_PER_PROJECT + if IsLive(rows[id], at) then 1 else 0
  {
    if IsLive(rows[id], at) { assert Live(rows, at) == Live(rows, at) - {id} + {id}; }
    else { assert Live(rows, at) - {id} == Live(rows, at); }
  }

  lemma TickKeeps(s: State, i: Id, e: Event)
    requires Inv(s) && e.Tick? && Enabled(s, i, e)
    ensures Inv(Apply(s, i, e))
  {
    var s' := Apply(s, i, e);
    forall j | j in s'.txs ensures TxOk(s', j) { assert TxOk(s, j); }
    SubsetSize(Live(s.rows, s'.now), Live(s.rows, s.now));
    SubsetSize(LiveOrRecent(s.rows, s'.now), LiveOrRecent(s.rows, s.now));
  }

  lemma AppendKeepsCap(rows: Topups, x: Tx, now: int)
    requires x.write.Append? && Admits(rows, x) && x.at <= now && x.start <= now
    ensures |LiveOrRecent(Written(rows, x), now)| <= MAX_LIVE_TOPUPS_PER_PROJECT
    ensures |Live(Written(rows, x), now)| <= MAX_LIVE_TOPUPS_PER_PROJECT
  {
    SubsetSize(LiveOrRecent(Written(rows, x), now), Counted(rows, x.at, x.start) + {x.write.id});
    SubsetSize(Live(Written(rows, x), now), Counted(rows, x.at, x.start) + {x.write.id});
  }

  lemma EditKeepsLive(rows: Topups, x: Tx, now: int)
    requires x.write.Edit? && Admits(rows, x) && x.at <= now
    requires |Live(rows, now)| <= MAX_LIVE_TOPUPS_PER_PROJECT
    ensures |Live(Written(rows, x), now)| <= MAX_LIVE_TOPUPS_PER_PROJECT
  {
    var id := x.write.id;
    if x.write.upper > now {
      SubsetSize(Live(Written(rows, x), now), (Live(rows, x.at) - {id}) + {id});
    } else {
      SubsetSize(Live(Written(rows, x), now), Live(rows, now));
    }
  }

  lemma CommitKeeps(s: State, i: Id, e: Event)
    requires Inv(s) && e.Commit? && Enabled(s, i, e)
    ensures Inv(Apply(s, i, e))
  {
    var s' := Apply(s, i, e);
    var x := s.txs[i];
    assert TxOk(s, i);
    forall j | j in s'.txs ensures TxOk(s', j) {
      assert TxOk(s, j);
      assert HoldsLock(s.txs[j]) ==> i in {j};
    }
    if x.write.Append? {
      AppendKeepsCap(s.rows, x, s.now);
    } else {
      EditKeepsLive(s.rows, x, s.now);
      assert s'.txs[i].write.Edit?;
    }
  }

  lemma QuietKeeps(s: State, i: Id, e: Event)
    requires Inv(s) && !e.Tick? && !e.Commit? && Enabled(s, i, e)
    ensures Inv(Apply(s, i, e))
  {
    var s' := Apply(s, i, e);
    forall j | j in s'.txs ensures TxOk(s', j) {
      if j != i {
        assert TxOk(s, j);
        assert HoldsLock(s.txs[j]) ==> s.lock == {j};
      } else if !e.Begin? {
        assert TxOk(s, i);
      }
    }
    assert AppendsOnly(s') ==> AppendsOnly(s) by {
      if AppendsOnly(s') {
        forall j | j in s.txs ensures s.txs[j].write.Append? { assert s'.txs[j].write.Append?; }
      }
    }
  }

  lemma {:induction false} RunKeeps(run: seq<State>, k: nat)
    requires IsRun(run) && k < |run|
    ensures Inv(run[k])
  {
    if k == 0 {
      assert Live(run[0].rows, run[0].now) == {} == LiveOrRecent(run[0].rows, run[0].now);
    } else {
      RunKeeps(run, k - 1);
      assert StepAt(run, k - 1);
      var i, e :| Enabled(run[k - 1], i, e) && run[k] == Apply(run[k - 1], i, e);
      if e.Tick? { TickKeeps(run[k - 1], i, e); }
      else if e.Commit? { CommitKeeps(run[k - 1], i, e); }
      else { QuietKeeps(run[k - 1], i, e); }
    }
  }

  ghost predicate HeldByHolders(s: State)
  {
    forall i :: i in s.lock ==> i in s.txs && HoldsLock(s.txs[i])
  }

  lemma StepReleases(s: State, i: Id, e: Event)
    requires Inv(s) && HeldByHolders(s) && Enabled(s, i, e)
    ensures HeldByHolders(Apply(s, i, e))
  {
    if i in s.txs { assert TxOk(s, i); }
  }

  /** The lock is held exactly by the request that has taken it and has not ended: a request that is refused,
      aborted or committed leaves it free for the next. */
  lemma {:induction false} LockIsHeldExactly(run: seq<State>, k: nat)
    requires IsRun(run) && k < |run|
    ensures forall i :: i in run[k].lock <==> i in run[k].txs && HoldsLock(run[k].txs[i])
  {
    RunKeeps(run, k);
    assert forall i :: i in run[k].txs ==> TxOk(run[k], i);
    if k > 0 {
      LockIsHeldExactly(run, k - 1);
      RunKeeps(run, k - 1);
      assert StepAt(run, k - 1);
      var i, e :| Enabled(run[k - 1], i, e) && run[k] == Apply(run[k - 1], i, e);
      StepReleases(run[k - 1], i, e);
    }
  }

  // ------------------------------------------------------------------ main results

  /** At every real time of every interleaving of appends, the top-ups that are live or recently
      recorded never exceed the cap. */
  lemma CapHoldsForAppends(run: seq<State>, k: nat)
    requires IsRun(run) && k < |run| && AppendsOnly(run[k])
    ensures |LiveOrRecent(run[k].rows, run[k].now)| <= MAX_LIVE_TOPUPS_PER_PROJECT
  {
    RunKeeps(run, k);
  }

  /** With edits of the range in the mix, the live top-ups alone never exceed the cap. */
  lemma LiveCapHoldsWithEdits(run: seq<State>, k: nat)
    requires IsRun(run) && k < |run|
    ensures |Live(run[k].rows, run[k].now)| <= MAX_LIVE_TOPUPS_PER_PROJECT
  {
    RunKeeps(run, k);
  }

  /** What an edit can be asked before it commits: its row counts already, or its range has ended and its
      transaction began too long ago to make it recent, or there is room. */
  predicate EditFits(rows: Topups, now: int, x: Tx)
  {
    || x.write.id in LiveOrRecent(rows, now)
    || (x.write.upper <= now && x.start <= now - TOPUP_CAP_RECENT_DAYS * DAY)
    || |LiveOrRecent(rows, now)| < MAX_LIVE_TOPUPS_PER_PROJECT
  }

  ghost predicate WithinCap(s: State)
  {
    |LiveOrRecent(s.rows, s.now)| <= MAX_LIVE_TOPUPS_PER_PROJECT
  }

  /** Live-or-recent is not an edit's to keep: an edit points its row at a new audit row, so it
      makes an old row recent without counting. From a state within the cap, it leaves it within the
      cap exactly when it fitted. */
  lemma EditKeepsCapIff(s: State, i: Id)
    requires Enabled(s, i, Commit) && s.txs[i].write.Edit? && WithinCap(s)
    ensures WithinCap(Apply(s, i, Commit)) <==> EditFits(s.rows, s.now, s.txs[i])
  {
    var id := s.txs[i].write.id;
    var before, after := LiveOrRecent(s.rows, s.now), LiveOrRecent(Apply(s, i, Commit).rows, s.now);
    if id in after && id !in before {
      assert after == before + {id};
    } else {
      SubsetSize(after, before);
    }
  }

  /** The k-th step of a run is the commit of this edit. */
  ghost predicate CommitsEdit(run: seq<State>, k: nat, i: Id)
  {
    && k + 1 < |run|
    && i in run[k].txs && run[k].txs[i].write.Edit? && Enabled(run[k], i, Commit) && run[k + 1] == Apply(run[k], i, Commit)
  }

  ghost predicate EditsFit(run: seq<State>)
  {
    forall k, i :: 0 <= k < |run| - 1 && CommitsEdit(run, k, i) ==> EditFits(run[k].rows, run[k].now, run[k].txs[i])
  }

  lemma {:induction false} FittingEditsKeepCap(run: seq<State>, k: nat)
    requires IsRun(run) && k < |run| && EditsFit(run)
    ensures WithinCap(run[k])
  {
    RunKeeps(run, k);
    if k > 0 {
      var s := run[k - 1];
      FittingEditsKeepCap(run, k - 1);
      RunKeeps(run, k - 1);
      assert StepAt(run, k - 1);
      var i, e :| Enabled(s, i, e) && run[k] == Apply(s, i, e);
      if e.Tick? {
        SubsetSize(LiveOrRecent(s.rows, run[k].now), LiveOrRecent(s.rows, s.now));
      } else if e.Commit? && s.txs[i].write.Edit? {
        EditKeepsCapIff(s, i);
        assert CommitsEdit(run, k - 1, i);
      } else if e.Commit? {
        assert TxOk(s, i);
        AppendKeepsCap(s.rows, s.txs[i], s.now);
      }
    }
  }

  /** In every run, the live-or-recent cap holds at every point exactly when every edit fitted as it was
      committed. */
  lemma CapHoldsIffEditsFit(run: seq<State>)
    requires IsRun(run)
    ensures (forall k :: 0 <= k < |run| ==> WithinCap(run[k])) <==> EditsFit(run)
  {
    if EditsFit(run) {
      forall k | 0 <= k < |run| ensures WithinCap(run[k]) { FittingEditsKeepCap(run, k); }
    } else {
      var k, i :| 0 <= k < |run| - 1 && CommitsEdit(run, k, i) && !EditFits(run[k].rows, run[k].now, run[k].txs[i]);
      if WithinCap(run[k]) { EditKeepsCapIff(run[k], i); }
    }
  }

  // ------------------------------------------------------------------ a run that breaks it

  ghost predicate Reached(s: State)
  {
    exists run :: IsRun(run) && run[|run| - 1] == s
  }

  lemma Go(s: State, i: Id, e: Event)
    requires Reached(s) && Enabled(s, i, e)
    ensures Reached(Apply(s, i, e))
  {
    var run :| IsRun(run) && run[|run| - 1] == s;
    var longer := run + [Apply(s, i, e)];
    forall k | 0 <= k < |longer| - 1 ensures StepAt(longer, k) {
      if k < |run| - 1 { assert StepAt(run, k); }
    }
    assert IsRun(longer);
  }

  /** An undisturbed request whose write is admitted commits it. */
  lemma Performs(s: State, i: Id, w: Write) returns (s': State)
    requires Reached(s) && s.lock == {} && i !in s.txs && Admits(s.rows, Tx(w, s.now, s.now, Holding))
    ensures Reached(s')
    ensures s' == s.(rows := s.rows[w.id := Topup(w.upper, s.now)], txs := s.txs[i := Tx(w, s.now, s.now, Ended)])
  {
    var x := Tx(w, s.now, s.now, Open);
    Go(s, i, Begin(w, s.now));
    var s1 := s.(txs := s.txs[i := x]);
    s' := LocksCountsAndCommits(s1, i);
  }

  lemma LocksCountsAndCommits(s: State, i: Id) returns (s': State)
    requires Reached(s) && s.lock == {} && i in s.txs && s.txs[i].phase.Open? && Admits(s.rows, s.txs[i])
    ensures Reached(s')
    ensures s' == s.(rows := Written(s.rows, s.txs[i]), txs := s.txs[i := s.txs[i].(phase := Ended)])
  {
    var x := s.txs[i];
    Go(s, i, Lock);
    var s1 := s.(lock := {i}, txs := s.txs[i := x.(phase := Holding)]);
    Go(s1, i, Count);
    var s2 := s1.(txs := s1.txs[i := x.(phase := Admitted)]);
    Go(s2, i, Commit);
    s' := Apply(s2, i, Commit);
  }

  /** Requests 1 to n each append one top-up that outlives today. */
  lemma {:induction false} FillsUp(s: State, n: nat) returns (s': State)
    requires Reached(s) && s.lock == {} && LiveOrRecent(s.rows, s.now) == {} && n <= MAX_LIVE_TOPUPS_PER_PROJECT
    requires forall j :: j in s.txs || j in s.rows ==> j == 0
    ensures Reached(s') && s'.lock == {} && s'.now == s.now && |LiveOrRecent(s'.rows, s.now)| == n
    ensures forall j :: j in s'.txs || j in s'.rows ==> j <= n
    ensures 0 in s.rows ==> 0 in s'.rows && s'.rows[0] == s.rows[0]
  {
    if n == 0 {
      s' := s;
    } else {
      var s1 := FillsUp(s, n - 1);
      s' := Performs(s1, n, Append(n, s.now + DAY));
      assert LiveOrRecent(s'.rows, s.now) == LiveOrRecent(s1.rows, s.now) + {n};
    }
  }

  /** The concrete failure: an expired top-up from a month ago, a full project since, and one edit of
      the expired row leave one more live-or-recent top-up than the cap. */
  lemma EditCanBreakTheCap() returns (s: State)
    ensures Reached(s) && |LiveOrRecent(s.rows, s.now)| == MAX_LIVE_TOPUPS_PER_PROJECT + 1
  {
    s := State(0, map[], {}, map[]);
    assert IsRun([s]);
    assert Counted(s.rows, s.now, s.now) == {};
    s := Performs(s, 0, Append(0, 0));
    var later := (TOPUP_CAP_RECENT_DAYS + 1) * DAY;
    Go(s, 0, Tick(later));
    s := Apply(s, 0, Tick(later));
    assert LiveOrRecent(s.rows, s.now) == {};
    s := FillsUp(s, MAX_LIVE_TOPUPS_PER_PROJECT);
    var full := LiveOrRecent(s.rows, s.now);
    assert 0 !in full;
    s := Performs(s, MAX_LIVE_TOPUPS_PER_PROJECT + 1, Edit(0, 0));
    assert LiveOrRecent(s.rows, s.now) == full + {0};
  }
}
