/**
  The organisation tree of the setup page: nodes pointing at their managers, possibly in cycles, the
  leaders picked for regions, and the rows offered under one region's leaders.
 */
module OrgTree {
  import opened Wrappers

  /** Ids are never the empty string. */
  type Key = k: string | k != "" witness "k"

  datatype OwnedUnit = OwnedUnit(orgUnitId: Key, name: string, regionId: Key)

  datatype Node = Node(oid: Key, parentOid: Option<Key>, email: Option<string>, users: nat, leaderOf: Option<Key>, owns: seq<OwnedUnit>)

  /** Unsaved leader picks: a region, or none for "not a leader". */
  type LeaderChoices = map<Key, Option<Key>>

  type Index = map<Key, Node>

  /** The last node of an id wins. */
  function IndexNodes(nodes: seq<Node>): Index
  {
    if nodes == [] then map[]
    else IndexNodes(nodes[..|nodes| - 1])[nodes[|nodes| - 1].oid := nodes[|nodes| - 1]]
  }

  ghost predicate DistinctOids(nodes: seq<Node>)
  {
    forall i, j :: 0 <= i < j < |nodes| ==> nodes[i].oid != nodes[j].oid
  }

  lemma {:induction false} IndexedUnderOwnId(nodes: seq<Node>, o: Key)
    requires o in IndexNodes(nodes)
    ensures IndexNodes(nodes)[o].oid == o && IndexNodes(nodes)[o] in nodes
  {
    var n := |nodes| - 1;
    if o != nodes[n].oid {
      IndexedUnderOwnId(nodes[..n], o);
    }
  }

  lemma {:induction false} Indexed(nodes: seq<Node>, n: Node)
    requires n in nodes
    ensures n.oid in IndexNodes(nodes)
    ensures DistinctOids(nodes) ==> IndexNodes(nodes)[n.oid] == n
  {
    var last := |nodes| - 1;
    if n != nodes[last] {
      Indexed(nodes[..last], n);
    }
  }

  function EffectiveLeaderRegion(n: Node, choices: LeaderChoices): Option<Key>
  {
    if n.oid in choices then choices[n.oid] else n.leaderOf
  }

  // ------------------------------------------------------------------ ancestors

  /** The managers met from `cur` upwards before a missing node or one already seen. */
  function ManagersFrom(byOid: Index, cur: Option<Key>, seen: set<Key>): seq<Node>
    decreases byOid.Keys - seen
  {
    if cur.None? || cur.value in seen || cur.value !in byOid then []
    else [byOid[cur.value]] + ManagersFrom(byOid, byOid[cur.value].parentOid, seen + {cur.value})
  }

  function ParentOf(byOid: Index, oid: Key): Option<Key>
  {
    if oid in byOid then byOid[oid].parentOid else None
  }

  function AncestorsOf(byOid: Index, oid: Key): seq<Node>
  {
    ManagersFrom(byOid, ParentOf(byOid, oid), {oid})
  }

  method Ancestors(byOid: Index, oid: Key) returns (out: seq<Node>)
    ensures out == AncestorsOf(byOid, oid)
  {
    out := [];
    var seen := {oid};
    var cur := ParentOf(byOid, oid);
    while cur.Some? && cur.value !in seen
      invariant AncestorsOf(byOid, oid) == out + ManagersFrom(byOid, cur, seen)
      decreases byOid.Keys - seen, cur.Some? && cur.value in byOid
    {
      if cur.value !in byOid { break; }
      seen := seen + {cur.value};
      out := out + [byOid[cur.value]];
      cur := byOid[cur.value].parentOid;
    }
  }

  /** The k-th manager up. */
  function Up(byOid: Index, oid: Key, k: nat): Option<Key>
    decreases k
  {
    if k == 0 then Some(oid)
    else
      var u := ParentOf(byOid, oid);
      if u.None? then None else Up(byOid, u.value, k - 1)
  }

  lemma {:induction false} ManagersMeaning(byOid: Index, start: Key, seen: set<Key>, k: nat)
    requires forall o :: o in byOid ==> byOid[o].oid == o
    requires k < |ManagersFrom(byOid, Some(start), seen)|
    ensures var ms := ManagersFrom(byOid, Some(start), seen);
      Up(byOid, start, k) == Some(ms[k].oid) && ms[k].oid !in seen && forall j :: 0 <= j < k ==> ms[j].oid != ms[k].oid
    decreases k
  {
    var ms := ManagersFrom(byOid, Some(start), seen);
    var rest := ManagersFrom(byOid, byOid[start].parentOid, seen + {start});
    assert ms == [byOid[start]] + rest;
    if k > 0 {
      var next := byOid[start].parentOid;
      ManagersMeaning(byOid, next.value, seen + {start}, k - 1);
      forall j | 0 <= j < k ensures ms[j].oid != ms[k].oid {
        if j > 0 { assert ms[j] == rest[j - 1]; }
      }
    }
  }

  /** Where the managers end: there is no next one, or it is missing, or seen, or listed. */
  lemma {:induction false} ManagersStop(byOid: Index, cur: Option<Key>, seen: set<Key>)
    requires forall o :: o in byOid ==> byOid[o].oid == o
    ensures var ms := ManagersFrom(byOid, cur, seen);
      var end := if cur.None? then None else Up(byOid, cur.value, |ms|);
      end.None? || end.value in seen || end.value !in byOid || exists j :: 0 <= j < |ms| && ms[j].oid == end.value
    decreases byOid.Keys - seen
  {
    if cur.Some? && cur.value !in seen && cur.value in byOid {
      var next, seen' := byOid[cur.value].parentOid, seen + {cur.value};
      var rest := ManagersFrom(byOid, next, seen');
      ManagersStop(byOid, next, seen');
      var ms := [byOid[cur.value]] + rest;
      assert ms[0].oid == cur.value && forall j :: 0 <= j < |rest| ==> ms[j + 1] == rest[j];
    }
  }

  /** On any manager graph, the ancestors are the successive managers, each once and never the node
      itself, for as far as they go: the next one is none, unknown, the node, or listed already. */
  lemma AncestorsMeaning(nodes: seq<Node>, oid: Key)
    ensures var byOid := IndexNodes(nodes); var ms := AncestorsOf(byOid, oid); var next := Up(byOid, oid, |ms| + 1);
      && (forall k :: 0 <= k < |ms| ==> Up(byOid, oid, k + 1) == Some(ms[k].oid) && ms[k].oid != oid)
      && (forall j, k :: 0 <= j < k < |ms| ==> ms[j].oid != ms[k].oid)
      && (next.None? || next.value !in byOid || next.value == oid || exists j :: 0 <= j < |ms| && ms[j].oid == next.value)
  {
    var byOid := IndexNodes(nodes);
    var ms := AncestorsOf(byOid, oid);
    forall o | o in byOid ensures byOid[o].oid == o { IndexedUnderOwnId(nodes, o); }
    forall k | 0 <= k < |ms|
      ensures Up(byOid, oid, k + 1) == Some(ms[k].oid) && ms[k].oid != oid && forall j :: 0 <= j < k ==> ms[j].oid != ms[k].oid
    {
      ManagersMeaning(byOid, ParentOf(byOid, oid).value, {oid}, k);
    }
    ManagersStop(byOid, ParentOf(byOid, oid), {oid});
  }

  // ------------------------------------------------------------------ the rows of a region

  function ManagersWithReports(nodes: seq<Node>): set<Key>
  {
    set n | n in nodes && n.parentOid.Some? :: n.parentOid.value
  }

  /** A row is offered for a node somebody reports to, or that owns a unit. */
  predicate Decides(nodes: seq<Node>, n: Node)
  {
    n.oid in ManagersWithReports(nodes) || n.owns != []
  }

  predicate Leads(n: Node, regionId: Key, choices: LeaderChoices)
  {
    EffectiveLeaderRegion(n, choices) == Some(regionId)
  }

  /** One page of the setup: the tree, the region looked at, and the unsaved picks. */
  datatype View = View(nodes: seq<Node>, regionId: Key, choices: LeaderChoices)

  predicate IsRegionRoot(v: View, n: Node)
  {
    && n in v.nodes && Leads(n, v.regionId, v.choices)
    && forall a :: a in AncestorsOf(IndexNodes(v.nodes), n.oid) ==> !Leads(a, v.regionId, v.choices)
  }

  function RootsAmong(v: View, some: seq<Node>): (roots: seq<Node>)
    ensures forall n :: n in roots <==> n in some && IsRegionRoot(v, n)
  {
    if some == [] then []
    else
      assert some == [some[0]] + some[1..];
      var rest := RootsAmong(v, some[1..]);
      if IsRegionRoot(v, some[0]) then [some[0]] + rest else rest
  }

  function ReportsAmong(some: seq<Node>, oid: Key): (reports: seq<Node>)
    ensures forall n :: n in reports <==> n in some && n.parentOid == Some(oid)
  {
    if some == [] then []
    else
      assert some == [some[0]] + some[1..];
      var rest := ReportsAmong(some[1..], oid);
      if some[0].parentOid == Some(oid) then [some[0]] + rest else rest
  }

  /** A report the walk goes on to from its manager. */
  predicate WalksTo(v: View, n: Node, c: Node)
  {
    && c in v.nodes && c.parentOid == Some(n.oid) && c.users != 0
    && (EffectiveLeaderRegion(c, v.choices).None? || Leads(c, v.regionId, v.choices))
    && Decides(v.nodes, c)
  }

  ghost predicate BranchStep(v: View, path: seq<Node>, i: nat)
  {
    && i + 1 < |path|
    && WalksTo(v, path[i], path[i + 1])
  }

  /** A chain of reports from one of the region's roots. */
  ghost predicate IsBranch(v: View, path: seq<Node>)
  {
    && |path| > 0 && IsRegionRoot(v, path[0]) && Decides(v.nodes, path[0])
    && forall i :: 0 <= i < |path| - 1 ==> BranchStep(v, path, i)
  }

  /** Some branch of that depth ends in the node. */
  ghost predicate OnBranch(v: View, n: Node, depth: nat)
  {
    exists path :: IsBranch(v, path) && path[|path| - 1] == n && |path| == depth + 1
  }

  datatype UnitRow = UnitRow(node: Node, depth: nat)

  lemma BranchLonger(v: View, n: Node, depth: nat, c: Node)
    requires OnBranch(v, n, depth) && WalksTo(v, n, c)
    ensures OnBranch(v, c, depth + 1)
  {
    var path :| IsBranch(v, path) && path[|path| - 1] == n && |path| == depth + 1;
    var longer := path + [c];
    forall i | 0 <= i < |longer| - 1 ensures BranchStep(v, longer, i) {
      if i < |path| - 1 { assert BranchStep(v, path, i); }
    }
    assert IsBranch(v, longer);
  }

  lemma RootOnBranch(v: View, r: Node)
    requires IsRegionRoot(v, r) && Decides(v.nodes, r)
    ensures OnBranch(v, r, 0)
  {
    assert IsBranch(v, [r]);
  }

  /** How a list of nodes is sorted: any order of the same nodes. */
  ghost predicate IsArrangement(f: seq<Node> -> seq<Node>)
  {
    forall s, x :: x in f(s) <==> x in s
  }

  function OidsOf(nodes: seq<Node>): set<Key>
  {
    set n | n in nodes :: n.oid
  }

  function RowOids(rows: seq<UnitRow>): set<Key>
  {
    set r | r in rows :: r.node.oid
  }

  /** The rows that a branch justifies. */
  ghost function Branches(v: View): iset<UnitRow>
  {
    iset r: UnitRow | OnBranch(v, r.node, r.depth)
  }

  /** Going down one report stays inside a set of rows. */
  ghost predicate Hereditary(v: View, allowed: iset<UnitRow>)
  {
    forall r, c :: r in allowed && WalksTo(v, r.node, c) ==> UnitRow(c, r.depth + 1) in allowed
  }

  /** The rows so far: each an allowed row of the tree, and no node twice. */
  ghost predicate RowsOk(v: View, allowed: iset<UnitRow>, rows: seq<UnitRow>)
  {
    && (forall i :: 0 <= i < |rows| ==> rows[i] in allowed && rows[i].node in v.nodes)
    && (forall i, j :: 0 <= i < j < |rows| ==> rows[i].node.oid != rows[j].node.oid)
  }

  /** Every node the walk goes on to from this one has been seen. */
  ghost predicate Done(v: View, n: Node, seen: set<Key>)
  {
    forall c :: WalksTo(v, n, c) ==> c.oid in seen
  }

  /** Every row from the given position on is done. */
  ghost predicate DoneFrom(v: View, rows: seq<UnitRow>, from: nat, seen: set<Key>)
  {
    forall i :: from <= i < |rows| ==> Done(v, rows[i].node, seen)
  }

  lemma RowsOkMore(v: View, allowed: iset<UnitRow>, rows: seq<UnitRow>, row: UnitRow)
    requires RowsOk(v, allowed, rows) && row.node.oid !in RowOids(rows) && row.node in v.nodes && row in allowed
    ensures RowsOk(v, allowed, rows + [row]) && RowOids(rows + [row]) == RowOids(rows) + {row.node.oid}
  {
    assert (rows + [row])[|rows|] in rows + [row];
    forall i | 0 <= i < |rows| ensures rows[i].node.oid != row.node.oid {
      assert rows[i] in rows;
    }
  }

  /** A node of this depth, put after these rows, reads as below row `at`: its manager's, one level up, with
      nothing as high since. */
  ghost predicate ReadsBelow(rows: seq<UnitRow>, at: nat, n: Node, depth: nat)
  {
    depth > 0 ==>
      && at < |rows| && rows[at].depth + 1 == depth && n.parentOid == Some(rows[at].node.oid)
      && forall k :: at < k < |rows| ==> rows[k].depth >= depth
  }

  /** The rows read as an outline: each one below its manager's, as the indentation shows it. */
  ghost predicate Outline(rows: seq<UnitRow>)
  {
    forall i :: 0 <= i < |rows| ==> Placed(rows, i)
  }

  ghost predicate Placed(rows: seq<UnitRow>, i: nat)
  {
    && i < |rows|
    && (exists at: nat :: ReadsBelow(rows[..i], at, rows[i].node, rows[i].depth))
  }

  /** What a walk adds to the rows: no node again, nothing higher than this depth, each in its place and
      with everything the walk goes on to from it. */
  ghost predicate Below(v: View, allowed: iset<UnitRow>, rows: seq<UnitRow>, depth: nat, rows': seq<UnitRow>)
  {
    && RowsOk(v, allowed, rows') && rows <= rows' && Outline(rows')
    && DoneFrom(v, rows', |rows|, RowOids(rows'))
    && forall k :: |rows| <= k < |rows'| ==> rows'[k].depth >= depth
  }

  lemma FurtherBelow(v: View, allowed: iset<UnitRow>, rows: seq<UnitRow>, depth: nat, rows': seq<UnitRow>, rows'': seq<UnitRow>)
    requires Below(v, allowed, rows, depth, rows') && Below(v, allowed, rows', depth, rows'')
    ensures Below(v, allowed, rows, depth, rows'') && RowOids(rows') <= RowOids(rows'')
  {
    assert forall r :: r in rows' ==> r in rows'';
    forall i | |rows| <= i < |rows''| ensures Done(v, rows''[i].node, RowOids(rows'')) {
      if i < |rows'| { assert Done(v, rows'[i].node, RowOids(rows')); }
    }
  }

  lemma OneMorePlaced(rows: seq<UnitRow>, at: nat, n: Node, depth: nat)
    requires Outline(rows) && ReadsBelow(rows, at, n, depth)
    ensures Outline(rows + [UnitRow(n, depth)])
  {
    var longer := rows + [UnitRow(n, depth)];
    forall i | 0 <= i < |longer| ensures Placed(longer, i) {
      if i < |rows| {
        assert Placed(rows, i) && longer[..i] == rows[..i];
        var j: nat :| ReadsBelow(rows[..i], j, rows[i].node, rows[i].depth);
        assert ReadsBelow(longer[..i], j, longer[i].node, longer[i].depth);
      } else {
        assert longer[..i] == rows;
        assert ReadsBelow(longer[..i], at, longer[i].node, longer[i].depth);
      }
    }
  }

  /** The depth-first walk: the rows only grow, those it adds are no higher than the node's and are done
      when it returns, and they read as an outline. */
  method Walk(v: View, ghost allowed: iset<UnitRow>, arrange: seq<Node> -> seq<Node>, n: Node, depth: nat, seen: set<Key>, rows: seq<UnitRow>, ghost at: nat)
    returns (seen': set<Key>, rows': seq<UnitRow>)
    requires IsArrangement(arrange) && Hereditary(v, allowed) && n in v.nodes && UnitRow(n, depth) in allowed
    requires RowsOk(v, allowed, rows) && seen == RowOids(rows) && Outline(rows) && ReadsBelow(rows, at, n, depth)
    ensures Below(v, allowed, rows, depth, rows') && seen' == RowOids(rows') && seen <= seen' && n.oid in seen'
    decreases OidsOf(v.nodes) - seen
  {
    seen', rows' := seen, rows;
    if n.oid in seen { return; }
    OneMorePlaced(rows, at, n, depth);
    RowsOkMore(v, allowed, rows, UnitRow(n, depth));
    seen', rows' := seen' + {n.oid}, rows' + [UnitRow(n, depth)];
    var reports := arrange(ReportsAmong(v.nodes, n.oid));
    for i := 0 to |reports|
      invariant Below(v, allowed, rows + [UnitRow(n, depth)], depth + 1, rows')
      invariant seen' == RowOids(rows') && seen + {n.oid} <= seen'
      invariant forall k :: 0 <= k < i && WalksTo(v, n, reports[k]) ==> reports[k].oid in seen'
    {
      var c := reports[i];
      var led := EffectiveLeaderRegion(c, v.choices);
      if c.users == 0 || (led.Some? && led.value != v.regionId) { continue; }
      if c.oid !in ManagersWithReports(v.nodes) && c.owns == [] { continue; }
      assert c in reports;
      assert WalksTo(v, n, c);
      var seen2, rows2 := Walk(v, allowed, arrange, c, depth + 1, seen', rows', |rows|);
      FurtherBelow(v, allowed, rows + [UnitRow(n, depth)], depth + 1, rows', rows2);
      seen', rows' := seen2, rows2;
    }
    ReportsDone(v, n, reports, seen');
  }

  lemma ReportsDone(v: View, n: Node, reports: seq<Node>, seen: set<Key>)
    requires forall c :: c in ReportsAmong(v.nodes, n.oid) ==> c in reports
    requires forall k :: 0 <= k < |reports| && WalksTo(v, n, reports[k]) ==> reports[k].oid in seen
    ensures Done(v, n, seen)
  {
    forall c | WalksTo(v, n, c) ensures c.oid in seen {
      assert c in ReportsAmong(v.nodes, n.oid);
    }
  }

  /** The walk from each root in turn. */
  method WalkRoots(v: View, ghost allowed: iset<UnitRow>, arrange: seq<Node> -> seq<Node>, roots: seq<Node>) returns (rows: seq<UnitRow>)
    requires IsArrangement(arrange) && Hereditary(v, allowed)
    requires forall k :: 0 <= k < |roots| ==> roots[k] in v.nodes && (Decides(v.nodes, roots[k]) ==> UnitRow(roots[k], 0) in allowed)
    ensures RowsOk(v, allowed, rows) && DoneFrom(v, rows, 0, RowOids(rows)) && Outline(rows)
    ensures forall k :: 0 <= k < |roots| && Decides(v.nodes, roots[k]) ==> roots[k].oid in RowOids(rows)
  {
    rows := [];
    var seen: set<Key> := {};
    for i := 0 to |roots|
      invariant RowsOk(v, allowed, rows) && seen == RowOids(rows) && DoneFrom(v, rows, 0, seen) && Outline(rows)
      invariant forall k :: 0 <= k < i && Decides(v.nodes, roots[k]) ==> roots[k].oid in seen
    {
      var r := roots[i];
      if r.oid in ManagersWithReports(v.nodes) || r.owns != [] {
        var seen2, rows2 := Walk(v, allowed, arrange, r, 0, seen, rows, 0);
        FurtherBelow(v, allowed, [], 0, rows, rows2);
        seen, rows := seen2, rows2;
      }
    }
  }

  /** The rows offered for a region, on any manager graph: each node at most once, each on a branch of
      its depth under the region's roots, in depth-first order so that each reads as below its manager,
      and, where ids are unique, every node on such a branch. */
  method UnitRows(v: View, arrange: seq<Node> -> seq<Node>, arrangeRoots: seq<Node> -> seq<Node>) returns (rows: seq<UnitRow>)
    requires IsArrangement(arrange) && IsArrangement(arrangeRoots)
    ensures forall i, j :: 0 <= i < j < |rows| ==> rows[i].node.oid != rows[j].node.oid
    ensures forall i :: 0 <= i < |rows| ==> OnBranch(v, rows[i].node, rows[i].depth)
    ensures Outline(rows)
    ensures DistinctOids(v.nodes) ==> forall n, depth :: OnBranch(v, n, depth) ==> Listed(rows, n)
  {
    BranchesHereditary(v);
    var roots := arrangeRoots(RootsAmong(v, v.nodes));
    forall k | 0 <= k < |roots|
      ensures roots[k] in v.nodes && (Decides(v.nodes, roots[k]) ==> UnitRow(roots[k], 0) in Branches(v))
    {
      assert roots[k] in roots;
      if Decides(v.nodes, roots[k]) { RootOnBranch(v, roots[k]); }
    }
    rows := WalkRoots(v, Branches(v), arrange, roots);
    RowsComplete(v, roots, rows);
  }

  lemma RowsComplete(v: View, roots: seq<Node>, rows: seq<UnitRow>)
    requires RowsOk(v, Branches(v), rows) && DoneFrom(v, rows, 0, RowOids(rows))
    requires forall n :: n in RootsAmong(v, v.nodes) ==> n in roots
    requires forall k :: 0 <= k < |roots| && Decides(v.nodes, roots[k]) ==> roots[k].oid in RowOids(rows)
    ensures forall i :: 0 <= i < |rows| ==> OnBranch(v, rows[i].node, rows[i].depth)
    ensures DistinctOids(v.nodes) ==> forall n, depth :: OnBranch(v, n, depth) ==> Listed(rows, n)
  {
    forall i | 0 <= i < |rows| ensures OnBranch(v, rows[i].node, rows[i].depth) {
      assert rows[i] in Branches(v);
    }
    if DistinctOids(v.nodes) {
      forall n | IsRegionRoot(v, n) && Decides(v.nodes, n) ensures n.oid in RowOids(rows) {
        assert n in RootsAmong(v, v.nodes);
      }
      forall n: Node, depth: nat | OnBranch(v, n, depth) ensures Listed(rows, n) {
        var path :| IsBranch(v, path) && path[|path| - 1] == n && |path| == depth + 1;
        BranchListed(v, Branches(v), path, rows);
      }
    }
  }

  ghost predicate Listed(rows: seq<UnitRow>, n: Node)
  {
    exists i :: 0 <= i < |rows| && rows[i].node == n
  }

  lemma BranchesHereditary(v: View)
    ensures Hereditary(v, Branches(v))
  {
    forall r, c | r in Branches(v) && WalksTo(v, r.node, c) ensures UnitRow(c, r.depth + 1) in Branches(v) {
      BranchLonger(v, r.node, r.depth, c);
    }
  }

  lemma {:induction false} BranchListed(v: View, allowed: iset<UnitRow>, path: seq<Node>, rows: seq<UnitRow>)
    requires DistinctOids(v.nodes) && IsBranch(v, path)
    requires RowsOk(v, allowed, rows) && DoneFrom(v, rows, 0, RowOids(rows))
    requires forall n :: IsRegionRoot(v, n) && Decides(v.nodes, n) ==> n.oid in RowOids(rows)
    ensures Listed(rows, path[|path| - 1])
    decreases |path|
  {
    if |path| > 1 {
      var init := path[..|path| - 1];
      forall i | 0 <= i < |init| - 1 ensures BranchStep(v, init, i) { assert BranchStep(v, path, i); }
      assert BranchStep(v, path, |path| - 2);
      BranchListed(v, allowed, init, rows);
    }
  }

  // ------------------------------------------------------------------ whose region a row is in

  /** The nearest leader at or above a node leads this region. */
  ghost predicate NearestLeads(byOid: Index, choices: LeaderChoices, oid: Key, regionId: Key, k: nat)
  {
    && Up(byOid, oid, k).Some? && Up(byOid, oid, k).value in byOid
    && Leads(byOid[Up(byOid, oid, k).value], regionId, choices)
    && forall j :: 0 <= j < k ==> LeaderlessAt(byOid, choices, oid, j)
  }

  predicate LeaderlessAt(byOid: Index, choices: LeaderChoices, oid: Key, j: nat)
  {
    var u := Up(byOid, oid, j);
    u.Some? && u.value in byOid && EffectiveLeaderRegion(byOid[u.value], choices).None?
  }

  lemma NearestIsUnique(byOid: Index, choices: LeaderChoices, oid: Key, r1: Key, k1: nat, r2: Key, k2: nat)
    requires NearestLeads(byOid, choices, oid, r1, k1) && NearestLeads(byOid, choices, oid, r2, k2)
    ensures r1 == r2
  {
    assert k1 < k2 ==> LeaderlessAt(byOid, choices, oid, k1);
    assert k2 < k1 ==> LeaderlessAt(byOid, choices, oid, k2);
  }

  lemma NearestPassesDown(byOid: Index, choices: LeaderChoices, parent: Key, child: Key, regionId: Key, k: nat)
    requires NearestLeads(byOid, choices, parent, regionId, k)
    requires child in byOid && byOid[child].parentOid == Some(parent) && EffectiveLeaderRegion(byOid[child], choices).None?
    ensures NearestLeads(byOid, choices, child, regionId, k + 1)
  {
    assert Up(byOid, child, k + 1) == Up(byOid, parent, k);
    forall j | 0 <= j < k + 1
      ensures LeaderlessAt(byOid, choices, child, j)
    {
      if j > 0 { assert LeaderlessAt(byOid, choices, parent, j - 1); }
    }
  }

  lemma {:induction false} BranchEndsUnderRegion(v: View, path: seq<Node>) returns (k: nat)
    requires DistinctOids(v.nodes) && IsBranch(v, path)
    ensures NearestLeads(IndexNodes(v.nodes), v.choices, path[|path| - 1].oid, v.regionId, k)
    decreases |path|
  {
    var byOid := IndexNodes(v.nodes);
    var n := path[|path| - 1];
    assert |path| > 1 ==> BranchStep(v, path, |path| - 2);
    Indexed(v.nodes, n);
    if Leads(n, v.regionId, v.choices) {
      k := 0;
    } else {
      var init := path[..|path| - 1];
      forall i | 0 <= i < |init| - 1 ensures BranchStep(v, init, i) { assert BranchStep(v, path, i); }
      k := BranchEndsUnderRegion(v, init);
      NearestPassesDown(byOid, v.choices, init[|init| - 1].oid, n.oid, v.regionId, k);
      k := k + 1;
    }
  }

  /** No node is offered under two regions, whatever cycles the managers make. */
  lemma NoNodeInTwoRegions(v: View, w: View, n: Node, d: nat, e: nat)
    requires DistinctOids(v.nodes) && w.nodes == v.nodes && w.choices == v.choices
    requires OnBranch(v, n, d) && OnBranch(w, n, e)
    ensures v.regionId == w.regionId
  {
    var p :| IsBranch(v, p) && p[|p| - 1] == n && |p| == d + 1;
    var q :| IsBranch(w, q) && q[|q| - 1] == n && |q| == e + 1;
    var k := BranchEndsUnderRegion(v, p);
    var l := BranchEndsUnderRegion(w, q);
    NearestIsUnique(IndexNodes(v.nodes), v.choices, n.oid, v.regionId, k, w.regionId, l);
  }
}
