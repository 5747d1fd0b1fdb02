/**
  Saving the region leaders picked on the setup page: what changed is revoked first, then assigned, over
  requests that may fail before or after taking effect, while the picks can still be edited.
 */
module Leaders {
  import opened Wrappers
  import opened OrgTree

  // ------------------------------------------------------------------ the server's side

  datatype LeaderRow = LeaderRow(oid: Key, regionId: Key)

  datatype Listed = Listed(id: nat, oid: Key)

  /** What becomes of a request: it is served, it is lost on the way, or only its reply is lost. */
  datatype Fate = Served | Lost | ReplyLost

  /** Active leader rows by row id. */
  type Rows = map<nat, LeaderRow>

  ghost predicate OneRowPerOid(rows: Rows)
  {
    forall i, j :: i in rows && j in rows && rows[i].oid == rows[j].oid ==> i == j
  }

  ghost predicate Leads(rows: Rows, oid: Key, regionId: Key)
  {
    exists i :: i in rows && rows[i] == LeaderRow(oid, regionId)
  }

  /** The region a person leads. */
  ghost function LeaderAt(rows: Rows, oid: Key): (r: Option<Key>)
    ensures r.Some? ==> Leads(rows, oid, r.value)
    ensures r.None? ==> forall i :: i in rows ==> rows[i].oid != oid
  {
    if i :| i in rows && rows[i].oid == oid then Some(rows[i].regionId) else None
  }

  lemma LeaderIs(rows: Rows, i: nat)
    requires OneRowPerOid(rows) && i in rows
    ensures LeaderAt(rows, rows[i].oid) == Some(rows[i].regionId)
  {
  }

  lemma RowRemoved(rows: Rows, i: nat)
    requires OneRowPerOid(rows) && i in rows
    ensures OneRowPerOid(rows - {i}) && LeaderAt(rows - {i}, rows[i].oid) == None
    ensures forall o :: o != rows[i].oid ==> LeaderAt(rows - {i}, o) == LeaderAt(rows, o)
  {
    forall o | o != rows[i].oid ensures LeaderAt(rows - {i}, o) == LeaderAt(rows, o) {
      if LeaderAt(rows, o).Some? {
        var j :| j in rows && rows[j] == LeaderRow(o, LeaderAt(rows, o).value);
        assert j in rows - {i};
        LeaderIs(rows - {i}, j);
      }
    }
  }

  lemma RowAdded(rows: Rows, i: nat, row: LeaderRow)
    requires OneRowPerOid(rows) && i !in rows && LeaderAt(rows, row.oid) == None
    ensures OneRowPerOid(rows[i := row]) && LeaderAt(rows[i := row], row.oid) == Some(row.regionId)
    ensures forall o :: o != row.oid ==> LeaderAt(rows[i := row], o) == LeaderAt(rows, o)
  {
    var rows' := rows[i := row];
    LeaderIs(rows', i);
    forall o | o != row.oid ensures LeaderAt(rows', o) == LeaderAt(rows, o) {
      if LeaderAt(rows, o).Some? {
        var j :| j in rows && rows[j] == LeaderRow(o, LeaderAt(rows, o).value);
        assert j in rows';
        LeaderIs(rows', j);
      }
    }
  }

  class Server {
    var rows: Rows
    var nextId: nat
    var sent: nat
    var posted: seq<LeaderRow>
    const fate: nat -> Fate

    ghost predicate Valid()
      reads this
    {
      OneRowPerOid(rows) && forall i :: i in rows ==> i < nextId
    }

    constructor (fate: nat -> Fate)
      ensures Valid() && rows == map[] && posted == [] && this.fate == fate
    {
      this.rows, this.nextId, this.sent, this.posted, this.fate := map[], 0, 0, [], fate;
    }

    /** The next request's fate. */
    method Send() returns (f: Fate)
      modifies this`sent
      ensures f == fate(old(sent)) && sent == old(sent) + 1
    {
      f := fate(sent);
      sent := sent + 1;
    }

    /** A region's active leaders, oldest first. */
    method List(regionId: Key) returns (found: Option<seq<Listed>>)
      requires Valid()
      modifies this`sent
      ensures Valid() && sent == old(sent) + 1 && (found.Some? <==> fate(old(sent)) == Served)
      ensures found.Some? ==> Lists(rows, regionId, found.value)
    {
      var f := Send();
      if f != Served { return None; }
      var out: seq<Listed> := [];
      for i := 0 to nextId
        invariant forall l :: l in out <==> l.id < i && l.id in rows && rows[l.id] == LeaderRow(l.oid, regionId)
        invariant sent == old(sent) + 1
      {
        if i in rows && rows[i].regionId == regionId { out := out + [Listed(i, rows[i].oid)]; }
      }
      found := Some(out);
    }

    /** Revokes an active row of this region; there must be one. */
    method Delete(regionId: Key, id: nat) returns (ok: bool)
      requires Valid()
      modifies this`rows, this`sent
      ensures Valid()
      ensures rows == old(rows) || (rows == old(rows) - {id} && id in old(rows) && old(rows)[id].regionId == regionId)
      ensures ok ==> id !in rows && id in old(rows) && old(rows)[id].regionId == regionId
      ensures sent == old(sent) + 1
      ensures ok <==> fate(old(sent)) == Served && id in old(rows) && old(rows)[id].regionId == regionId
    {
      var f := Send();
      if f == Lost || id !in rows || rows[id].regionId != regionId { return false; }
      RowRemoved(rows, id);
      rows := rows - {id};
      ok := f == Served;
    }

    /** Makes a person the leader of a region; they may lead only one. */
    method Post(regionId: Key, oid: Key) returns (ok: bool)
      requires Valid()
      modifies this
      ensures Valid() && posted == old(posted) + [LeaderRow(oid, regionId)]
      ensures forall o :: o != oid ==> LeaderAt(rows, o) == LeaderAt(old(rows), o)
      ensures LeaderAt(rows, oid) == LeaderAt(old(rows), oid) || LeaderAt(rows, oid) == Some(regionId)
      ensures sent == old(sent) + 1 && (ok <==> fate(old(sent)) == Served && LeaderAt(old(rows), oid) == None)
      ensures ok ==> LeaderAt(rows, oid) == Some(regionId)
    {
      var f := Send();
      posted := posted + [LeaderRow(oid, regionId)];
      if f == Lost { return false; }
      var taken := exists i :: i in rows && rows[i].oid == oid;
      if taken { return false; }
      RowAdded(rows, nextId, LeaderRow(oid, regionId));
      rows := rows[nextId := LeaderRow(oid, regionId)];
      nextId := nextId + 1;
      ok := f == Served;
    }
  }

  ghost predicate Lists(rows: Rows, regionId: Key, listed: seq<Listed>)
  {
    forall l :: l in listed <==> l.id in rows && rows[l.id] == LeaderRow(l.oid, regionId)
  }

  // ------------------------------------------------------------------ what a save sends

  datatype Revoke = Revoke(oid: Key, regionId: Key)

  datatype Assign = Assign(node: Node, regionId: Key)

  predicate Changed(byOid: Index, choices: LeaderChoices, o: Key)
  {
    o in choices && o in byOid && byOid[o].leaderOf != choices[o]
  }

  /** The picks that differ from what the tree shows, each once. */
  method ProposedLeaders(byOid: Index, choices: LeaderChoices) returns (out: seq<Key>)
    ensures forall o :: o in out <==> Changed(byOid, choices, o)
    ensures forall i, j :: 0 <= i < j < |out| ==> out[i] != out[j]
  {
    out := [];
    var left := choices.Keys;
    while left != {}
      invariant left <= choices.Keys
      invariant forall o :: o in out <==> Changed(byOid, choices, o) && o !in left
      invariant forall i, j :: 0 <= i < j < |out| ==> out[i] != out[j]
      decreases left
    {
      var o :| o in left;
      if Changed(byOid, choices, o) { out := out + [o]; }
      left := left - {o};
    }
  }

  /** Nodes are found under their own id. */
  ghost predicate OwnIds(byOid: Index) { forall o :: o in byOid ==> byOid[o].oid == o }

  ghost predicate Revokes(byOid: Index, choices: LeaderChoices, revoke: seq<Revoke>)
  {
    && (forall r :: r in revoke <==> Changed(byOid, choices, r.oid) && byOid[r.oid].leaderOf == Some(r.regionId))
    && OncePerOid(revoke)
  }

  ghost predicate OncePerOid(revoke: seq<Revoke>)
  {
    forall i, j :: 0 <= i < j < |revoke| ==> revoke[i].oid != revoke[j].oid
  }

  ghost predicate Assigns(byOid: Index, choices: LeaderChoices, assign: seq<Assign>)
  {
    && (forall a :: a in assign <==>
        Changed(byOid, choices, a.node.oid) && byOid[a.node.oid] == a.node && choices[a.node.oid] == Some(a.regionId))
    && (forall i, j :: 0 <= i < j < |assign| ==> assign[i].node.oid != assign[j].node.oid)
  }

  method LeaderDiff(byOid: Index, choices: LeaderChoices) returns (revoke: seq<Revoke>, assign: seq<Assign>)
    requires OwnIds(byOid)
    ensures Revokes(byOid, choices, revoke) && Assigns(byOid, choices, assign)
  {
    var proposed := ProposedLeaders(byOid, choices);
    revoke, assign := [], [];
    for i := 0 to |proposed|
      invariant forall r :: r in revoke <==> r.oid in proposed[..i] && Changed(byOid, choices, r.oid) && byOid[r.oid].leaderOf == Some(r.regionId)
      invariant forall a :: a in assign <==>
          a.node.oid in proposed[..i] && Changed(byOid, choices, a.node.oid) && byOid[a.node.oid] == a.node && choices[a.node.oid] == Some(a.regionId)
      invariant forall j, k :: 0 <= j < k < |revoke| ==> revoke[j].oid != revoke[k].oid
      invariant forall j, k :: 0 <= j < k < |assign| ==> assign[j].node.oid != assign[k].node.oid
    {
      var o := proposed[i];
      assert o in proposed && Changed(byOid, choices, o);
      assert proposed[..i + 1] == proposed[..i] + [o] && o !in proposed[..i];
      var n := byOid[o];
      forall j | 0 <= j < |revoke| ensures revoke[j].oid != o { assert revoke[j] in revoke; }
      forall j | 0 <= j < |assign| ensures assign[j].node.oid != o { assert assign[j] in assign; }
      if n.leaderOf.Some? { revoke := revoke + [Revoke(o, n.leaderOf.value)]; }
      if choices[o].Some? { assign := assign + [Assign(n, choices[o].value)]; }
    }
    assert proposed[..|proposed|] == proposed;
  }

  // ------------------------------------------------------------------ the two request loops

  ghost predicate InFirst(revoke: seq<Revoke>, i: nat, o: Key)
  {
    exists k :: 0 <= k < i && k < |revoke| && revoke[k].oid == o
  }

  /** One person after the first i revokes: untouched, or gone from the region, or in error. */
  ghost predicate RevokedSoFar(was: Rows, rows: Rows, revoke: seq<Revoke>, i: nat, errors: set<Key>, o: Key)
  {
    && i <= |revoke|
    && (!InFirst(revoke, i, o) ==> LeaderAt(rows, o) == LeaderAt(was, o) && o !in errors)
    && (LeaderAt(rows, o) == LeaderAt(was, o) || LeaderAt(rows, o) == None)
    && (forall k :: 0 <= k < i && revoke[k].oid == o && o !in errors && LeaderAt(was, o) == Some(revoke[k].regionId) ==>
        LeaderAt(rows, o) == None)
    && (forall k :: 0 <= k < i && revoke[k].oid == o && LeaderAt(was, o) != Some(revoke[k].regionId) ==>
        LeaderAt(rows, o) == LeaderAt(was, o))
  }

  /** A list read earlier is still right about everyone not revoked yet. */
  ghost predicate StillLists(rows: Rows, regionId: Key, listed: seq<Listed>, revoke: seq<Revoke>, i: nat)
  {
    forall l: Listed :: !InFirst(revoke, i, l.oid) ==> (l in listed <==> l.id in rows && rows[l.id] == LeaderRow(l.oid, regionId))
  }

  ghost predicate AllStillList(rows: Rows, listed: map<Key, seq<Listed>>, revoke: seq<Revoke>, i: nat)
  {
    forall g :: g in listed ==> StillLists(rows, g, listed[g], revoke, i)
  }

  method Find(listed: seq<Listed>, oid: Key) returns (found: Option<Listed>)
    ensures found.Some? ==> found.value in listed && found.value.oid == oid
    ensures found.None? ==> forall l :: l in listed ==> l.oid != oid
  {
    for i := 0 to |listed|
      invariant forall k :: 0 <= k < i ==> listed[k].oid != oid
    {
      if listed[i].oid == oid { return Some(listed[i]); }
    }
    found := None;
  }

  /** One of the requests from here up to there was not served. */
  ghost predicate SomeFailed(fate: nat -> Fate, here: nat, there: nat)
  {
    exists k :: here <= k < there && fate(k) != Served
  }

  /** The region's list, unless it has been fetched before. */
  method Fetch(server: Server, revoke: seq<Revoke>, i: nat, listed: map<Key, seq<Listed>>)
      returns (listed': map<Key, seq<Listed>>, failed: bool)
    requires server.Valid() && i < |revoke| && AllStillList(server.rows, listed, revoke, i)
    modifies server`sent
    ensures server.Valid() && AllStillList(server.rows, listed', revoke, i)
    ensures listed' == listed || (revoke[i].regionId !in listed && listed'.Keys == listed.Keys + {revoke[i].regionId})
    ensures revoke[i].regionId in listed ==> listed' == listed && server.sent == old(server.sent)
    ensures old(server.sent) <= server.sent && failed == SomeFailed(server.fate, old(server.sent), server.sent)
    ensures !failed ==> revoke[i].regionId in listed'
  {
    listed', failed := listed, false;
    var region := revoke[i].regionId;
    if region !in listed {
      var found := server.List(region);
      if found.None? { return listed, true; }
      listed' := listed[region := found.value];
    }
  }

  /** One revoke: the region's list is fetched once, and whoever it lists is removed by row. */
  method RevokeOne(server: Server, revoke: seq<Revoke>, i: nat, listed: map<Key, seq<Listed>>)
      returns (listed': map<Key, seq<Listed>>, failed: bool)
    requires server.Valid() && i < |revoke| && !InFirst(revoke, i, revoke[i].oid)
    requires AllStillList(server.rows, listed, revoke, i)
    modifies server`rows, server`sent
    ensures server.Valid()
    ensures forall o :: o != revoke[i].oid ==> LeaderAt(server.rows, o) == LeaderAt(old(server.rows), o)
    ensures LeaderAt(server.rows, revoke[i].oid) in {None, LeaderAt(old(server.rows), revoke[i].oid)}
    ensures !failed ==> LeaderAt(server.rows, revoke[i].oid) != Some(revoke[i].regionId)
    ensures LeaderAt(old(server.rows), revoke[i].oid) != Some(revoke[i].regionId) ==>
      LeaderAt(server.rows, revoke[i].oid) == LeaderAt(old(server.rows), revoke[i].oid)
    ensures AllStillList(server.rows, listed', revoke, i + 1)
    ensures old(server.sent) <= server.sent && failed == SomeFailed(server.fate, old(server.sent), server.sent)
  {
    var r := revoke[i];
    listed', failed := Fetch(server, revoke, i, listed);
    if failed { return; }
    ghost var before := server.rows;
    assert StillLists(before, r.regionId, listed'[r.regionId], revoke, i);
    var row := Find(listed'[r.regionId], r.oid);
    if row.Some? {
      RowRemoved(before, row.value.id);
      LeaderIs(before, row.value.id);
      ghost var from := server.sent;
      var ok := server.Delete(r.regionId, row.value.id);
      failed := !ok;
      assert failed ==> server.fate(from) != Served;
      assert server.rows == before ==> forall o :: LeaderAt(server.rows, o) == LeaderAt(before, o);
    } else {
      NotListed(before, r.regionId, listed'[r.regionId], revoke, i, r.oid);
    }
  }

  lemma NotListed(rows: Rows, regionId: Key, listed: seq<Listed>, revoke: seq<Revoke>, i: nat, o: Key)
    requires i <= |revoke| && StillLists(rows, regionId, listed, revoke, i) && !InFirst(revoke, i, o)
    requires forall l :: l in listed ==> l.oid != o
    ensures LeaderAt(rows, o) != Some(regionId)
  {
    forall j | j in rows ensures rows[j] != LeaderRow(o, regionId) {
      assert Listed(j, o).oid == o && Listed(j, o) !in listed;
    }
  }

  /** Each revoke's own requests, one window after another: it is in error exactly when one of those was not served. */
  ghost predicate ErrorsIn(fate: nat -> Fate, revoke: seq<Revoke>, n: nat, windows: seq<nat>, errors: set<Key>)
  {
    && n <= |revoke| && |windows| == n + 1
    && (forall k :: 0 <= k < n ==> windows[k] <= windows[k + 1])
    && (forall k :: 0 <= k < n ==> (revoke[k].oid in errors <==> SomeFailed(fate, windows[k], windows[k + 1])))
  }

  lemma OneMoreWindow(fate: nat -> Fate, revoke: seq<Revoke>, n: nat, windows: seq<nat>, next: nat, had: set<Key>, errors: set<Key>)
    requires ErrorsIn(fate, revoke, n, windows, had) && n < |revoke| && OncePerOid(revoke)
    requires windows[n] <= next && revoke[n].oid !in had
    requires errors == if SomeFailed(fate, windows[n], next) then had + {revoke[n].oid} else had
    ensures ErrorsIn(fate, revoke, n + 1, windows + [next], errors)
  {
  }

  lemma NoneFailed(fate: nat -> Fate, revoke: seq<Revoke>, windows: seq<nat>, errors: set<Key>)
    requires ErrorsIn(fate, revoke, |revoke|, windows, errors) && forall k :: fate(k) == Served
    requires forall o :: o in errors ==> InFirst(revoke, |revoke|, o)
    ensures errors == {}
  {
    forall k | 0 <= k < |revoke| ensures revoke[k].oid !in errors {
      assert !SomeFailed(fate, windows[k], windows[k + 1]);
    }
  }

  method RevokeAll(server: Server, revoke: seq<Revoke>) returns (errors: set<Key>, ghost windows: seq<nat>)
    requires server.Valid() && OncePerOid(revoke)
    modifies server`rows, server`sent
    ensures server.Valid()
    ensures forall o: Key :: RevokedSoFar(old(server.rows), server.rows, revoke, |revoke|, errors, o)
    ensures ErrorsIn(server.fate, revoke, |revoke|, windows, errors)
    ensures windows[0] == old(server.sent) && windows[|revoke|] == server.sent
    ensures (forall k :: server.fate(k) == Served) ==> errors == {}
  {
    errors, windows := {}, [server.sent];
    var listed: map<Key, seq<Listed>> := map[];
    for i := 0 to |revoke|
      invariant server.Valid()
      invariant forall o: Key :: RevokedSoFar(old(server.rows), server.rows, revoke, i, errors, o)
      invariant AllStillList(server.rows, listed, revoke, i)
      invariant ErrorsIn(server.fate, revoke, i, windows, errors) && windows[0] == old(server.sent) && windows[i] == server.sent
    {
      ghost var before, wereErrors := server.rows, errors;
      FirstTime(revoke, i);
      assert RevokedSoFar(old(server.rows), before, revoke, i, errors, revoke[i].oid);
      var failed;
      listed, failed := RevokeOne(server, revoke, i, listed);
      if failed { errors := errors + {revoke[i].oid}; }
      OneMoreWindow(server.fate, revoke, i, windows, server.sent, wereErrors, errors);
      windows := windows + [server.sent];
      OneRevoked(old(server.rows), before, server.rows, revoke, i, i + 1, wereErrors, errors);
    }
    assert forall o :: o in errors ==> RevokedSoFar(old(server.rows), server.rows, revoke, |revoke|, errors, o);
    if forall k :: server.fate(k) == Served { NoneFailed(server.fate, revoke, windows, errors); }
  }

  lemma FirstTime(revoke: seq<Revoke>, i: nat)
    requires OncePerOid(revoke) && i < |revoke|
    ensures !InFirst(revoke, i, revoke[i].oid)
  {
  }

  lemma OneRevoked(was: Rows, before: Rows, now: Rows, revoke: seq<Revoke>, i: nat, n: nat, had: set<Key>, errors: set<Key>)
    requires i < |revoke| && n == i + 1 && !InFirst(revoke, i, revoke[i].oid)
    requires forall o: Key :: RevokedSoFar(was, before, revoke, i, had, o)
    requires had <= errors <= had + {revoke[i].oid}
    requires forall o :: o != revoke[i].oid ==> LeaderAt(now, o) == LeaderAt(before, o)
    requires LeaderAt(now, revoke[i].oid) in {None, LeaderAt(before, revoke[i].oid)}
    requires revoke[i].oid !in errors ==> LeaderAt(now, revoke[i].oid) != Some(revoke[i].regionId)
    requires LeaderAt(before, revoke[i].oid) != Some(revoke[i].regionId) ==> LeaderAt(now, revoke[i].oid) == LeaderAt(before, revoke[i].oid)
    ensures forall o: Key :: RevokedSoFar(was, now, revoke, n, errors, o)
  {
    forall o: Key ensures RevokedSoFar(was, now, revoke, n, errors, o) {
      assert RevokedSoFar(was, before, revoke, i, had, o);
    }
  }

  /** Whether assign has one for this person among its first i. */
  ghost predicate AssignedIn(assign: seq<Assign>, i: nat, o: Key)
  {
    exists k :: 0 <= k < i && k < |assign| && assign[k].node.oid == o
  }

  /** One person after the first i assigns, given the errors the revokes left. */
  ghost predicate AssignedSoFar(was: Rows, rows: Rows, assign: seq<Assign>, i: nat, had: set<Key>, errors: set<Key>, o: Key)
  {
    && i <= |assign|
    && had <= errors
    && (!AssignedIn(assign, i, o) ==> LeaderAt(rows, o) == LeaderAt(was, o) && (o in errors ==> o in had))
    && (forall k :: 0 <= k < i && assign[k].node.oid == o && o !in errors ==> LeaderAt(rows, o) == Some(assign[k].regionId))
    && (forall k :: 0 <= k < i && assign[k].node.oid == o && !MayPost(assign[k], had) ==> o in errors && LeaderAt(rows, o) == LeaderAt(was, o))
  }

  predicate HasEmail(n: Node) { n.email.Some? && n.email.value != "" }

  /** Nobody without an email is assigned, nor anyone whose revoke failed. */
  predicate MayPost(a: Assign, had: set<Key>) { a.node.oid !in had && HasEmail(a.node) }

  /** The requests the assigns go out as, in their order. */
  function Posts(assign: seq<Assign>, had: set<Key>): seq<LeaderRow>
  {
    if assign == [] then []
    else
      var n := |assign| - 1;
      Posts(assign[..n], had) + if MayPost(assign[n], had) then [LeaderRow(assign[n].node.oid, assign[n].regionId)] else []
  }

  ghost predicate Due(assign: seq<Assign>, had: set<Key>, p: LeaderRow)
  {
    exists a :: a in assign && MayPost(a, had) && p == LeaderRow(a.node.oid, a.regionId)
  }

  lemma {:induction false} PostsAreDue(assign: seq<Assign>, had: set<Key>)
    ensures forall p :: p in Posts(assign, had) <==> Due(assign, had, p)
  {
    if assign != [] {
      var n := |assign| - 1;
      PostsAreDue(assign[..n], had);
      assert assign == assign[..n] + [assign[n]];
    }
  }

  lemma {:induction false} PostsAreOnce(assign: seq<Assign>, had: set<Key>)
    requires forall i, j :: 0 <= i < j < |assign| ==> assign[i].node.oid != assign[j].node.oid
    ensures PostedOnce(Posts(assign, had))
  {
    if assign != [] {
      var n := |assign| - 1;
      var before, o := Posts(assign[..n], had), assign[n].node.oid;
      PostsAreOnce(assign[..n], had);
      PostsAreDue(assign[..n], had);
      forall i | 0 <= i < |before| ensures before[i].oid != o {
        assert before[i] in before;
        assert Due(assign[..n], had, before[i]);
      }
      OneMorePosted(before, LeaderRow(o, assign[n].regionId));
    }
  }

  ghost predicate PostedOnce(posted: seq<LeaderRow>)
  {
    forall i, j :: 0 <= i < j < |posted| ==> posted[i].oid != posted[j].oid
  }

  lemma OneMorePosted(posted: seq<LeaderRow>, p: LeaderRow)
    requires PostedOnce(posted) && forall i :: 0 <= i < |posted| ==> posted[i].oid != p.oid
    ensures PostedOnce(posted + [p]) && posted + [] == posted
  {
  }

  /** Of the first n, exactly those are without an error whose request was sent and served and who led
      nothing: the k-th goes out after those sent before it. */
  ghost predicate ErrorsSay(fate: nat -> Fate, sent: nat, was: Rows, assign: seq<Assign>, n: nat, had: set<Key>, errors: set<Key>)
  {
    && n <= |assign|
    && forall k :: 0 <= k < n ==> ErrorSays(fate, sent, was, assign, k, had, errors)
  }

  ghost predicate ErrorSays(fate: nat -> Fate, sent: nat, was: Rows, assign: seq<Assign>, k: nat, had: set<Key>, errors: set<Key>)
  {
    && k < |assign|
    && var a := assign[k];
    a.node.oid !in errors <==>
      MayPost(a, had) && fate(sent + |Posts(assign[..k], had)|) == Served && LeaderAt(was, a.node.oid) == None
  }

  lemma OneMoreSays(fate: nat -> Fate, sent: nat, was: Rows, assign: seq<Assign>, n: nat, m: nat, had: set<Key>, wereErrors: set<Key>, errors: set<Key>)
    requires n < |assign| && m == n + 1 && ErrorsSay(fate, sent, was, assign, n, had, wereErrors)
    requires ErrorSays(fate, sent, was, assign, n, had, errors)
    requires wereErrors <= errors <= wereErrors + {assign[n].node.oid}
    requires forall i, j :: 0 <= i < j < |assign| ==> assign[i].node.oid != assign[j].node.oid
    ensures ErrorsSay(fate, sent, was, assign, m, had, errors)
  {
    forall k | 0 <= k < n ensures ErrorSays(fate, sent, was, assign, k, had, errors) {
      assert ErrorSays(fate, sent, was, assign, k, had, wereErrors);
    }
  }

  /** One assign: nothing is sent for someone with an error or without an email. */
  method AssignOne(server: Server, a: Assign, ghost had: set<Key>, errors: set<Key>) returns (errors': set<Key>)
    requires server.Valid() && (a.node.oid in errors <==> a.node.oid in had)
    modifies server
    ensures server.Valid() && errors <= errors' <= errors + {a.node.oid}
    ensures server.posted == old(server.posted) + if MayPost(a, had) then [LeaderRow(a.node.oid, a.regionId)] else []
    ensures server.sent == old(server.sent) + if MayPost(a, had) then 1 else 0
    ensures a.node.oid !in errors' <==>
      MayPost(a, had) && server.fate(old(server.sent)) == Served && LeaderAt(old(server.rows), a.node.oid) == None
    ensures forall o :: o != a.node.oid ==> LeaderAt(server.rows, o) == LeaderAt(old(server.rows), o)
    ensures a.node.oid !in errors' ==> LeaderAt(server.rows, a.node.oid) == Some(a.regionId)
    ensures !MayPost(a, had) ==> a.node.oid in errors' && LeaderAt(server.rows, a.node.oid) == LeaderAt(old(server.rows), a.node.oid)
  {
    errors' := errors;
    if a.node.oid !in errors {
      if !HasEmail(a.node) {
        errors' := errors + {a.node.oid};
      } else {
        var ok := server.Post(a.regionId, a.node.oid);
        if !ok { errors' := errors + {a.node.oid}; }
      }
    }
  }

  method AssignAll(server: Server, assign: seq<Assign>, had: set<Key>) returns (errors: set<Key>)
    requires server.Valid() && forall i, j :: 0 <= i < j < |assign| ==> assign[i].node.oid != assign[j].node.oid
    modifies server
    ensures server.Valid()
    ensures forall o: Key :: AssignedSoFar(old(server.rows), server.rows, assign, |assign|, had, errors, o)
    ensures server.posted == old(server.posted) + Posts(assign, had)
    ensures ErrorsSay(server.fate, old(server.sent), old(server.rows), assign, |assign|, had, errors)
  {
    errors := had;
    for i := 0 to |assign|
      invariant server.Valid() && server.posted == old(server.posted) + Posts(assign[..i], had)
      invariant server.sent == old(server.sent) + |Posts(assign[..i], had)|
      invariant ErrorsSay(server.fate, old(server.sent), old(server.rows), assign, i, had, errors)
      invariant forall o: Key :: AssignedSoFar(old(server.rows), server.rows, assign, i, had, errors, o)
    {
      ghost var before, wereErrors := server.rows, errors;
      var a := assign[i];
      assert a in assign && !AssignedIn(assign, i, a.node.oid);
      assert AssignedSoFar(old(server.rows), before, assign, i, had, wereErrors, a.node.oid);
      assert assign[..i + 1][..i] == assign[..i];
      errors := AssignOne(server, a, had, errors);
      OneMoreSays(server.fate, old(server.sent), old(server.rows), assign, i, i + 1, had, wereErrors, errors);
      OneAssigned(old(server.rows), before, server.rows, assign, i, i + 1, had, wereErrors, errors);
    }
    assert assign[..|assign|] == assign;
  }

  lemma OneAssigned(was: Rows, before: Rows, now: Rows, assign: seq<Assign>, i: nat, n: nat, had: set<Key>, wereErrors: set<Key>, errors: set<Key>)
    requires i < |assign| && n == i + 1 && !AssignedIn(assign, i, assign[i].node.oid)
    requires forall o: Key :: AssignedSoFar(was, before, assign, i, had, wereErrors, o)
    requires wereErrors <= errors <= wereErrors + {assign[i].node.oid}
    requires forall o :: o != assign[i].node.oid ==> LeaderAt(now, o) == LeaderAt(before, o)
    requires assign[i].node.oid !in errors ==> LeaderAt(now, assign[i].node.oid) == Some(assign[i].regionId)
    requires var o := assign[i].node.oid; !MayPost(assign[i], had) ==> o in errors && LeaderAt(now, o) == LeaderAt(before, o)
    ensures forall o: Key :: AssignedSoFar(was, now, assign, n, had, errors, o)
  {
    forall o: Key ensures AssignedSoFar(was, now, assign, n, had, errors, o) {
      assert AssignedSoFar(was, before, assign, i, had, wereErrors, o);
      assert AssignedIn(assign, i, o) ==> AssignedIn(assign, n, o);
      assert assign[i].node.oid == o ==> AssignedIn(assign, n, o);
    }
  }

  // ------------------------------------------------------------------ the save

  /** What the tree shows of this person is what the server has. */
  ghost predicate Accurate(byOid: Index, rows: Rows, o: Key)
  {
    o in byOid && byOid[o].leaderOf == LeaderAt(rows, o)
  }

  predicate Saved(submitted: LeaderChoices, errors: set<Key>, o: Key, pick: Option<Key>)
  {
    o !in errors && o in submitted && submitted[o] == pick
  }

  /** What the server had before the save and the tree shows agree well enough for this pick: on an
      unchanged pick the server already has it; a person no longer to lead was leading the region the
      tree shows, or none; a person to lead a region is always all right. */
  ghost predicate TreeWillDo(byOid: Index, submitted: LeaderChoices, was: Rows, o: Key)
  {
    && o in submitted
    && (if !Changed(byOid, submitted, o) then LeaderAt(was, o) == submitted[o]
      else submitted[o].Some? || LeaderAt(was, o) in {None, byOid[o].leaderOf})
  }

  /** A submitted pick that drew no error is the server's state exactly when the tree was good enough. */
  lemma SavedIsServed(byOid: Index, submitted: LeaderChoices, revoke: seq<Revoke>, assign: seq<Assign>,
      was: Rows, between: Rows, now: Rows, had: set<Key>, errors: set<Key>, o: Key)
    requires Revokes(byOid, submitted, revoke) && Assigns(byOid, submitted, assign)
    requires RevokedSoFar(was, between, revoke, |revoke|, had, o)
    requires AssignedSoFar(between, now, assign, |assign|, had, errors, o)
    requires o in submitted && o !in errors && OwnIds(byOid)
    ensures LeaderAt(now, o) == submitted[o] <==> TreeWillDo(byOid, submitted, was, o)
  {
    if Changed(byOid, submitted, o) && submitted[o].Some? {
      assert Assign(byOid[o], submitted[o].value) in assign;
      var k :| 0 <= k < |assign| && assign[k] == Assign(byOid[o], submitted[o].value);
    } else if Changed(byOid, submitted, o) {
      assert Revoke(o, byOid[o].leaderOf.value) in revoke;
      var k :| 0 <= k < |revoke| && revoke[k] == Revoke(o, byOid[o].leaderOf.value);
    }
  }

  /** Someone whose pick is not among the submitted changes is left alone. */
  lemma OthersUntouched(byOid: Index, submitted: LeaderChoices, revoke: seq<Revoke>, assign: seq<Assign>,
      was: Rows, between: Rows, now: Rows, had: set<Key>, errors: set<Key>, o: Key)
    requires Revokes(byOid, submitted, revoke) && Assigns(byOid, submitted, assign)
    requires RevokedSoFar(was, between, revoke, |revoke|, had, o)
    requires AssignedSoFar(between, now, assign, |assign|, had, errors, o)
    requires !Changed(byOid, submitted, o)
    ensures LeaderAt(now, o) == LeaderAt(was, o) && o !in errors
  {
  }

  /** Someone with a changed pick leads nothing once the revokes have gone through, exactly when they led
      nothing or what the tree shows. */
  lemma FreeIffAccurate(byOid: Index, submitted: LeaderChoices, revoke: seq<Revoke>, was: Rows, between: Rows, o: Key)
    requires Revokes(byOid, submitted, revoke) && Changed(byOid, submitted, o)
    requires RevokedSoFar(was, between, revoke, |revoke|, {}, o)
    ensures LeaderAt(between, o) == None <==> LeaderAt(was, o) in {None, byOid[o].leaderOf}
  {
    var n := byOid[o];
    if n.leaderOf.Some? {
      assert Revoke(o, n.leaderOf.value) in revoke;
      var k :| 0 <= k < |revoke| && revoke[k] == Revoke(o, n.leaderOf.value);
    }
  }

  /** Someone to be made a leader who has no email, or leads a region that the tree does not show. */
  ghost predicate InTheWay(rows: Rows, byOid: Index, submitted: LeaderChoices, o: Key)
  {
    && Changed(byOid, submitted, o) && submitted[o].Some?
    && (!HasEmail(byOid[o]) || LeaderAt(rows, o) !in {None, byOid[o].leaderOf})
  }

  /** Nothing stands in the way: every request is served, and nobody is in the way of their own pick. */
  ghost predicate AllClear(server: Server, rows: Rows, byOid: Index, submitted: LeaderChoices)
  {
    && (forall k :: server.fate(k) == Served)
    && forall o :: !InTheWay(rows, byOid, submitted, o)
  }

  /** The picks of the page. */
  class Draft {
    var leaderChoices: LeaderChoices
    var leaderErrors: set<Key>

    constructor ()
      ensures leaderChoices == map[] && leaderErrors == {}
    {
      leaderChoices, leaderErrors := map[], {};
    }

    method SetLeader(oid: Key, regionId: Option<Key>)
      modifies this`leaderChoices
      ensures leaderChoices == old(leaderChoices)[oid := regionId]
    {
      leaderChoices := leaderChoices[oid := regionId];
    }

    /** A save during which the picks come to read `later`.
        No edit is lost: for everyone the tree shows as the server has them, each pick still made at the
        end is either the server's state or still in the draft. Only picks that can be served are posted;
        one for someone without an email is an error and stays. When the save is done, everyone the tree
        shows as the server has them is as the submitted picks ask. */
    method SaveLeaders(nodes: seq<Node>, server: Server, later: LeaderChoices) returns (done: bool)
      requires server.Valid()
      modifies this, server
      ensures server.Valid()
      ensures NoEditLost(IndexNodes(nodes), old(server.rows), server.rows, old(leaderChoices),
        EditedTo(IndexNodes(nodes), old(leaderChoices), later), leaderChoices)
      ensures OthersKept(IndexNodes(nodes), old(server.rows), server.rows, old(leaderChoices))
      ensures (exists o :: Changed(IndexNodes(nodes), old(leaderChoices), o)) ==>
        KeptExactly(old(leaderChoices), leaderErrors, later, leaderChoices) && done == (leaderErrors == {})
      ensures old(server.posted) <= server.posted
      ensures AllSent(IndexNodes(nodes), old(leaderChoices), leaderErrors, server.posted[|old(server.posted)|..])
      ensures forall o :: NoEmail(IndexNodes(nodes), old(leaderChoices), o) ==>
        !done && o in leaderErrors && (o in later ==> o in leaderChoices) && LeaderAt(server.rows, o) in {None, LeaderAt(old(server.rows), o)}
      ensures done ==> AllSaved(IndexNodes(nodes), old(server.rows), server.rows, old(leaderChoices))
      ensures (exists o :: Changed(IndexNodes(nodes), old(leaderChoices), o)) && (forall k :: server.fate(k) == Served) ==>
        forall o :: o in leaderErrors <==> InTheWay(old(server.rows), IndexNodes(nodes), old(leaderChoices), o)
      ensures AllClear(server, old(server.rows), IndexNodes(nodes), old(leaderChoices)) ==> done
    {
      var submitted := leaderChoices;
      var byOid := IndexNodes(nodes);
      forall o | o in byOid ensures byOid[o].oid == o { IndexedUnderOwnId(nodes, o); }
      var revoke, assign := LeaderDiff(byOid, submitted);
      NothingToSend(byOid, submitted, revoke, assign);
      if revoke == [] && assign == [] {
        forall o | Accurate(byOid, server.rows, o) ensures byOid[o].leaderOf == EffectiveLeaderRegion(byOid[o], submitted) {
          assert !Changed(byOid, submitted, o);
        }
        return true;
      }
      ghost var was := server.rows;
      var had, _ := RevokeAll(server, revoke);
      ghost var between, sent := server.rows, server.sent;
      var errors := AssignAll(server, assign, had);
      leaderChoices := later;
      leaderChoices := Kept(submitted, errors, leaderChoices);
      leaderErrors := errors;
      done := errors == {};
      SaveOutcome(byOid, submitted, revoke, assign, was, between, server.rows, had, errors, later);
      WhatWasSent(byOid, submitted, revoke, assign, was, between, server.rows, had, errors);
      if forall k :: server.fate(k) == Served {
        WhenAllAreServed(server.fate, sent, byOid, submitted, revoke, assign, was, between, server.rows, errors);
      }
    }
  }

  /** A changed pick that makes someone without an email a leader. */
  predicate NoEmail(byOid: Index, submitted: LeaderChoices, o: Key)
  {
    Changed(byOid, submitted, o) && submitted[o].Some? && !HasEmail(byOid[o])
  }

  /** Only changed picks that name a region for someone with an email are posted, each once, and all of
      those without an error are. */
  ghost predicate AllSent(byOid: Index, submitted: LeaderChoices, errors: set<Key>, posted: seq<LeaderRow>)
  {
    && (forall p :: p in posted ==> Wanted(byOid, submitted, p))
    && (forall p :: Wanted(byOid, submitted, p) && p.oid !in errors ==> p in posted)
    && PostedOnce(posted)
  }

  predicate Wanted(byOid: Index, submitted: LeaderChoices, p: LeaderRow)
  {
    Changed(byOid, submitted, p.oid) && submitted[p.oid] == Some(p.regionId) && HasEmail(byOid[p.oid])
  }

  lemma WhatWasSent(byOid: Index, submitted: LeaderChoices, revoke: seq<Revoke>, assign: seq<Assign>,
      was: Rows, between: Rows, now: Rows, had: set<Key>, errors: set<Key>)
    requires OwnIds(byOid) && Revokes(byOid, submitted, revoke) && Assigns(byOid, submitted, assign)
    requires forall o: Key :: RevokedSoFar(was, between, revoke, |revoke|, had, o)
    requires forall o: Key :: AssignedSoFar(between, now, assign, |assign|, had, errors, o)
    ensures AllSent(byOid, submitted, errors, Posts(assign, had))
    ensures forall o :: NoEmail(byOid, submitted, o) ==> o in errors && LeaderAt(now, o) in {None, LeaderAt(was, o)}
  {
    PostsAreDue(assign, had);
    PostsAreOnce(assign, had);
    forall p | Wanted(byOid, submitted, p) && p.oid !in errors ensures p in Posts(assign, had) {
      var a := Assign(byOid[p.oid], p.regionId);
      assert AssignedSoFar(between, now, assign, |assign|, had, errors, p.oid);
      assert a in assign && MayPost(a, had);
    }
    forall o | NoEmail(byOid, submitted, o) ensures o in errors && LeaderAt(now, o) in {None, LeaderAt(was, o)} {
      var a := Assign(byOid[o], submitted[o].value);
      assert a in assign && !MayPost(a, had);
      var k :| 0 <= k < |assign| && assign[k] == a;
      assert assign[k].node.oid == o && RevokedSoFar(was, between, revoke, |revoke|, had, o);
      assert AssignedSoFar(between, now, assign, |assign|, had, errors, o);
    }
  }

  /** The picks still held are the picks made last, except those that are as they were sent and drew no error. */
  ghost predicate KeptExactly(submitted: LeaderChoices, errors: set<Key>, later: LeaderChoices, kept: LeaderChoices)
  {
    && (forall o :: o in later ==> (o !in kept <==> o in submitted && submitted[o] == later[o] && o !in errors))
    && (forall o :: o in kept ==> o in later && kept[o] == later[o])
  }

  function Kept(submitted: LeaderChoices, errors: set<Key>, picks: LeaderChoices): LeaderChoices
  {
    map o | o in picks && !Saved(submitted, errors, o, picks[o]) :: picks[o]
  }

  lemma SaveOutcome(byOid: Index, submitted: LeaderChoices, revoke: seq<Revoke>, assign: seq<Assign>,
      was: Rows, between: Rows, now: Rows, had: set<Key>, errors: set<Key>, later: LeaderChoices)
    requires OwnIds(byOid) && Revokes(byOid, submitted, revoke) && Assigns(byOid, submitted, assign)
    requires forall o: Key :: RevokedSoFar(was, between, revoke, |revoke|, had, o)
    requires forall o: Key :: AssignedSoFar(between, now, assign, |assign|, had, errors, o)
    ensures NoEditLost(byOid, was, now, submitted, later, Kept(submitted, errors, later))
    ensures OthersKept(byOid, was, now, submitted)
    ensures errors == {} ==> AllSaved(byOid, was, now, submitted)
  {
    forall o | o in submitted && o !in errors
      ensures LeaderAt(now, o) == submitted[o] <==> TreeWillDo(byOid, submitted, was, o)
    {
      SavedIsServed(byOid, submitted, revoke, assign, was, between, now, had, errors, o);
    }
    forall o | !Changed(byOid, submitted, o) ensures LeaderAt(now, o) == LeaderAt(was, o) && o !in errors {
      OthersUntouched(byOid, submitted, revoke, assign, was, between, now, had, errors, o);
    }
    forall o | errors == {} && Accurate(byOid, was, o)
      ensures LeaderAt(now, o) == EffectiveLeaderRegion(byOid[o], submitted)
    {
      if o !in submitted { assert !Changed(byOid, submitted, o); }
    }
  }

  /** What the picks read when the save ends: nothing is awaited when there is nothing to send. */
  ghost function EditedTo(byOid: Index, submitted: LeaderChoices, later: LeaderChoices): LeaderChoices
  {
    if exists o :: Changed(byOid, submitted, o) then later else submitted
  }

  /** Each pick the draft still holds is the pick made last; a pick it no longer holds was submitted, and
      is the server's state exactly when the tree was good enough for it, as an accurate tree is. */
  ghost predicate NoEditLost(byOid: Index, was: Rows, now: Rows, submitted: LeaderChoices, picks: LeaderChoices, kept: LeaderChoices)
  {
    && (forall o :: o in kept ==> o in picks && kept[o] == picks[o])
    && (forall o :: o in picks && o !in kept ==> o in submitted && submitted[o] == picks[o])
    && (forall o :: o in picks && o !in kept ==> (LeaderAt(now, o) == picks[o] <==> TreeWillDo(byOid, submitted, was, o)))
    && (forall o :: o in picks && o !in kept && Accurate(byOid, was, o) ==> LeaderAt(now, o) == picks[o])
  }

  ghost predicate OthersKept(byOid: Index, was: Rows, now: Rows, submitted: LeaderChoices)
  {
    forall o :: !Changed(byOid, submitted, o) ==> LeaderAt(now, o) == LeaderAt(was, o)
  }

  ghost predicate AllSaved(byOid: Index, was: Rows, now: Rows, submitted: LeaderChoices)
  {
    forall o :: Accurate(byOid, was, o) ==> LeaderAt(now, o) == EffectiveLeaderRegion(byOid[o], submitted)
  }

  /** When every request is served, exactly those who are in the way of their own pick draw an error. */
  lemma WhenAllAreServed(fate: nat -> Fate, sent: nat, byOid: Index, submitted: LeaderChoices, revoke: seq<Revoke>, assign: seq<Assign>,
      was: Rows, between: Rows, now: Rows, errors: set<Key>)
    requires OwnIds(byOid) && Revokes(byOid, submitted, revoke) && Assigns(byOid, submitted, assign) && forall k :: fate(k) == Served
    requires forall o: Key :: RevokedSoFar(was, between, revoke, |revoke|, {}, o)
    requires forall o: Key :: AssignedSoFar(between, now, assign, |assign|, {}, errors, o)
    requires ErrorsSay(fate, sent, between, assign, |assign|, {}, errors)
    ensures forall o :: o in errors <==> InTheWay(was, byOid, submitted, o)
  {
    forall o ensures o in errors <==> InTheWay(was, byOid, submitted, o) {
      assert AssignedSoFar(between, now, assign, |assign|, {}, errors, o);
      if Changed(byOid, submitted, o) && submitted[o].Some? {
        FreeIffAccurate(byOid, submitted, revoke, was, between, o);
        var a := Assign(byOid[o], submitted[o].value);
        assert a in assign;
        var k :| 0 <= k < |assign| && assign[k] == a;
        assert ErrorSays(fate, sent, between, assign, k, {}, errors);
      } else {
        assert forall k :: 0 <= k < |assign| ==> assign[k] in assign;
      }
    }
  }

  lemma NothingToSend(byOid: Index, choices: LeaderChoices, revoke: seq<Revoke>, assign: seq<Assign>)
    requires Revokes(byOid, choices, revoke) && Assigns(byOid, choices, assign) && OwnIds(byOid)
    ensures revoke == [] && assign == [] <==> forall o :: !Changed(byOid, choices, o)
  {
    forall o | Changed(byOid, choices, o) ensures revoke != [] || assign != [] {
      var n := byOid[o];
      if n.leaderOf.Some? { assert Revoke(o, n.leaderOf.value) in revoke; }
      else { assert Assign(n, choices[o].value) in assign; }
    }
    if revoke != [] { assert revoke[0] in revoke; }
    if assign != [] { assert assign[0] in assign; }
  }

  /** The tree still shows someone leading one region after another admin has moved them to a second. A pick
      to make them no leader is saved without an error and leaves the draft, and they still lead. */
  method StaleTreeLosesAPick(o: Key, shown: Key, actual: Key) returns (draft: Draft, server: Server, done: bool)
    requires shown != actual
    ensures done && o !in draft.leaderChoices && draft.leaderErrors == {} && LeaderAt(server.rows, o).Some?
  {
    server := new Server(_ => Served);
    var ok := server.Post(actual, o);
    draft := new Draft();
    draft.SetLeader(o, None);
    var nodes := [Node(o, None, Some("someone@example.com"), 1, Some(shown), [])];
    assert nodes[..0] == [];
    assert IndexNodes(nodes) == map[o := nodes[0]];
    assert Changed(IndexNodes(nodes), draft.leaderChoices, o);
    done := draft.SaveLeaders(nodes, server, draft.leaderChoices);
  }
}
