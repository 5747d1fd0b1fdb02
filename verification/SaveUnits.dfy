/**
  Saving the drafted units of the setup page: parents before children, in bounded batches, against a
  server that may answer anything.
 */
module SaveUnits {
  import opened Wrappers
  import opened OrgTree

  const ORG_SETUP_UNITS_MAX: nat := 50

  datatype Draft = Draft(regionId: Key, name: string)

  type DraftUnits = map<Key, Draft>

  datatype UnitParent = Existing(orgUnitId: Key) | New(ownerOid: Key)

  datatype Item = Item(ownerOid: Key, name: string, regionId: Key, parentUnitId: Option<Key>)

  datatype Result = Created(ownerOid: Key, orgUnitId: Key) | Refused(ownerOid: Key, reason: string)

  datatype Reply = Throws | Answers(results: seq<Result>)

  const PARENT_NOT_CREATED := "parent-not-created"

  /** One save: the tree and the drafts it starts from, how names are trimmed, and the server, whose
      answer to a call may depend on every call made so far. */
  datatype Save = Save(nodes: seq<Node>, drafts: DraftUnits, trim: string -> string, answer: seq<seq<Item>> -> Reply)

  // ------------------------------------------------------------------ where a unit nests

  function OwnsIn(owns: seq<OwnedUnit>, regionId: Key): Option<OwnedUnit>
  {
    if owns == [] then None
    else if owns[0].regionId == regionId then Some(owns[0])
    else OwnsIn(owns[1..], regionId)
  }

  function ParentAt(a: Node, regionId: Key, drafts: DraftUnits): Option<UnitParent>
  {
    if a.oid in drafts && drafts[a.oid].regionId == regionId then Some(New(a.oid))
    else
      var own := OwnsIn(a.owns, regionId);
      if own.Some? then Some(Existing(own.value.orgUnitId)) else None
  }

  function NearestParent(managers: seq<Node>, regionId: Key, drafts: DraftUnits): Option<UnitParent>
  {
    if managers == [] then None
    else
      var here := ParentAt(managers[0], regionId, drafts);
      if here.Some? then here else NearestParent(managers[1..], regionId, drafts)
  }

  method NestUnder(nodes: seq<Node>, oid: Key, regionId: Key, drafts: DraftUnits) returns (parent: Option<UnitParent>)
    ensures parent == NearestParent(AncestorsOf(IndexNodes(nodes), oid), regionId, drafts)
  {
    var managers := Ancestors(IndexNodes(nodes), oid);
    for i := 0 to |managers|
      invariant NearestParent(managers, regionId, drafts) == NearestParent(managers[i..], regionId, drafts)
    {
      assert managers[i..][1..] == managers[i + 1..];
      parent := ParentAt(managers[i], regionId, drafts);
      if parent.Some? { return; }
    }
    parent := None;
  }

  /** The nearest manager that settles it, or none at all. */
  lemma {:induction false} NearestMeaning(managers: seq<Node>, regionId: Key, drafts: DraftUnits) returns (k: nat)
    ensures k <= |managers| && forall j :: 0 <= j < k ==> ParentAt(managers[j], regionId, drafts).None?
    ensures if k < |managers| then ParentAt(managers[k], regionId, drafts).Some?
        && NearestParent(managers, regionId, drafts) == ParentAt(managers[k], regionId, drafts)
      else NearestParent(managers, regionId, drafts).None?
  {
    if managers == [] || ParentAt(managers[0], regionId, drafts).Some? {
      k := 0;
    } else {
      k := NearestMeaning(managers[1..], regionId, drafts);
      k := k + 1;
    }
  }

  predicate DraftedIn(o: Key, regionId: Key, drafts: DraftUnits) { o in drafts && drafts[o].regionId == regionId }

  ghost predicate FirstOwnedIn(owns: seq<OwnedUnit>, regionId: Key, id: Key)
  {
    exists i :: 0 <= i < |owns| && owns[i].regionId == regionId && owns[i].orgUnitId == id && forall j :: 0 <= j < i ==> owns[j].regionId != regionId
  }

  ghost predicate HasUnitIn(a: Node, regionId: Key, drafts: DraftUnits)
  {
    DraftedIn(a.oid, regionId, drafts) || exists u :: u in a.owns && u.regionId == regionId
  }

  lemma {:induction false} OwnsInMeaning(owns: seq<OwnedUnit>, regionId: Key)
    ensures var u := OwnsIn(owns, regionId);
      && (u.Some? ==> FirstOwnedIn(owns, regionId, u.value.orgUnitId))
      && (u.None? ==> forall i :: 0 <= i < |owns| ==> owns[i].regionId != regionId)
  {
    if owns != [] && owns[0].regionId != regionId {
      OwnsInMeaning(owns[1..], regionId);
      if OwnsIn(owns[1..], regionId).Some? {
        var id := OwnsIn(owns[1..], regionId).value.orgUnitId;
        var i :| 0 <= i < |owns[1..]| && owns[1..][i].regionId == regionId && owns[1..][i].orgUnitId == id
          && forall j :: 0 <= j < i ==> owns[1..][j].regionId != regionId;
        assert owns[i + 1].regionId == regionId;
      }
    }
  }

  /** A unit nests under the nearest manager who has one drafted or owns one in its region: under the drafted
      one if there is one, else under the first that is owned. With no such manager it nests under nothing. */
  lemma NestsUnderNearest(managers: seq<Node>, regionId: Key, drafts: DraftUnits) returns (k: nat)
    ensures k <= |managers| && forall j :: 0 <= j < k ==> !HasUnitIn(managers[j], regionId, drafts)
    ensures k == |managers| <==> NearestParent(managers, regionId, drafts).None?
    ensures k < |managers| ==> var a, parent := managers[k], NearestParent(managers, regionId, drafts);
      && (parent == Some(New(a.oid)) <==> DraftedIn(a.oid, regionId, drafts))
      && (!DraftedIn(a.oid, regionId, drafts) ==> parent.Some? && parent.value.Existing? && FirstOwnedIn(a.owns, regionId, parent.value.orgUnitId))
  {
    k := NearestMeaning(managers, regionId, drafts);
    forall j | 0 <= j < k ensures !HasUnitIn(managers[j], regionId, drafts) { OwnsInMeaning(managers[j].owns, regionId); }
    if k < |managers| { OwnsInMeaning(managers[k].owns, regionId); }
  }

  function ParentFor(s: Save, o: Key): Option<UnitParent>
    requires o in s.drafts
  {
    NearestParent(AncestorsOf(IndexNodes(s.nodes), o), s.drafts[o].regionId, s.drafts)
  }

  // ------------------------------------------------------------------ what a call may say

  function Flat(posts: seq<seq<Item>>): seq<Item>
  {
    if posts == [] then [] else Flat(posts[..|posts| - 1]) + posts[|posts| - 1]
  }

  function Owners(items: seq<Item>): set<Key>
  {
    set i | 0 <= i < |items| :: items[i].ownerOid
  }

  ghost predicate OncePerOwner(items: seq<Item>)
  {
    forall i, j :: 0 <= i < j < |items| ==> items[i].ownerOid != items[j].ownerOid
  }

  /** One of the first n calls was answered with this unit for this owner. */
  ghost predicate Told(s: Save, posts: seq<seq<Item>>, n: nat, o: Key, id: Key)
  {
    exists m :: 0 <= m < n && ToldBy(s, posts, m, o, id)
  }

  ghost predicate ToldBy(s: Save, posts: seq<seq<Item>>, m: nat, o: Key, id: Key)
  {
    m < |posts| &&
    var r := s.answer(posts[..m + 1]);
    r.Answers? && Created(o, id) in r.results
  }

  /** An item of call j is its draft's, under the parent it nests under: none, the existing unit, or
      the unit an earlier call said was created for the drafted parent. */
  ghost predicate Justified(s: Save, posts: seq<seq<Item>>, j: nat, it: Item)
  {
    && it.ownerOid in s.drafts
    && it.name == s.trim(s.drafts[it.ownerOid].name) && it.regionId == s.drafts[it.ownerOid].regionId
    && match ParentFor(s, it.ownerOid)
       case None => it.parentUnitId == None
       case Some(Existing(id)) => it.parentUnitId == Some(id)
       case Some(New(q)) => it.parentUnitId.Some? && Told(s, posts, j, q, it.parentUnitId.value)
  }

  ghost predicate CallOk(s: Save, posts: seq<seq<Item>>, j: nat)
  {
    && j < |posts|
    && 0 < |posts[j]| <= ORG_SETUP_UNITS_MAX
    && forall k :: 0 <= k < |posts[j]| ==> Justified(s, posts, j, posts[j][k])
  }

  /** Every call is bounded and justified, and no owner is ever posted twice. */
  ghost predicate CallsOk(s: Save, posts: seq<seq<Item>>)
  {
    && (forall j :: 0 <= j < |posts| ==> CallOk(s, posts, j))
    && OncePerOwner(Flat(posts))
  }

  lemma ToldLater(s: Save, posts: seq<seq<Item>>, b: seq<Item>, n: nat, o: Key, id: Key)
    requires n <= |posts| && Told(s, posts, n, o, id)
    ensures Told(s, posts + [b], n, o, id) && Told(s, posts + [b], |posts|, o, id)
  {
    var m :| 0 <= m < n && ToldBy(s, posts, m, o, id);
    assert (posts + [b])[..m + 1] == posts[..m + 1];
    assert ToldBy(s, posts + [b], m, o, id);
  }

  lemma CallStaysOk(s: Save, posts: seq<seq<Item>>, b: seq<Item>, j: nat)
    requires j < |posts| && CallOk(s, posts, j)
    ensures CallOk(s, posts + [b], j)
  {
    forall k | 0 <= k < |posts[j]| ensures Justified(s, posts + [b], j, posts[j][k]) {
      var it := posts[j][k];
      assert Justified(s, posts, j, it);
      var p := ParentFor(s, it.ownerOid);
      if p.Some? && p.value.New? { ToldLater(s, posts, b, j, p.value.ownerOid, it.parentUnitId.value); }
    }
  }

  lemma OneMoreCall(s: Save, posts: seq<seq<Item>>, b: seq<Item>)
    requires CallsOk(s, posts) && BatchOk(s, posts, b)
    requires OncePerOwner(b) && Owners(b) !! Owners(Flat(posts))
    ensures CallsOk(s, posts + [b])
    ensures Owners(Flat(posts + [b])) == Owners(Flat(posts)) + Owners(b)
  {
    var posts' := posts + [b];
    assert posts'[..|posts|] == posts;
    assert Flat(posts') == Flat(posts) + b;
    OwnersOfBoth(Flat(posts), b);
    forall j | 0 <= j < |posts| ensures CallOk(s, posts', j) { CallStaysOk(s, posts, b, j); }
    NewCallOk(s, posts, b);
  }

  ghost predicate BatchOk(s: Save, posts: seq<seq<Item>>, b: seq<Item>)
  {
    0 < |b| <= ORG_SETUP_UNITS_MAX && forall k :: 0 <= k < |b| ==> Justified(s, posts, |posts|, b[k])
  }

  lemma NewCallOk(s: Save, posts: seq<seq<Item>>, b: seq<Item>)
    requires BatchOk(s, posts, b)
    ensures CallOk(s, posts + [b], |posts|)
  {
    forall k | 0 <= k < |b| ensures Justified(s, posts + [b], |posts|, b[k]) {
      assert Justified(s, posts, |posts|, b[k]);
      var p := ParentFor(s, b[k].ownerOid);
      if p.Some? && p.value.New? { ToldLater(s, posts, b, |posts|, p.value.ownerOid, b[k].parentUnitId.value); }
    }
  }

  lemma OwnersOfBoth(a: seq<Item>, b: seq<Item>)
    ensures Owners(a + b) == Owners(a) + Owners(b)
    ensures OncePerOwner(a) && OncePerOwner(b) && Owners(a) !! Owners(b) ==> OncePerOwner(a + b)
  {
    forall o | o in Owners(a) + Owners(b) ensures o in Owners(a + b) {
      if i :| 0 <= i < |a| && a[i].ownerOid == o { assert (a + b)[i].ownerOid == o; }
      else { var i :| 0 <= i < |b| && b[i].ownerOid == o; assert (a + b)[|a| + i].ownerOid == o; }
    }
    if OncePerOwner(a) && OncePerOwner(b) && Owners(a) !! Owners(b) {
      forall i, j | 0 <= i < j < |a + b| ensures (a + b)[i].ownerOid != (a + b)[j].ownerOid {
        if i < |a| <= j {
          assert a[i].ownerOid in Owners(a) && b[j - |a|].ownerOid in Owners(b);
        }
      }
    }
  }

  // ------------------------------------------------------------------ what a save has done so far

  /** The calls made, the results noted, and the units the server said it created. */
  datatype Progress = Progress(posts: seq<seq<Item>>, results: map<Key, Result>, created: map<Key, Key>)

  function Posted(posts: seq<seq<Item>>): set<Key> { Owners(Flat(posts)) }

  /** It would nest under a drafted unit that does not exist. */
  predicate Blocked(s: Save, o: Key, created: map<Key, Key>)
  {
    o in s.drafts &&
    var p := ParentFor(s, o);
    p.Some? && p.value.New? && p.value.ownerOid !in created
  }

  function RefusedHere(o: Key): Result { Refused(o, PARENT_NOT_CREATED) }

  ghost predicate OnceEach(rs: seq<Result>)
  {
    forall i, j :: 0 <= i < j < |rs| ==> rs[i].ownerOid != rs[j].ownerOid
  }

  function ResultOwners(rs: seq<Result>): set<Key>
  {
    set i | 0 <= i < |rs| :: rs[i].ownerOid
  }

  /** Call j, when answered, got one result for each owner it posted and none for anyone else. */
  ghost predicate HonestAt(s: Save, posts: seq<seq<Item>>, j: nat)
  {
    j < |posts| &&
    var r := s.answer(posts[..j + 1]);
    r.Answers? ==> OnceEach(r.results) && ResultOwners(r.results) == Owners(posts[j])
  }

  ghost predicate HonestOn(s: Save, posts: seq<seq<Item>>)
  {
    forall j :: 0 <= j < |posts| ==> HonestAt(s, posts, j)
  }

  /** Every call before the n-th was answered. */
  ghost predicate Answered(s: Save, posts: seq<seq<Item>>, n: nat)
  {
    forall j :: 0 <= j < n ==> AnsweredAt(s, posts, j)
  }

  ghost predicate AnsweredAt(s: Save, posts: seq<seq<Item>>, j: nat)
  {
    && j < |posts|
    && s.answer(posts[..j + 1]).Answers?
  }

  /** Some call was answered with exactly this result. */
  ghost predicate Said(s: Save, posts: seq<seq<Item>>, r: Result)
  {
    exists m :: 0 <= m < |posts| && SaidBy(s, posts, m, r)
  }

  ghost predicate SaidBy(s: Save, posts: seq<seq<Item>>, m: nat, r: Result)
  {
    m < |posts| &&
    var a := s.answer(posts[..m + 1]);
    a.Answers? && r in a.results
  }

  /** Against any server: the calls are in order, what is held as created was said to be, and what was
      posted had a parent to nest under. */
  ghost predicate Sound(s: Save, g: Progress)
  {
    && CallsOk(s, g.posts)
    && (forall q :: q in g.created ==> Told(s, g.posts, |g.posts|, q, g.created[q]))
    && (forall o :: o in Posted(g.posts) ==> o in s.drafts && !Blocked(s, o, g.created))
  }

  /** The result of one draft is the server's word when it was posted, and otherwise a refusal made
      here because the draft it nests under has a result and was not created. */
  ghost predicate ResultOk(s: Save, g: Progress, o: Key)
  {
    && o in g.results
    && o in s.drafts && g.results[o].ownerOid == o
    && (o in Posted(g.posts) ==> Said(s, g.posts, g.results[o]))
    && (o !in Posted(g.posts) ==> RefusedFor(s, o, g.created, g.results))
  }

  /** Against an honest server: the two maps agree and every result is accounted for. */
  ghost predicate Settled(s: Save, g: Progress)
  {
    && (forall o :: o in g.created <==> o in g.results && g.results[o].Created?)
    && (forall o {:trigger ResultOk(s, g, o)} :: o in g.results ==> ResultOk(s, g, o))
  }

  /** What an answer said of one draft is held: it has a result, and a unit said to be created is
      remembered; from an honest server, both just as said. */
  ghost predicate Holds(g: Progress, r: Result, honest: bool)
  {
    && r.ownerOid in g.results && (r.Created? ==> r.ownerOid in g.created)
    && (honest ==> g.results[r.ownerOid] == r && (r.Created? ==> g.created[r.ownerOid] == r.orgUnitId))
  }

  ghost predicate HeardAt(s: Save, g: Progress, m: nat, honest: bool)
  {
    m < |g.posts| &&
    var a := s.answer(g.posts[..m + 1]);
    a.Answers? ==> forall r :: r in a.results ==> Holds(g, r, honest)
  }

  /** Everything that every answered call said is held. */
  ghost predicate Heard(s: Save, g: Progress)
  {
    forall m :: 0 <= m < |g.posts| ==> HeardAt(s, g, m, HonestOn(s, g.posts))
  }

  /** What was held still is: with an honest server unchanged. */
  ghost predicate Retains(g: Progress, g': Progress, honest: bool)
  {
    && g.results.Keys <= g'.results.Keys && g.created.Keys <= g'.created.Keys
    && (honest ==> forall o :: o in g.results ==> g'.results[o] == g.results[o])
    && (honest ==> forall o :: o in g.created ==> g'.created[o] == g.created[o])
  }

  lemma HeardLater(s: Save, g: Progress, g': Progress)
    requires Heard(s, g) && g.posts <= g'.posts && Retains(g, g', HonestOn(s, g'.posts))
    requires HonestOn(s, g'.posts) ==> HonestOn(s, g.posts)
    ensures forall m :: 0 <= m < |g.posts| ==> HeardAt(s, g', m, HonestOn(s, g'.posts))
  {
    forall m | 0 <= m < |g.posts| ensures HeardAt(s, g', m, HonestOn(s, g'.posts)) {
      assert HeardAt(s, g, m, HonestOn(s, g.posts)) && g'.posts[..m + 1] == g.posts[..m + 1];
    }
  }

  /** One more answer is held with those before it. */
  lemma AnswerHeard(s: Save, g: Progress, b: seq<Item>, g': Progress, rs: seq<Result>)
    requires Heard(s, g) && g'.posts == g.posts + [b] && s.answer(g'.posts) == Answers(rs)
    requires Noted(g.results, g.created, rs, g'.results, g'.created)
    requires HonestOn(s, g'.posts) ==> g.created.Keys <= g.results.Keys && Owners(b) !! g.results.Keys
    ensures Heard(s, g')
  {
    var n := |g.posts|;
    var honest := HonestOn(s, g'.posts);
    assert g'.posts[..n + 1] == g'.posts;
    if honest { HonestBefore(s, g.posts, b); }
    OnlyOneEach(rs);
    HeardLater(s, g, g');
    forall r | r in rs ensures Holds(g', r, honest) {
      assert r.ownerOid in ResultOwners(rs);
    }
    assert HeardAt(s, g', n, honest);
  }

  lemma OnlyOneEach(rs: seq<Result>)
    ensures forall r :: r in rs ==> r.ownerOid in ResultOwners(rs)
    ensures OnceEach(rs) ==> forall r, q :: r in rs && q in rs && r.ownerOid == q.ownerOid ==> r == q
  {
    forall r | r in rs ensures r.ownerOid in ResultOwners(rs) {
      var k :| 0 <= k < |rs| && rs[k] == r;
    }
  }

  /** A call that throws says nothing and takes nothing away. */
  lemma ThrowHeard(s: Save, g: Progress, b: seq<Item>)
    requires Heard(s, g) && s.answer(g.posts + [b]).Throws?
    ensures Heard(s, g.(posts := g.posts + [b]))
  {
    var g' := g.(posts := g.posts + [b]);
    if HonestOn(s, g'.posts) { HonestBefore(s, g.posts, b); }
    HeardLater(s, g, g');
    assert g'.posts[..|g.posts| + 1] == g'.posts;
  }

  lemma SaidLater(s: Save, posts: seq<seq<Item>>, b: seq<Item>, r: Result)
    requires Said(s, posts, r)
    ensures Said(s, posts + [b], r)
  {
    var m :| 0 <= m < |posts| && SaidBy(s, posts, m, r);
    assert (posts + [b])[..m + 1] == posts[..m + 1];
    assert SaidBy(s, posts + [b], m, r);
  }

  lemma JustifiedLater(s: Save, posts: seq<seq<Item>>, b: seq<Item>, it: Item)
    requires Justified(s, posts, |posts|, it)
    ensures Justified(s, posts + [b], |posts| + 1, it)
  {
    var p := ParentFor(s, it.ownerOid);
    if p.Some? && p.value.New? {
      ToldLater(s, posts, b, |posts|, p.value.ownerOid, it.parentUnitId.value);
    }
  }

  lemma HonestBefore(s: Save, posts: seq<seq<Item>>, b: seq<Item>)
    requires HonestOn(s, posts + [b])
    ensures HonestOn(s, posts) && HonestAt(s, posts + [b], |posts|)
  {
    forall j | 0 <= j < |posts| ensures HonestAt(s, posts, j) {
      assert HonestAt(s, posts + [b], j);
      assert (posts + [b])[..j + 1] == posts[..j + 1];
    }
  }

  // ------------------------------------------------------------------ one round

  datatype Pending = Pending(ownerOid: Key, name: string, regionId: Key, parent: Option<UnitParent>)

  function Oids(ps: seq<Pending>): set<Key>
  {
    set i | 0 <= i < |ps| :: ps[i].ownerOid
  }

  ghost predicate PendingOk(s: Save, p: Pending)
  {
    && p.ownerOid in s.drafts
    && p.name == s.drafts[p.ownerOid].name && p.regionId == s.drafts[p.ownerOid].regionId
    && p.parent == ParentFor(s, p.ownerOid)
  }

  ghost predicate AllPending(s: Save, ps: seq<Pending>)
  {
    && (forall i :: 0 <= i < |ps| ==> PendingOk(s, ps[i]))
    && (forall i, j :: 0 <= i < j < |ps| ==> ps[i].ownerOid != ps[j].ownerOid)
  }

  lemma OnePending(ps: seq<Pending>, p: Pending)
    ensures Oids(ps + [p]) == Oids(ps) + {p.ownerOid}
  {
    forall o | o in Oids(ps) + {p.ownerOid} ensures o in Oids(ps + [p]) {
      if i :| 0 <= i < |ps| && ps[i].ownerOid == o { assert (ps + [p])[i].ownerOid == o; }
      else { assert (ps + [p])[|ps|].ownerOid == o; }
    }
  }

  lemma OneItem(items: seq<Item>, it: Item)
    requires OncePerOwner(items) && it.ownerOid !in Owners(items)
    ensures Owners(items + [it]) == Owners(items) + {it.ownerOid} && OncePerOwner(items + [it])
  {
    OwnersOfBoth(items, [it]);
    assert Owners([it]) == {it.ownerOid} by { assert [it][0] == it; }
  }

  /** The item a pending draft is sent as, once it has a parent to nest under. */
  ghost predicate Unblocked(s: Save, it: Item, created: map<Key, Key>)
  {
    && it.ownerOid in s.drafts && !Blocked(s, it.ownerOid, created)
    && it.name == s.trim(s.drafts[it.ownerOid].name) && it.regionId == s.drafts[it.ownerOid].regionId
    && match ParentFor(s, it.ownerOid)
       case None => it.parentUnitId == None
       case Some(Existing(id)) => it.parentUnitId == Some(id)
       case Some(New(q)) => q in created && it.parentUnitId == Some(created[q])
  }

  /** A round's pending drafts, sorted: to be sent now, or still waiting, with the refusals noted. */
  datatype Round = Round(ready: seq<Item>, wait: seq<Pending>, results: map<Key, Result>)

  /** What one round's sorting starts from. */
  datatype Start = Start(s: Save, pending: seq<Pending>, created: map<Key, Key>, was: map<Key, Result>)

  /** The first n pending drafts are each sendable, waiting or refused here, and nothing else changed. */
  ghost predicate Sorted(st: Start, n: nat, r: Round, refused: set<Key>)
  {
    && n <= |st.pending|
    && Oids(st.pending[..n]) == Owners(r.ready) + Oids(r.wait) + refused
    && Owners(r.ready) !! Oids(r.wait) && Owners(r.ready) !! refused && Oids(r.wait) !! refused
    && OncePerOwner(r.ready) && (forall i :: 0 <= i < |r.ready| ==> Unblocked(st.s, r.ready[i], st.created))
    && AllPending(st.s, r.wait)
    && (forall i :: 0 <= i < |r.wait| ==> Blocked(st.s, r.wait[i].ownerOid, st.created))
    && SortedResults(st, r.results, refused)
    && |r.ready| + |r.wait| <= n
  }

  ghost predicate SortedResults(st: Start, results: map<Key, Result>, refused: set<Key>)
  {
    && results.Keys == st.was.Keys + refused
    && (forall o :: o in results && o !in refused ==> results[o] == st.was[o])
    && (forall o {:trigger RefusedFor(st.s, o, st.created, results)} :: o in refused ==> RefusedFor(st.s, o, st.created, results))
  }

  ghost predicate RefusedFor(s: Save, o: Key, created: map<Key, Key>, results: map<Key, Result>)
  {
    && o in results
    && o in s.drafts && results[o] == RefusedHere(o) && Blocked(s, o, created)
    && ParentFor(s, o).value.ownerOid in results
  }

  /** The parent id that goes with a settled parent. */
  predicate FitsUnder(parent: Option<UnitParent>, created: map<Key, Key>, id: Option<Key>)
  {
    match parent
    case None => id == None
    case Some(Existing(u)) => id == Some(u)
    case Some(New(q)) => q in created && id == Some(created[q])
  }

  predicate WaitsFor(parent: Option<UnitParent>, created: map<Key, Key>)
  {
    parent.Some? && parent.value.New? && parent.value.ownerOid !in created
  }

  lemma NextPending(st: Start, n: nat, r: Round, refused: set<Key>)
    requires n < |st.pending| && AllPending(st.s, st.pending) && Sorted(st, n, r, refused)
    ensures Oids(st.pending[..n + 1]) == Oids(st.pending[..n]) + {st.pending[n].ownerOid}
    ensures st.pending[n].ownerOid !in Oids(st.pending[..n])
  {
    assert st.pending[..n + 1] == st.pending[..n] + [st.pending[n]];
    OnePending(st.pending[..n], st.pending[n]);
  }

  lemma SortReady(st: Start, n: nat, r: Round, refused: set<Key>, it: Item)
    requires n < |st.pending| && AllPending(st.s, st.pending) && Sorted(st, n, r, refused)
    requires var p := st.pending[n]; it == Item(p.ownerOid, st.s.trim(p.name), p.regionId, it.parentUnitId)
    requires FitsUnder(st.pending[n].parent, st.created, it.parentUnitId)
    ensures Sorted(st, n + 1, r.(ready := r.ready + [it]), refused)
  {
    assert PendingOk(st.s, st.pending[n]);
    assert Unblocked(st.s, it, st.created);
    NextPending(st, n, r, refused);
    OneItem(r.ready, it);
  }

  lemma SortWait(st: Start, n: nat, r: Round, refused: set<Key>)
    requires n < |st.pending| && AllPending(st.s, st.pending) && Sorted(st, n, r, refused)
    requires WaitsFor(st.pending[n].parent, st.created)
    ensures Sorted(st, n + 1, r.(wait := r.wait + [st.pending[n]]), refused)
  {
    NextPending(st, n, r, refused);
    assert PendingOk(st.s, st.pending[n]);
    OnePending(r.wait, st.pending[n]);
  }

  lemma SortRefused(st: Start, n: nat, r: Round, refused: set<Key>)
    requires n < |st.pending| && AllPending(st.s, st.pending) && Sorted(st, n, r, refused)
    requires WaitsFor(st.pending[n].parent, st.created) && st.pending[n].parent.value.ownerOid in r.results
    ensures var o := st.pending[n].ownerOid;
      Sorted(st, n + 1, r.(results := r.results[o := RefusedHere(o)]), refused + {o})
  {
    NextPending(st, n, r, refused);
    assert PendingOk(st.s, st.pending[n]);
    var o := st.pending[n].ownerOid;
    OneRefusal(st, r.results, refused, o);
  }

  lemma OneRefusal(st: Start, results: map<Key, Result>, refused: set<Key>, o: Key)
    requires SortedResults(st, results, refused)
    requires o in st.s.drafts && Blocked(st.s, o, st.created) && ParentFor(st.s, o).value.ownerOid in results
    ensures SortedResults(st, results[o := RefusedHere(o)], refused + {o})
  {
    var results' := results[o := RefusedHere(o)];
    forall p | p in refused + {o} ensures RefusedFor(st.s, p, st.created, results') {
      if p != o { assert RefusedFor(st.s, p, st.created, results); }
    }
  }

  method SortOne(st: Start, i: nat, r: Round, ghost refused: set<Key>) returns (r': Round, ghost refused': set<Key>)
    requires i < |st.pending| && AllPending(st.s, st.pending) && Sorted(st, i, r, refused)
    ensures Sorted(st, i + 1, r', refused')
  {
    refused' := refused;
    var p := st.pending[i];
    var item := Item(p.ownerOid, st.s.trim(p.name), p.regionId, None);
    if p.parent.None? {
      SortReady(st, i, r, refused, item);
      r' := r.(ready := r.ready + [item]);
    } else if p.parent.value.Existing? {
      item := item.(parentUnitId := Some(p.parent.value.orgUnitId));
      SortReady(st, i, r, refused, item);
      r' := r.(ready := r.ready + [item]);
    } else if p.parent.value.ownerOid in st.created {
      item := item.(parentUnitId := Some(st.created[p.parent.value.ownerOid]));
      SortReady(st, i, r, refused, item);
      r' := r.(ready := r.ready + [item]);
    } else if p.parent.value.ownerOid in r.results {
      SortRefused(st, i, r, refused);
      r' := r.(results := r.results[p.ownerOid := RefusedHere(p.ownerOid)]);
      refused' := refused + {p.ownerOid};
    } else {
      SortWait(st, i, r, refused);
      r' := r.(wait := r.wait + [p]);
    }
  }

  method Sort(st: Start) returns (r: Round, ghost refused: set<Key>)
    requires AllPending(st.s, st.pending)
    ensures Sorted(st, |st.pending|, r, refused)
  {
    r, refused := Round([], [], st.was), {};
    for i := 0 to |st.pending|
      invariant Sorted(st, i, r, refused)
    {
      r, refused := SortOne(st, i, r, refused);
    }
  }

  // ------------------------------------------------------------------ posting a round

  ghost predicate Remembered(rs: seq<Result>, created: map<Key, Key>)
  {
    forall r :: r in rs && r.Created? ==> r.ownerOid in created
  }

  /** Noting an answer: each owner it names has one of its results for them, the others are unchanged,
      and the units it says it created are remembered. */
  ghost predicate Noted(results: map<Key, Result>, created: map<Key, Key>, rs: seq<Result>,
      results': map<Key, Result>, created': map<Key, Key>)
  {
    && results'.Keys == results.Keys + ResultOwners(rs)
    && (forall o :: o in ResultOwners(rs) ==> results'[o] in rs && results'[o].ownerOid == o)
    && (forall o :: o in results && o !in ResultOwners(rs) ==> results'[o] == results[o])
    && created.Keys <= created'.Keys && Remembered(rs, created')
    && (forall o :: o in created' ==> (o in created && created'[o] == created[o]) || Created(o, created'[o]) in rs)
    && (OnceEach(rs) ==> forall o :: o in ResultOwners(rs) ==> (o in created' <==> o in created || results'[o].Created?))
  }

  method Note(results: map<Key, Result>, created: map<Key, Key>, rs: seq<Result>)
      returns (results': map<Key, Result>, created': map<Key, Key>)
    ensures Noted(results, created, rs, results', created')
  {
    results', created' := results, created;
    for i := 0 to |rs|
      invariant NotedSoFar(results, created, rs, i, results', created')
      invariant Remembered(rs[..i], created')
    {
      OneMoreNoted(results, created, rs, i, results', created');
      OneMoreRemembered(rs, i, created');
      results' := results'[rs[i].ownerOid := rs[i]];
      if rs[i].Created? { created' := created'[rs[i].ownerOid := rs[i].orgUnitId]; }
    }
    WholeAnswer(results, created, rs, results', created');
  }

  lemma WholeAnswer(results: map<Key, Result>, created: map<Key, Key>, rs: seq<Result>, results': map<Key, Result>, created': map<Key, Key>)
    requires NotedSoFar(results, created, rs, |rs|, results', created') && Remembered(rs[..|rs|], created')
    ensures Noted(results, created, rs, results', created')
  {
    assert rs[..|rs|] == rs;
  }

  lemma OneMoreRemembered(rs: seq<Result>, i: nat, created: map<Key, Key>)
    requires i < |rs| && Remembered(rs[..i], created)
    ensures Remembered(rs[..i + 1], if rs[i].Created? then created[rs[i].ownerOid := rs[i].orgUnitId] else created)
  {
    assert rs[..i + 1] == rs[..i] + [rs[i]];
  }

  ghost predicate NotedSoFar(results: map<Key, Result>, created: map<Key, Key>, rs: seq<Result>, i: nat,
      results': map<Key, Result>, created': map<Key, Key>)
  {
    && i <= |rs| && results'.Keys == results.Keys + ResultOwners(rs[..i])
    && (forall o :: o in ResultOwners(rs[..i]) ==> results'[o] in rs && results'[o].ownerOid == o)
    && (forall o :: o in results && o !in ResultOwners(rs[..i]) ==> results'[o] == results[o])
    && created.Keys <= created'.Keys <= created.Keys + ResultOwners(rs[..i])
    && (forall o :: o in created' ==> (o in created && created'[o] == created[o]) || Created(o, created'[o]) in rs)
    && (OnceEach(rs) ==> forall o :: o in ResultOwners(rs[..i]) ==> (o in created' <==> o in created || results'[o].Created?))
  }

  lemma OneMoreNoted(results: map<Key, Result>, created: map<Key, Key>, rs: seq<Result>, i: nat,
      results': map<Key, Result>, created': map<Key, Key>)
    requires i < |rs| && NotedSoFar(results, created, rs, i, results', created')
    ensures var o := rs[i].ownerOid;
      NotedSoFar(results, created, rs, i + 1, results'[o := rs[i]], if rs[i].Created? then created'[o := rs[i].orgUnitId] else created')
  {
    OneResult(rs, i);
  }

  lemma OneResult(rs: seq<Result>, i: nat)
    requires i < |rs|
    ensures ResultOwners(rs[..i + 1]) == ResultOwners(rs[..i]) + {rs[i].ownerOid}
    ensures OnceEach(rs) ==> rs[i].ownerOid !in ResultOwners(rs[..i])
  {
    assert rs[..i + 1][i] == rs[i];
    forall o | o in ResultOwners(rs[..i]) ensures o in ResultOwners(rs[..i + 1]) {
      var k :| 0 <= k < i && rs[..i][k].ownerOid == o;
      assert rs[..i + 1][k].ownerOid == o;
    }
  }

  /** Noting the answer to one more call keeps what is sound and, for an honest answer, settled. */
  lemma AnswerNoted(s: Save, g: Progress, b: seq<Item>, g': Progress, rs: seq<Result>)
    requires Sound(s, g) && CallsOk(s, g'.posts) && g'.posts == g.posts + [b]
    requires Posted(g'.posts) == Posted(g.posts) + Owners(b)
    requires forall k :: 0 <= k < |b| ==> b[k].ownerOid in s.drafts && !Blocked(s, b[k].ownerOid, g.created)
    requires s.answer(g'.posts) == Answers(rs)
    requires Noted(g.results, g.created, rs, g'.results, g'.created)
    ensures Sound(s, g')
  {
    assert g'.posts[..|g.posts| + 1] == g'.posts;
    forall q | q in g'.created ensures Told(s, g'.posts, |g'.posts|, q, g'.created[q]) {
      if q in g.created && g'.created[q] == g.created[q] {
        ToldLater(s, g.posts, b, |g.posts|, q, g.created[q]);
      } else {
        assert ToldBy(s, g'.posts, |g.posts|, q, g'.created[q]);
      }
    }
  }

  lemma AnswerSettles(s: Save, g: Progress, b: seq<Item>, g': Progress, rs: seq<Result>)
    requires Settled(s, g) && HonestOn(s, g'.posts) && g'.posts == g.posts + [b]
    requires Posted(g'.posts) == Posted(g.posts) + Owners(b)
    requires forall k :: 0 <= k < |b| ==> b[k].ownerOid in s.drafts && b[k].ownerOid !in g.results
    requires s.answer(g'.posts) == Answers(rs)
    requires Noted(g.results, g.created, rs, g'.results, g'.created)
    ensures Settled(s, g') && g'.results.Keys == g.results.Keys + Owners(b)
  {
    HonestBefore(s, g.posts, b);
    assert g'.posts[..|g.posts| + 1] == g'.posts;
    assert OnceEach(rs) && ResultOwners(rs) == Owners(b);
    forall r | r in rs ensures r.ownerOid in ResultOwners(rs) {
      var k :| 0 <= k < |rs| && rs[k] == r;
    }
    forall o | o in g'.results ensures ResultOk(s, g', o) {
      if o in Owners(b) {
        assert SaidBy(s, g'.posts, |g.posts|, g'.results[o]);
      } else {
        assert ResultOk(s, g, o);
        if o in Posted(g.posts) { SaidLater(s, g.posts, b, g.results[o]); }
      }
    }
  }

  /** The calls of a round in progress: g is where it started, ready[..i] has been posted. */
  ghost predicate Posting(s: Save, ready: seq<Item>, g: Progress, i: nat, g': Progress)
  {
    && i <= |ready|
    && Sound(s, g') && Heard(s, g') && Answered(s, g'.posts, |g'.posts|) && g.created.Keys <= g'.created.Keys
    && Posted(g'.posts) == Posted(g.posts) + Owners(ready[..i])
    && (forall k :: i <= k < |ready| ==> Justified(s, g'.posts, |g'.posts|, ready[k]))
    && g.results.Keys <= g'.results.Keys
    && (HonestOn(s, g'.posts) ==> PostingHonest(s, ready, g, i, g'))
  }

  ghost predicate PostingHonest(s: Save, ready: seq<Item>, g: Progress, i: nat, g': Progress)
  {
    && i <= |ready|
    && HonestOn(s, g.posts) && Settled(s, g')
    && g'.results.Keys == g.results.Keys + Owners(ready[..i])
  }

  ghost predicate RoundReady(s: Save, ready: seq<Item>, g: Progress)
  {
    && Sound(s, g) && Heard(s, g) && Answered(s, g.posts, |g.posts|)
    && OncePerOwner(ready) && Owners(ready) !! Posted(g.posts)
    && (forall i :: 0 <= i < |ready| ==> Unblocked(s, ready[i], g.created))
    && (HonestOn(s, g.posts) ==> Settled(s, g) && Owners(ready) !! g.results.Keys)
  }

  /** The round stopped at a call that threw. */
  ghost predicate Stopped(s: Save, ready: seq<Item>, g: Progress, g': Progress)
  {
    && Sound(s, g') && Heard(s, g') && Posted(g.posts) <= Posted(g'.posts) <= Posted(g.posts) + Owners(ready)
    && |g'.posts| > 0 && Answered(s, g'.posts, |g'.posts| - 1) && s.answer(g'.posts).Throws?
    && g.results.Keys <= g'.results.Keys
    && (HonestOn(s, g'.posts) ==> Settled(s, g'))
  }

  lemma SliceToPost(s: Save, ready: seq<Item>, g: Progress, i: nat, j: nat, g': Progress)
    requires RoundReady(s, ready, g) && i < j <= |ready| && j - i <= ORG_SETUP_UNITS_MAX
    requires Posting(s, ready, g, i, g')
    ensures var b := ready[i..j]; var posts := g'.posts + [b];
      && CallsOk(s, posts) && Posted(posts) == Posted(g'.posts) + Owners(b)
      && Posted(posts) == Posted(g.posts) + Owners(ready[..j]) && Owners(ready[..j]) <= Owners(ready)
      && Owners(ready[..j]) == Owners(ready[..i]) + Owners(b)
      && (forall k :: 0 <= k < |b| ==> b[k].ownerOid in s.drafts && !Blocked(s, b[k].ownerOid, g'.created))
      && (forall k :: j <= k < |ready| ==> Justified(s, posts, |posts|, ready[k]))
      && (HonestOn(s, g'.posts) ==> Owners(b) !! g'.results.Keys)
  {
    var b := ready[i..j];
    Slice(ready, i, j);
    OneMoreCall(s, g'.posts, b);
    forall k | j <= k < |ready| ensures Justified(s, g'.posts + [b], |g'.posts| + 1, ready[k]) {
      JustifiedLater(s, g'.posts, b, ready[k]);
    }
    forall k | 0 <= k < |b| ensures b[k].ownerOid in s.drafts && !Blocked(s, b[k].ownerOid, g'.created) {
      assert Unblocked(s, ready[i + k], g.created);
    }
  }

  /** The calls are the items in their order, as few to a round as the bound allows. */
  ghost predicate InSlices(items: seq<Item>, calls: seq<seq<Item>>)
  {
    && Flat(calls) <= items
    && forall c :: 0 <= c < |calls| ==> |calls[c]| == ORG_SETUP_UNITS_MAX || (c == |calls| - 1 && Flat(calls) == items)
  }

  /** The calls made since are the first i items, in slices. */
  ghost predicate SlicedFrom(items: seq<Item>, i: nat, was: seq<seq<Item>>, posts: seq<seq<Item>>)
  {
    && i <= |items| && was <= posts
    && InSlices(items, posts[|was|..]) && Flat(posts[|was|..]) == items[..i]
  }

  lemma OneMoreSlice(items: seq<Item>, i: nat, j: nat, was: seq<seq<Item>>, posts: seq<seq<Item>>)
    requires i < j <= |items| && SlicedFrom(items, i, was, posts)
    requires j - i == ORG_SETUP_UNITS_MAX || j == |items|
    ensures SlicedFrom(items, j, was, posts + [items[i..j]])
  {
    var calls, b := posts[|was|..], items[i..j];
    assert (posts + [b])[|was|..] == calls + [b] && (calls + [b])[..|calls|] == calls;
    assert items[..i] + b == items[..j];
    assert |items[..i]| < |items|;
  }

  lemma NoSliceYet(items: seq<Item>, was: seq<seq<Item>>)
    ensures SlicedFrom(items, 0, was, was)
  {
    var none: seq<seq<Item>> := [];
    assert was[|was|..] == none && Flat(none) == [] && items[..0] == [];
  }

  method PostAll(s: Save, ready: seq<Item>, g: Progress) returns (g': Progress, failed: bool)
    requires RoundReady(s, ready, g)
    ensures !failed ==> Posting(s, ready, g, |ready|, g')
    ensures failed ==> Stopped(s, ready, g, g')
    ensures exists i :: SlicedFrom(ready, i, g.posts, g'.posts) && (!failed ==> i == |ready|)
  {
    g', failed := g, false;
    var i := 0;
    NothingPosted(s, ready, g);
    NoSliceYet(ready, g.posts);
    while i < |ready|
      invariant 0 <= i <= |ready| && Posting(s, ready, g, i, g')
      invariant SlicedFrom(ready, i, g.posts, g'.posts)
    {
      var j := if i + ORG_SETUP_UNITS_MAX <= |ready| then i + ORG_SETUP_UNITS_MAX else |ready|;
      var b := ready[i..j];
      ghost var before := g';
      OneMoreSlice(ready, i, j, g.posts, g'.posts);
      g' := g'.(posts := g'.posts + [b]);
      var reply := s.answer(g'.posts);
      if reply.Throws? {
        SliceToPost(s, ready, g, i, j, before);
        Extended(s, before.posts, b);
        CallFailed(s, before, b);
        ThrowHeard(s, before, b);
        failed := true;
        return;
      }
      var results, created := Note(g'.results, g'.created, reply.results);
      g' := g'.(results := results, created := created);
      SlicePosted(s, ready, g, i, j, before, g', reply.results);
      i := j;
    }
  }

  lemma SlicePosted(s: Save, ready: seq<Item>, g: Progress, i: nat, j: nat, was: Progress, now: Progress, rs: seq<Result>)
    requires RoundReady(s, ready, g) && i < j <= |ready| && j - i <= ORG_SETUP_UNITS_MAX
    requires Posting(s, ready, g, i, was) && now.posts == was.posts + [ready[i..j]] && s.answer(now.posts) == Answers(rs)
    requires Noted(was.results, was.created, rs, now.results, now.created)
    ensures Posting(s, ready, g, j, now)
  {
    var b := ready[i..j];
    SliceToPost(s, ready, g, i, j, was);
    Extended(s, was.posts, b);
    AnswerNoted(s, was, b, now, rs);
    if HonestOn(s, now.posts) { HonestBefore(s, was.posts, b); }
    AnswerHeard(s, was, b, now, rs);
    if HonestOn(s, now.posts) {
      HonestBefore(s, was.posts, b);
      NotNotedYet(b, was.results);
      AnswerSettles(s, was, b, now, rs);
    }
  }

  lemma NotNotedYet(b: seq<Item>, results: map<Key, Result>)
    requires Owners(b) !! results.Keys
    ensures forall k :: 0 <= k < |b| ==> b[k].ownerOid !in results
  {
    forall k | 0 <= k < |b| ensures b[k].ownerOid !in results { assert b[k].ownerOid in Owners(b); }
  }

  lemma NothingPosted(s: Save, ready: seq<Item>, g: Progress)
    requires RoundReady(s, ready, g)
    ensures Posting(s, ready, g, 0, g)
  {
    assert Owners(ready[..0]) == {};
    forall k | 0 <= k < |ready| ensures Justified(s, g.posts, |g.posts|, ready[k]) {
      assert Unblocked(s, ready[k], g.created);
    }
  }

  lemma Slice(items: seq<Item>, i: nat, j: nat)
    requires i < j <= |items| && OncePerOwner(items)
    ensures OncePerOwner(items[i..j]) && Owners(items[i..j]) !! Owners(items[..i])
    ensures Owners(items[..j]) == Owners(items[..i]) + Owners(items[i..j])
    ensures Owners(items[..j]) <= Owners(items)
  {
    assert items[..j] == items[..i] + items[i..j];
    OwnersOfBoth(items[..i], items[i..j]);
    assert items == items[..j] + items[j..];
    OwnersOfBoth(items[..j], items[j..]);
  }

  lemma Extended(s: Save, posts: seq<seq<Item>>, b: seq<Item>)
    requires Answered(s, posts, |posts|)
    ensures Answered(s, posts + [b], |posts|)
    ensures s.answer(posts + [b]).Answers? ==> Answered(s, posts + [b], |posts| + 1)
  {
    forall j | 0 <= j < |posts| ensures AnsweredAt(s, posts + [b], j) {
      assert AnsweredAt(s, posts, j) && (posts + [b])[..j + 1] == posts[..j + 1];
    }
    assert (posts + [b])[..|posts| + 1] == posts + [b];
  }

  /** A call that throws leaves what is held as it was. */
  lemma CallFailed(s: Save, g: Progress, b: seq<Item>)
    requires Sound(s, g) && CallsOk(s, g.posts + [b]) && Posted(g.posts + [b]) == Posted(g.posts) + Owners(b)
    requires forall k :: 0 <= k < |b| ==> b[k].ownerOid in s.drafts && !Blocked(s, b[k].ownerOid, g.created)
    requires HonestOn(s, g.posts) ==> Settled(s, g) && Owners(b) !! g.results.Keys
    ensures Sound(s, g.(posts := g.posts + [b]))
    ensures HonestOn(s, g.posts + [b]) ==> HonestOn(s, g.posts) && Settled(s, g.(posts := g.posts + [b]))
  {
    var g' := g.(posts := g.posts + [b]);
    forall q | q in g.created ensures Told(s, g'.posts, |g'.posts|, q, g.created[q]) {
      ToldLater(s, g.posts, b, |g.posts|, q, g.created[q]);
    }
    if HonestOn(s, g'.posts) {
      HonestBefore(s, g.posts, b);
      forall o | o in g'.results ensures ResultOk(s, g', o) {
        assert ResultOk(s, g, o);
        if o in Posted(g.posts) { SaidLater(s, g.posts, b, g.results[o]); }
      }
    }
  }

  // ------------------------------------------------------------------ the whole save

  method Drafted(s: Save) returns (pending: seq<Pending>)
    ensures AllPending(s, pending) && Oids(pending) == s.drafts.Keys
  {
    pending := [];
    var left := s.drafts.Keys;
    while left != {}
      invariant AllPending(s, pending) && left <= s.drafts.Keys && Oids(pending) == s.drafts.Keys - left
      decreases left
    {
      var o :| o in left;
      var d := s.drafts[o];
      var parent := NestUnder(s.nodes, o, d.regionId, s.drafts);
      OnePending(pending, Pending(o, d.name, d.regionId, parent));
      pending := pending + [Pending(o, d.name, d.regionId, parent)];
      left := left - {o};
    }
  }

  /** Between rounds: nothing pending was posted, and every draft is pending, posted or has a result;
      with an honest server no pending draft has a result yet. */
  ghost predicate Between(s: Save, g: Progress, pending: seq<Pending>)
  {
    && Sound(s, g) && Heard(s, g) && Answered(s, g.posts, |g.posts|)
    && AllPending(s, pending) && Oids(pending) <= s.drafts.Keys && Oids(pending) !! Posted(g.posts)
    && s.drafts.Keys <= Oids(pending) + Posted(g.posts) + g.results.Keys
    && (HonestOn(s, g.posts) ==> BetweenHonest(s, g, pending))
  }

  ghost predicate BetweenHonest(s: Save, g: Progress, pending: seq<Pending>)
  {
    Settled(s, g) && Oids(pending) !! g.results.Keys && s.drafts.Keys == Oids(pending) + g.results.Keys
  }

  lemma RefusalsSettle(s: Save, g: Progress, refused: set<Key>, results: map<Key, Result>)
    requires Settled(s, g) && refused !! g.results.Keys && refused !! Posted(g.posts)
    requires results.Keys == g.results.Keys + refused
    requires forall o :: o in g.results ==> results[o] == g.results[o]
    requires forall o {:trigger RefusedFor(s, o, g.created, results)} :: o in refused ==> RefusedFor(s, o, g.created, results)
    ensures Settled(s, g.(results := results))
  {
    var g' := g.(results := results);
    forall o | o in results ensures ResultOk(s, g', o) {
      if o in g.results { assert ResultOk(s, g, o); } else { assert RefusedFor(s, o, g.created, results); }
    }
    forall o ensures o in g'.created <==> o in g'.results && g'.results[o].Created? {
      if o in refused { assert RefusedFor(s, o, g.created, results); }
    }
  }

  lemma RoundSorted(s: Save, g: Progress, pending: seq<Pending>, r: Round, refused: set<Key>)
    requires Between(s, g, pending)
    requires Sorted(Start(s, pending, g.created, g.results), |pending|, r, refused)
    ensures RoundReady(s, r.ready, g.(results := r.results))
    ensures Oids(pending) == Owners(r.ready) + Oids(r.wait) + refused
  {
    assert pending[..|pending|] == pending;
    if HonestOn(s, g.posts) { RefusalsSettle(s, g, refused, r.results); }
    HeardLater(s, g, g.(results := r.results));
  }

  lemma RoundDone(s: Save, g: Progress, pending: seq<Pending>, r: Round, refused: set<Key>, g': Progress)
    requires Between(s, g, pending)
    requires Sorted(Start(s, pending, g.created, g.results), |pending|, r, refused)
    requires Posting(s, r.ready, g.(results := r.results), |r.ready|, g')
    ensures Between(s, g', r.wait)
  {
    assert pending[..|pending|] == pending && r.ready[..|r.ready|] == r.ready;
  }

  /** A drafted parent is itself a draft. */
  lemma ParentIsDrafted(s: Save, o: Key)
    requires o in s.drafts && ParentFor(s, o).Some? && ParentFor(s, o).value.New?
    ensures ParentFor(s, o).value.ownerOid in s.drafts
  {
    var managers := AncestorsOf(IndexNodes(s.nodes), o);
    var k := NearestMeaning(managers, s.drafts[o].regionId, s.drafts);
  }

  method RefuseRest(s: Save, results: map<Key, Result>, wait: seq<Pending>) returns (results': map<Key, Result>)
    ensures results'.Keys == results.Keys + Oids(wait)
    ensures forall o :: o in results' ==> results'[o] == if o in Oids(wait) then RefusedHere(o) else results[o]
  {
    results' := results;
    for i := 0 to |wait|
      invariant results'.Keys == results.Keys + Oids(wait[..i])
      invariant forall o :: o in results' ==> results'[o] == if o in Oids(wait[..i]) then RefusedHere(o) else results[o]
    {
      assert wait[..i + 1] == wait[..i] + [wait[i]];
      OnePending(wait[..i], wait[i]);
      results' := results'[wait[i].ownerOid := RefusedHere(wait[i].ownerOid)];
    }
    assert wait[..|wait|] == wait;
  }

  /** Nothing can be sent: whoever still waits waits on a draft that was not created. */
  lemma RestRefused(s: Save, g: Progress, wait: seq<Pending>, results: map<Key, Result>)
    requires Between(s, g, wait) && forall i :: 0 <= i < |wait| ==> Blocked(s, wait[i].ownerOid, g.created)
    requires results.Keys == g.results.Keys + Oids(wait)
    requires forall o :: o in results ==> results[o] == if o in Oids(wait) then RefusedHere(o) else g.results[o]
    ensures Between(s, g.(results := results), [])
  {
    var none: seq<Pending> := [];
    assert Oids(none) == {};
    if HonestOn(s, g.posts) { RestSettles(s, g, wait, results); }
    HeardLater(s, g, g.(results := results));
  }

  lemma RestSettles(s: Save, g: Progress, wait: seq<Pending>, results: map<Key, Result>)
    requires AllPending(s, wait) && BetweenHonest(s, g, wait) && Oids(wait) !! Posted(g.posts)
    requires forall i :: 0 <= i < |wait| ==> Blocked(s, wait[i].ownerOid, g.created)
    requires results.Keys == g.results.Keys + Oids(wait)
    requires forall o :: o in results ==> results[o] == if o in Oids(wait) then RefusedHere(o) else g.results[o]
    ensures Settled(s, g.(results := results))
  {
    forall i | 0 <= i < |wait| ensures RefusedFor(s, wait[i].ownerOid, g.created, results) {
      assert wait[i].ownerOid in Oids(wait);
      WaiterRefused(s, g.created, wait, results, i);
    }
    RefusalsSettle(s, g, Oids(wait), results);
  }

  lemma WaiterRefused(s: Save, created: map<Key, Key>, wait: seq<Pending>, results: map<Key, Result>, i: nat)
    requires i < |wait| && PendingOk(s, wait[i]) && Blocked(s, wait[i].ownerOid, created)
    requires s.drafts.Keys <= results.Keys && results[wait[i].ownerOid] == RefusedHere(wait[i].ownerOid)
    ensures RefusedFor(s, wait[i].ownerOid, created, results)
  {
    ParentIsDrafted(s, wait[i].ownerOid);
  }

  /** When no call threw: any server leaves each draft posted or with a result; an honest one leaves
      each draft exactly one result, and a draft is posted exactly when the unit it nests under is
      none, an existing one, or a drafted one that was created. */
  ghost predicate Complete(s: Save, g: Progress)
  {
    && s.drafts.Keys <= Posted(g.posts) + g.results.Keys
    && (HonestOn(s, g.posts) ==> CompleteHonest(s, g))
  }

  ghost predicate CompleteHonest(s: Save, g: Progress)
  {
    && g.results.Keys == s.drafts.Keys
    && forall o :: o in s.drafts ==> (o in Posted(g.posts) <==> !Blocked(s, o, g.created))
  }

  lemma NothingPending(s: Save, g: Progress)
    requires Between(s, g, [])
    ensures Complete(s, g)
  {
    assert Oids([]) == {};
    if HonestOn(s, g.posts) {
      forall o | o in s.drafts ensures o in Posted(g.posts) <==> !Blocked(s, o, g.created) {
        assert ResultOk(s, g, o);
      }
    }
  }

  lemma NothingYet(s: Save, pending: seq<Pending>)
    requires AllPending(s, pending) && Oids(pending) == s.drafts.Keys
    ensures Between(s, Progress([], map[], map[]), pending)
  {
  }

  /** The save: it ends against any server, its calls are in order, it stops at the first call that
      throws and only there, it loses nothing an answered call said, and what it returns is complete when
      no call threw. */
  method SaveDraftUnits(s: Save) returns (g: Progress, failed: bool)
    ensures Sound(s, g) && Heard(s, g)
    ensures failed ==> |g.posts| > 0 && Answered(s, g.posts, |g.posts| - 1) && s.answer(g.posts).Throws?
    ensures !failed ==> Answered(s, g.posts, |g.posts|) && Complete(s, g)
    ensures HonestOn(s, g.posts) ==> Settled(s, g)
  {
    g, failed := Progress([], map[], map[]), false;
    var pending := Drafted(s);
    NothingYet(s, pending);
    while pending != []
      invariant Between(s, g, pending)
      decreases |pending|
    {
      var r, refused := Sort(Start(s, pending, g.created, g.results));
      RoundSorted(s, g, pending, r, refused);
      ghost var before := g;
      g := g.(results := r.results);
      if r.ready == [] {
        NothingPosted(s, r.ready, g);
        RoundDone(s, before, pending, r, refused, g);
        var rest := RefuseRest(s, g.results, r.wait);
        RestRefused(s, g, r.wait, rest);
        g := g.(results := rest);
        pending := [];
        break;
      }
      var next;
      next, failed := PostAll(s, r.ready, g);
      if failed { g := next; return; }
      RoundDone(s, before, pending, r, refused, next);
      g := next;
      pending := r.wait;
    }
    NothingPending(s, g);
  }

  // ------------------------------------------------------------------ drafts that wait on each other

  lemma {:induction false} InSomeCall(posts: seq<seq<Item>>, o: Key) returns (j: nat)
    requires o in Posted(posts)
    ensures j < |posts| && o in Owners(posts[j])
  {
    var n := |posts| - 1;
    OwnersOfBoth(Flat(posts[..n]), posts[n]);
    if o in Owners(posts[n]) { j := n; } else { j := InSomeCall(posts[..n], o); }
  }

  /** No draft of such a group is in the first n calls. */
  lemma {:induction false} NotInFirst(s: Save, posts: seq<seq<Item>>, group: set<Key>, n: nat)
    requires n <= |posts| && CallsOk(s, posts) && HonestOn(s, posts)
    requires forall o {:trigger WaitsWithin(s, o, group)} :: o in group ==> WaitsWithin(s, o, group)
    ensures forall j :: 0 <= j < n ==> Owners(posts[j]) !! group
  {
    if n > 0 {
      NotInFirst(s, posts, group, n - 1);
      assert CallOk(s, posts, n - 1);
      var last := posts[n - 1];
      forall k | 0 <= k < |last| ensures last[k].ownerOid !in group {
        NotThisItem(s, posts, group, n - 1, last[k]);
      }
    }
  }

  lemma NotThisItem(s: Save, posts: seq<seq<Item>>, group: set<Key>, n: nat, it: Item)
    requires n <= |posts| && HonestOn(s, posts) && Justified(s, posts, n, it)
    requires forall o {:trigger WaitsWithin(s, o, group)} :: o in group ==> WaitsWithin(s, o, group)
    requires forall j :: 0 <= j < n ==> Owners(posts[j]) !! group
    ensures it.ownerOid !in group
  {
    var p := ParentFor(s, it.ownerOid);
    if p.Some? && p.value.New? { ToldWasPosted(s, posts, n, p.value.ownerOid, it.parentUnitId.value); }
    assert it.ownerOid in group ==> WaitsWithin(s, it.ownerOid, group);
  }

  lemma ToldWasPosted(s: Save, posts: seq<seq<Item>>, n: nat, q: Key, id: Key)
    requires n <= |posts| && HonestOn(s, posts) && Told(s, posts, n, q, id)
    ensures exists m :: 0 <= m < n && q in Owners(posts[m])
  {
    var m :| 0 <= m < n && ToldBy(s, posts, m, q, id);
    assert HonestAt(s, posts, m);
    var rs := s.answer(posts[..m + 1]).results;
    var i :| 0 <= i < |rs| && rs[i] == Created(q, id);
    assert rs[i].ownerOid in ResultOwners(rs);
  }

  ghost predicate WaitsWithin(s: Save, o: Key, group: set<Key>)
  {
    && o in s.drafts && ParentFor(s, o).Some? && ParentFor(s, o).value.New?
    && ParentFor(s, o).value.ownerOid in group
  }

  /** Drafts that nest under one another in a circle are never sent, and a complete save refuses each. */
  lemma CirclesAreRefused(s: Save, g: Progress, group: set<Key>)
    requires Sound(s, g) && HonestOn(s, g.posts) && Settled(s, g)
    requires forall o {:trigger WaitsWithin(s, o, group)} :: o in group ==> WaitsWithin(s, o, group)
    ensures Posted(g.posts) !! group
    ensures Complete(s, g) ==> forall o :: o in group ==> o in g.results && g.results[o] == RefusedHere(o)
  {
    NotInFirst(s, g.posts, group, |g.posts|);
    forall o | o in Posted(g.posts) ensures o !in group { var j := InSomeCall(g.posts, o); }
    if Complete(s, g) {
      forall o | o in group ensures o in g.results && g.results[o] == RefusedHere(o) {
        assert WaitsWithin(s, o, group);
        assert ResultOk(s, g, o);
      }
    }
  }
}
