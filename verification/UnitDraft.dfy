/**
  The setup page's drafted units around a save: edits go on while the requests run and while the tree is
  refreshed, and what is left of the drafts and of their errors decides whether the save says it is done.
 */
module UnitDraft {
  import opened Wrappers
  import opened OrgTree
  import opened SaveUnits

  datatype Edit = Tick(oid: Key, draft: Draft) | Untick(oid: Key) | Rename(oid: Key, name: string)

  function Edited(drafts: DraftUnits, e: Edit): DraftUnits
  {
    match e
    case Tick(o, d) => drafts[o := d]
    case Untick(o) => drafts - {o}
    case Rename(o, name) => if o in drafts then drafts[o := drafts[o].(name := name)] else drafts
  }

  function EditedAll(drafts: DraftUnits, es: seq<Edit>): DraftUnits
  {
    if es == [] then drafts else Edited(EditedAll(drafts, es[..|es| - 1]), es[|es| - 1])
  }

  function Unticked(es: seq<Edit>): set<Key>
  {
    set e | e in es && e.Untick? :: e.oid
  }

  predicate WasCreated(g: Progress, o: Key) { o in g.results && g.results[o].Created? }

  function CreatedIds(g: Progress): map<Key, Key>
  {
    map o | o in g.results && g.results[o].Created? :: g.results[o].orgUnitId
  }

  function Refusals(g: Progress): set<Key> { set o | o in g.results && !g.results[o].Created? }

  /** The tree was refreshed, and shows the owner owning a unit in the draft's region. */
  predicate OwnedNow(refreshed: Option<seq<Node>>, o: Key, regionId: Key)
  {
    refreshed.Some? && var byOid := IndexNodes(refreshed.value); o in byOid && OwnsIn(byOid[o].owns, regionId).Some?
  }

  function SettledDrafts(refreshed: Option<seq<Node>>, drafts: DraftUnits): map<Key, Key>
  {
    map o | o in drafts && OwnedNow(refreshed, o, drafts[o].regionId) ::
      OwnsIn(IndexNodes(refreshed.value)[o].owns, drafts[o].regionId).value.orgUnitId
  }

  /** The edits made around a save: while its requests ran, and while the tree was refreshed. */
  datatype Edits = Edits(during: seq<Edit>, meanwhile: seq<Edit>)

  /** The drafts as they read once the tree is refreshed, those created gone. */
  function AtRefresh(sent: DraftUnits, g: Progress, edits: Edits): DraftUnits
  {
    EditedAll(EditedAll(sent, edits.during) - CreatedIds(g).Keys, edits.meanwhile)
  }

  /** A draft without a unit that the save does not hold against itself: it was unticked during the
      refresh, or the refreshed tree shows its owner owning a unit in its region. */
  predicate Excused(o: Key, sent: DraftUnits, g: Progress, edits: Edits, refreshed: Option<seq<Node>>)
  {
    var drafts := AtRefresh(sent, g, edits);
    o in Unticked(edits.meanwhile) || (o in drafts && OwnedNow(refreshed, o, drafts[o].regionId))
  }

  ghost predicate AllAnswered(s: Save, g: Progress) { Answered(s, g.posts, |g.posts|) }

  /** Every draft that was sent was created or is excused. */
  ghost predicate AllSettled(sent: DraftUnits, g: Progress, edits: Edits, refreshed: Option<seq<Node>>)
  {
    forall o :: o in sent ==> WasCreated(g, o) || Excused(o, sent, g, edits, refreshed)
  }

  ghost predicate RefusedExcused(sent: DraftUnits, g: Progress, edits: Edits, refreshed: Option<seq<Node>>)
  {
    forall o :: o in Refusals(g) ==> Excused(o, sent, g, edits, refreshed)
  }

  /** What it means that a save says it is done: no call threw and each refused draft is excused; with an
      honest server, no call threw and each draft that was sent was created or is excused. */
  ghost predicate DoneMeans(s: Save, g: Progress, edits: Edits, refreshed: Option<seq<Node>>, done: bool)
  {
    && (done <==> AllAnswered(s, g) && RefusedExcused(s.drafts, g, edits, refreshed))
    && (HonestOn(s, g.posts) ==> (done <==> AllAnswered(s, g) && AllSettled(s.drafts, g, edits, refreshed)))
  }

  class Page {
    var draftUnits: DraftUnits
    var createdUnits: map<Key, Key>
    var unitErrors: set<Key>

    constructor (drafts: DraftUnits)
      ensures draftUnits == drafts && createdUnits == map[] && unitErrors == {}
    {
      draftUnits, createdUnits, unitErrors := drafts, map[], {};
    }

    /** Unticking clears the draft's error with it. */
    method Do(e: Edit)
      modifies this`draftUnits, this`unitErrors
      ensures draftUnits == Edited(old(draftUnits), e)
      ensures unitErrors == if e.Untick? then old(unitErrors) - {e.oid} else old(unitErrors)
    {
      draftUnits := Edited(draftUnits, e);
      if e.Untick? { unitErrors := unitErrors - {e.oid}; }
    }

    method DoAll(es: seq<Edit>)
      modifies this`draftUnits, this`unitErrors
      ensures draftUnits == EditedAll(old(draftUnits), es) && unitErrors == old(unitErrors) - Unticked(es)
    {
      for i := 0 to |es|
        invariant draftUnits == EditedAll(old(draftUnits), es[..i]) && unitErrors == old(unitErrors) - Unticked(es[..i])
      {
        assert es[..i + 1][..i] == es[..i] && es[..i + 1] == es[..i] + [es[i]];
        assert Unticked(es[..i + 1]) == Unticked(es[..i]) + if es[i].Untick? then {es[i].oid} else {};
        Do(es[i]);
      }
      assert es[..|es|] == es;
    }

    /** A save, with the edits made around it, followed by a refresh that may throw: the save then has no
        result, and no draft is looked up in a tree. With no drafts there is nothing to send and nothing is
        awaited. */
    method SaveUnits(nodes: seq<Node>, trim: string -> string, answer: seq<seq<Item>> -> Reply, edits: Edits,
        refreshed: Option<seq<Node>>) returns (done: Option<bool>, g: Progress)
      modifies this
      ensures var s := Save(nodes, old(draftUnits), trim, answer);
        Sound(s, g) && Heard(s, g) && (HonestOn(s, g.posts) ==> Settled(s, g)) && (AllAnswered(s, g) ==> Complete(s, g))
      ensures old(draftUnits) == map[] ==>
        done == Some(true) && g.posts == [] && draftUnits == map[] && createdUnits == old(createdUnits) && unitErrors == old(unitErrors)
      ensures done.None? <==> old(draftUnits) != map[] && refreshed.None?
      ensures old(draftUnits) != map[] ==>
        var drafts := AtRefresh(old(draftUnits), g, edits); draftUnits == drafts - SettledDrafts(refreshed, drafts).Keys
      ensures done.Some? && old(draftUnits) != map[] ==>
        DoneMeans(Save(nodes, old(draftUnits), trim, answer), g, edits, refreshed, done.value)
      ensures old(draftUnits) != map[] ==>
        var settled := SettledDrafts(refreshed, AtRefresh(old(draftUnits), g, edits));
        && createdUnits == old(createdUnits) + CreatedIds(g) + settled
        && unitErrors == Refusals(g) - Unticked(edits.meanwhile) - settled.Keys
    {
      if draftUnits == map[] { return Some(true), Progress([], map[], map[]); }
      var s := Save(nodes, draftUnits, trim, answer);
      var failed;
      g, failed := SaveDraftUnits(s);
      if failed { NotAllAnswered(s, g); }
      DoAll(edits.during);
      createdUnits := createdUnits + CreatedIds(g);
      draftUnits := draftUnits - CreatedIds(g).Keys;
      unitErrors := Refusals(g);
      DoAll(edits.meanwhile);
      if refreshed.None? { NothingSettled(createdUnits, draftUnits, unitErrors); return None, g; }
      var settled := SettledDrafts(refreshed, draftUnits);
      createdUnits := createdUnits + settled;
      draftUnits := draftUnits - settled.Keys;
      unitErrors := unitErrors - settled.Keys;
      done := Some(!failed && unitErrors == {});
      NothingHeld(s, g, edits, refreshed);
    }
  }

  lemma {:induction false} EditsKeep(drafts: DraftUnits, es: seq<Edit>, o: Key)
    requires o in drafts && o !in Unticked(es)
    ensures o in EditedAll(drafts, es)
  {
    var n := |es| - 1;
    if es != [] {
      assert es[n] in es && forall e :: e in es[..n] ==> e in es;
      EditsKeep(drafts, es[..n], o);
    }
  }

  /** A draft that was sent, or ticked since, leaves only when it is unticked, its unit was created, or the
      refreshed tree shows its owner owning a unit in its region. */
  lemma LeavesOnlyWhen(sent: DraftUnits, g: Progress, edits: Edits, refreshed: Option<seq<Node>>, o: Key)
    requires (o in sent && o !in Unticked(edits.during)) || o in EditedAll(sent, edits.during)
    requires var drafts := AtRefresh(sent, g, edits); o !in drafts - SettledDrafts(refreshed, drafts).Keys
    ensures WasCreated(g, o) || Excused(o, sent, g, edits, refreshed)
  {
    if o in sent && o !in Unticked(edits.during) { EditsKeep(sent, edits.during, o); }
    var after := EditedAll(sent, edits.during) - CreatedIds(g).Keys;
    if o in after && o !in Unticked(edits.meanwhile) { EditsKeep(after, edits.meanwhile, o); }
  }

  lemma NothingSettled(created: map<Key, Key>, drafts: DraftUnits, errors: set<Key>)
    ensures SettledDrafts(None, drafts) == map[] && created + map[] == created
    ensures drafts - {} == drafts && errors - {} == errors
  {
  }

  /** No error is left exactly when every refused draft is excused; after a complete save with an honest
      server, exactly when every draft is created or excused. */
  lemma NothingHeld(s: Save, g: Progress, edits: Edits, refreshed: Option<seq<Node>>)
    ensures var settled := SettledDrafts(refreshed, AtRefresh(s.drafts, g, edits));
      Refusals(g) - Unticked(edits.meanwhile) - settled.Keys == {} <==> RefusedExcused(s.drafts, g, edits, refreshed)
    ensures CompleteHonest(s, g) ==>
      (RefusedExcused(s.drafts, g, edits, refreshed) <==> AllSettled(s.drafts, g, edits, refreshed))
  {
    var drafts := AtRefresh(s.drafts, g, edits);
    var settled := SettledDrafts(refreshed, drafts);
    forall o ensures o in settled <==> o in drafts && OwnedNow(refreshed, o, drafts[o].regionId) {}
    var held := Refusals(g) - Unticked(edits.meanwhile) - settled.Keys;
    forall o | o in Refusals(g) ensures o in held <==> !Excused(o, s.drafts, g, edits, refreshed) {}
  }

  lemma NotAllAnswered(s: Save, g: Progress)
    requires |g.posts| > 0 && s.answer(g.posts).Throws?
    ensures !AllAnswered(s, g)
  {
    var n := |g.posts| - 1;
    assert g.posts[..n + 1] == g.posts;
    assert !AnsweredAt(s, g.posts, n);
  }

  /** The server refuses a draft, and it is unticked while the tree is refreshed: the save says it is done,
      with no unit created or owned; ticked again, the draft is even still there. */
  method DoneWithARefusedDraft(o: Key, d: Draft, again: bool) returns (page: Page, done: Option<bool>, g: Progress)
    ensures done == Some(true) && !WasCreated(g, o) && (o in page.draftUnits <==> again)
  {
    page := new Page(map[o := d]);
    var answer := (posts: seq<seq<Item>>) => Answers([Refused(o, "owner-has-unit")]);
    var tree: seq<Node> := [];
    var meanwhile := if again then [Untick(o), Tick(o, d)] else [Untick(o)];
    done, g := page.SaveUnits(tree, name => name, answer, Edits([], meanwhile), Some(tree));
    assert meanwhile[0] == Untick(o);
    AlwaysRefused(Save(tree, map[o := d], name => name, answer), g, o);
    UntickedLast(EditedAll(map[o := d], []) - CreatedIds(g).Keys, o, d, meanwhile);
  }

  lemma UntickedLast(drafts: DraftUnits, o: Key, d: Draft, es: seq<Edit>)
    requires es == [Untick(o)] || es == [Untick(o), Tick(o, d)]
    ensures EditedAll(drafts, es) == if |es| == 1 then drafts - {o} else drafts[o := d]
  {
    var none: seq<Edit> := [];
    assert es[..1] == [Untick(o)] && es[..1][..0] == none && es[..0] == none;
    assert EditedAll(drafts, none) == drafts;
    assert EditedAll(drafts, es[..1]) == drafts - {o};
    if |es| == 2 { assert (drafts - {o})[o := d] == drafts[o := d]; }
  }

  lemma AlwaysRefused(s: Save, g: Progress, o: Key)
    requires s.drafts.Keys == {o} && Sound(s, g) && (HonestOn(s, g.posts) ==> Settled(s, g))
    requires forall posts :: s.answer(posts) == Answers([Refused(o, "owner-has-unit")])
    ensures AllAnswered(s, g) && HonestOn(s, g.posts) && !WasCreated(g, o) && Refusals(g) <= {o}
  {
    forall j | 0 <= j < |g.posts| ensures HonestAt(s, g.posts, j) {
      assert CallOk(s, g.posts, j);
      forall k | 0 <= k < |g.posts[j]| ensures g.posts[j][k].ownerOid == o {
        assert Justified(s, g.posts, j, g.posts[j][k]);
      }
      assert g.posts[j][0].ownerOid in Owners(g.posts[j]);
      assert ResultOwners([Refused(o, "owner-has-unit")]) == {o} by { assert [Refused(o, "owner-has-unit")][0].ownerOid == o; }
    }
    if o in g.results { assert ResultOk(s, g, o); }
    forall p | p in g.results ensures p == o { assert ResultOk(s, g, p); }
  }
}
