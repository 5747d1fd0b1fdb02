/**
  The residual of a day split over its models: each model's excess of billed over observed cost, floored
  at zero, handed out largest first until the day's own excess is used up.
 */
module Residual {

  datatype Cell = Cell(model: string, api: real, otel: real)

  datatype Share = Share(model: string, usd: real)

  /** A strict total order of model names. */
  ghost predicate StrictOrder(before: (string, string) -> bool)
  {
    && (forall a :: !before(a, a))
    && (forall a, b, c :: before(a, b) && before(b, c) ==> before(a, c))
    && (forall a, b :: before(a, b) || before(b, a) || a == b)
  }

  ghost predicate DistinctModels(cells: seq<Cell>)
  {
    forall i, j :: 0 <= i < j < |cells| ==> cells[i].model != cells[j].model
  }

  function Excess(cells: seq<Cell>): real
  {
    if cells == [] then 0.0 else cells[0].api - cells[0].otel + Excess(cells[1..])
  }

  function Floor(c: Cell): Share
  {
    Share(c.model, if c.api > c.otel then c.api - c.otel else 0.0)
  }

  function Floors(cells: seq<Cell>): seq<Share>
  {
    if cells == [] then [] else [Floor(cells[0])] + Floors(cells[1..])
  }

  function Sum(shares: seq<Share>): real
  {
    if shares == [] then 0.0 else shares[0].usd + Sum(shares[1..])
  }

  function Least(a: real, b: real): real { if a <= b then a else b }

  function NotNegative(a: real): real { if a >= 0.0 then a else 0.0 }

  // ------------------------------------------------------------------ ranking

  /** Larger first; equal ones by model. */
  predicate Ranks(before: (string, string) -> bool, a: Share, b: Share)
  {
    a.usd > b.usd || (a.usd == b.usd && before(a.model, b.model))
  }

  ghost predicate Ranked(before: (string, string) -> bool, s: seq<Share>)
  {
    forall i, j :: 0 <= i < j < |s| ==> Ranks(before, s[i], s[j])
  }

  function Insert(before: (string, string) -> bool, x: Share, s: seq<Share>): seq<Share>
  {
    if s == [] then [x]
    else if Ranks(before, x, s[0]) then [x] + s
    else [s[0]] + Insert(before, x, s[1..])
  }

  function Rank(before: (string, string) -> bool, s: seq<Share>): seq<Share>
  {
    if s == [] then [] else Insert(before, s[0], Rank(before, s[1..]))
  }

  lemma {:induction false} InsertKeeps(before: (string, string) -> bool, x: Share, s: seq<Share>)
    ensures multiset(Insert(before, x, s)) == multiset{x} + multiset(s)
    ensures Sum(Insert(before, x, s)) == x.usd + Sum(s)
  {
    if s != [] && !Ranks(before, x, s[0]) {
      InsertKeeps(before, x, s[1..]);
      Tail(s);
      var r := Insert(before, x, s);
      assert r[1..] == Insert(before, x, s[1..]);
      Tail(r);
    }
  }

  lemma {:induction false} RankKeeps(before: (string, string) -> bool, s: seq<Share>)
    ensures multiset(Rank(before, s)) == multiset(s) && Sum(Rank(before, s)) == Sum(s)
  {
    if s != [] {
      RankKeeps(before, s[1..]);
      InsertKeeps(before, s[0], Rank(before, s[1..]));
      Tail(s);
    }
  }

  lemma Tail(s: seq<Share>)
    requires s != []
    ensures s == [s[0]] + s[1..] && multiset(s) == multiset{s[0]} + multiset(s[1..])
  {
    assert s == [s[0]] + s[1..];
  }

  /** What is in a ranking, or in an insertion, was there. */
  lemma {:induction false} InsertHas(before: (string, string) -> bool, x: Share, s: seq<Share>, i: nat)
    requires i < |Insert(before, x, s)|
    ensures Insert(before, x, s)[i] == x || Insert(before, x, s)[i] in s
  {
    if s != [] && !Ranks(before, x, s[0]) && i > 0 { InsertHas(before, x, s[1..], i - 1); }
  }

  lemma {:induction false} RankHas(before: (string, string) -> bool, s: seq<Share>, i: nat)
    requires i < |Rank(before, s)|
    ensures Rank(before, s)[i] in s
  {
    if s != [] {
      var t := Rank(before, s[1..]);
      InsertHas(before, s[0], t, i);
      if Rank(before, s)[i] in t {
        var k :| 0 <= k < |t| && t[k] == Rank(before, s)[i];
        RankHas(before, s[1..], k);
      }
    }
  }

  lemma {:induction false} InsertKeepsRank(before: (string, string) -> bool, x: Share, s: seq<Share>)
    requires StrictOrder(before) && Ranked(before, s) && forall i :: 0 <= i < |s| ==> s[i].model != x.model
    ensures Ranked(before, Insert(before, x, s))
  {
    if s != [] && !Ranks(before, x, s[0]) {
      InsertKeepsRank(before, x, s[1..]);
      var t := Insert(before, x, s[1..]);
      forall j | 0 <= j < |t| ensures Ranks(before, s[0], t[j]) {
        InsertHas(before, x, s[1..], j);
      }
    } else if s != [] {
      forall j | 0 <= j < |s| ensures Ranks(before, x, s[j]) {}
    }
  }

  ghost predicate DistinctShares(s: seq<Share>)
  {
    forall i, j :: 0 <= i < j < |s| ==> s[i].model != s[j].model
  }

  lemma {:induction false} RankRanks(before: (string, string) -> bool, s: seq<Share>)
    requires StrictOrder(before) && DistinctShares(s)
    ensures Ranked(before, Rank(before, s))
  {
    if s != [] {
      RankRanks(before, s[1..]);
      var t := Rank(before, s[1..]);
      forall i | 0 <= i < |t| ensures t[i].model != s[0].model {
        RankHas(before, s[1..], i);
      }
      InsertKeepsRank(before, s[0], t);
    }
  }

  /** Only one ranking of given shares exists. */
  lemma {:induction false} RankingIsUnique(before: (string, string) -> bool, a: seq<Share>, b: seq<Share>)
    requires StrictOrder(before) && Ranked(before, a) && Ranked(before, b) && multiset(a) == multiset(b)
    ensures a == b
  {
    assert |multiset(a)| == |multiset(b)|;
    if a != [] {
      assert a[0] in multiset(b) && b[0] in multiset(a);
      Tail(a);
      Tail(b);
      Cancel(a[0], multiset(a[1..]), multiset(b[1..]));
      RankingIsUnique(before, a[1..], b[1..]);
    }
  }

  lemma Cancel<T>(x: T, a: multiset<T>, b: multiset<T>)
    requires multiset{x} + a == multiset{x} + b
    ensures a == b
  {
    assert a == (multiset{x} + a) - multiset{x} && b == (multiset{x} + b) - multiset{x};
  }

  // ------------------------------------------------------------------ handing out

  /** Each share in turn, as much of it as is left. */
  function Caps(s: seq<Share>, remaining: real): seq<Share>
  {
    if s == [] then []
    else
      var take := Least(s[0].usd, NotNegative(remaining));
      [Share(s[0].model, take)] + Caps(s[1..], remaining - take)
  }

  function Positive(s: seq<Share>): seq<Share>
  {
    if s == [] then [] else (if s[0].usd > 0.0 then [s[0]] else []) + Positive(s[1..])
  }

  function Children(before: (string, string) -> bool, cells: seq<Cell>): seq<Share>
  {
    Positive(Caps(Rank(before, Floors(cells)), Excess(cells)))
  }

  method TotalExcess(cells: seq<Cell>) returns (total: real)
    ensures total == Excess(cells)
  {
    total := 0.0;
    for i := 0 to |cells|
      invariant Excess(cells) == total + Excess(cells[i..])
    {
      assert cells[i..][0] == cells[i] && cells[i..][1..] == cells[i + 1..];
      total := total + cells[i].api - cells[i].otel;
    }
  }

  method HandOut(ranked: seq<Share>, total: real) returns (children: seq<Share>)
    ensures children == Positive(Caps(ranked, total))
  {
    var remaining := total;
    children := [];
    ghost var all := Positive(Caps(ranked, total));
    assert ranked[0..] == ranked;
    for i := 0 to |ranked|
      invariant all == children + Positive(Caps(ranked[i..], remaining))
    {
      HandOutStep(ranked, i, remaining);
      var take := Least(ranked[i].usd, NotNegative(remaining));
      remaining := remaining - take;
      if take > 0.0 { children := children + [Share(ranked[i].model, take)]; }
    }
  }

  lemma HandOutStep(ranked: seq<Share>, i: nat, remaining: real)
    requires i < |ranked|
    ensures var take := Least(ranked[i].usd, NotNegative(remaining));
      var rest := Positive(Caps(ranked[i + 1..], remaining - take));
      Positive(Caps(ranked[i..], remaining)) == if take > 0.0 then [Share(ranked[i].model, take)] + rest else rest
  {
    assert ranked[i..][1..] == ranked[i + 1..];
    CapsStep(ranked[i..], remaining);
  }

  method Split(before: (string, string) -> bool, cells: seq<Cell>) returns (children: seq<Share>)
    ensures children == Children(before, cells)
  {
    var remaining := TotalExcess(cells);
    children := HandOut(Rank(before, Floors(cells)), remaining);
  }

  lemma CapsStep(s: seq<Share>, remaining: real)
    requires s != []
    ensures var take := Least(s[0].usd, NotNegative(remaining));
      var rest := Caps(s[1..], remaining - take);
      && Caps(s, remaining)[0] == Share(s[0].model, take) && Caps(s, remaining)[1..] == rest
      && Positive(Caps(s, remaining)) == (if take > 0.0 then [Share(s[0].model, take)] else []) + Positive(rest)
  {
    var take := Least(s[0].usd, NotNegative(remaining));
    assert ([Share(s[0].model, take)] + Caps(s[1..], remaining - take))[1..] == Caps(s[1..], remaining - take);
  }

  // ------------------------------------------------------------------ what the split promises

  ghost predicate NoneNegative(s: seq<Share>) { forall i :: 0 <= i < |s| ==> s[i].usd >= 0.0 }

  lemma {:induction false} CapsSum(s: seq<Share>, remaining: real)
    requires NoneNegative(s)
    ensures Sum(Caps(s, remaining)) == Least(Sum(s), NotNegative(remaining)) && Sum(s) >= 0.0
  {
    if s != [] {
      var take := Least(s[0].usd, NotNegative(remaining));
      CapsSum(s[1..], remaining - take);
      CapsStep(s, remaining);
    }
  }

  lemma {:induction false} PositiveSum(s: seq<Share>)
    requires NoneNegative(s)
    ensures Sum(Positive(s)) == Sum(s)
  {
    if s != [] {
      PositiveSum(s[1..]);
      var rest := Positive(s[1..]);
      assert ([s[0]] + rest)[1..] == rest && [] + rest == rest;
      assert Positive(s) == if s[0].usd > 0.0 then [s[0]] + rest else rest;
    }
  }

  lemma {:induction false} FloorsCover(cells: seq<Cell>)
    ensures Sum(Floors(cells)) >= Excess(cells) && NoneNegative(Floors(cells)) && |Floors(cells)| == |cells|
    ensures forall i :: 0 <= i < |cells| ==> Floors(cells)[i] == Floor(cells[i])
  {
    if cells != [] {
      FloorsCover(cells[1..]);
      assert Floors(cells)[1..] == Floors(cells[1..]);
    }
  }

  lemma CapsNotNegative(s: seq<Share>, remaining: real)
    requires NoneNegative(s)
    ensures |Caps(s, remaining)| == |s| && NoneNegative(Caps(s, remaining))
    ensures forall i :: 0 <= i < |s| ==> Caps(s, remaining)[i].model == s[i].model && Caps(s, remaining)[i].usd <= s[i].usd
  {
    if s != [] { CapsNotNegative(s[1..], remaining - Least(s[0].usd, NotNegative(remaining))); }
  }

  /** The children add up to exactly the day's excess, or to nothing when there is none. */
  lemma ChildrenFoot(before: (string, string) -> bool, cells: seq<Cell>)
    ensures Sum(Children(before, cells)) == NotNegative(Excess(cells))
  {
    var floors := Floors(cells);
    var ranked := Rank(before, floors);
    FloorsCover(cells);
    RankedNotNegative(before, floors);
    RankKeeps(before, floors);
    CapsSum(ranked, Excess(cells));
    CapsNotNegative(ranked, Excess(cells));
    PositiveSum(Caps(ranked, Excess(cells)));
  }

  lemma RankedNotNegative(before: (string, string) -> bool, s: seq<Share>)
    requires NoneNegative(s)
    ensures NoneNegative(Rank(before, s))
  {
    var r := Rank(before, s);
    forall i | 0 <= i < |r| ensures r[i].usd >= 0.0 {
      RankHas(before, s, i);
    }
  }

  /** The children are the first shares of the ranking, in order, each whole except perhaps the last. */
  ghost predicate Leading(children: seq<Share>, ranked: seq<Share>)
  {
    && |children| <= |ranked|
    && (forall i :: 0 <= i < |children| ==> children[i].model == ranked[i].model && 0.0 < children[i].usd <= ranked[i].usd)
    && (forall i :: 0 <= i < |children| - 1 ==> children[i].usd == ranked[i].usd)
  }

  ghost predicate Descending(s: seq<Share>) { forall i, j :: 0 <= i < j < |s| ==> s[i].usd >= s[j].usd }

  lemma {:induction false} NothingLeft(s: seq<Share>, remaining: real)
    requires NoneNegative(s) && (remaining <= 0.0 || (s != [] ==> s[0].usd == 0.0 && Descending(s)))
    ensures Positive(Caps(s, remaining)) == []
  {
    if s != [] {
      var take := Least(s[0].usd, NotNegative(remaining));
      CapsStep(s, remaining);
      NothingLeft(s[1..], remaining - take);
    }
  }

  lemma {:induction false} CapsLead(s: seq<Share>, remaining: real)
    requires NoneNegative(s) && Descending(s)
    ensures Leading(Positive(Caps(s, remaining)), s)
  {
    if s != [] {
      var take := Least(s[0].usd, NotNegative(remaining));
      var rest := Positive(Caps(s[1..], remaining - take));
      CapsStep(s, remaining);
      if take == s[0].usd && take > 0.0 {
        CapsLead(s[1..], remaining - take);
        OneMoreLeads(s, rest, take);
      } else {
        NothingLeft(s[1..], remaining - take);
      }
    }
  }

  lemma OneMoreLeads(s: seq<Share>, rest: seq<Share>, take: real)
    requires s != [] && Leading(rest, s[1..]) && 0.0 < take == s[0].usd
    ensures Leading([Share(s[0].model, take)] + rest, s)
  {
    var all := [Share(s[0].model, take)] + rest;
    forall i | 0 < i < |all| ensures all[i] == rest[i - 1] && s[i] == s[1..][i - 1] {}
  }

  lemma FloorsDistinct(cells: seq<Cell>)
    requires DistinctModels(cells)
    ensures DistinctShares(Floors(cells))
  {
    FloorsCover(cells);
  }

  /** What is billed above what was observed. */
  function Above(c: Cell): real { c.api - c.otel }

  /** The cell with more above, or with as much and the earlier model, comes first. */
  predicate Precedes(before: (string, string) -> bool, c: Cell, d: Cell)
  {
    Above(c) > Above(d) || (Above(c) == Above(d) && before(c.model, d.model))
  }

  /** A child of a model that is billed above what was observed, for at most the difference. */
  ghost predicate ChildOf(cells: seq<Cell>, child: Share)
  {
    exists c :: c in cells && c.model == child.model && 0.0 < child.usd <= Above(c)
  }

  /** The j-th child's cell, and every cell that precedes it: those are among the earlier children. */
  ghost predicate ServedAfter(before: (string, string) -> bool, cells: seq<Cell>, children: seq<Share>, j: nat)
  {
    && j < |children|
    && forall c, d :: c in cells && d in cells && d.model == children[j].model && Precedes(before, c, d) ==>
        exists i :: 0 <= i < j && children[i].model == c.model
  }

  /** Every child but the last is its model's whole difference. */
  ghost predicate WholeButLast(cells: seq<Cell>, children: seq<Share>)
  {
    forall i, c :: 0 <= i < |children| - 1 && c in cells && c.model == children[i].model ==> children[i].usd == Above(c)
  }

  /** Each child is of a model billed above what was observed, and is no more than the difference; only the
      last child may be less; no model has two children; and a model with more above has its child first,
      so one without a child never has more above than one with. */
  lemma ChildrenAreCapped(before: (string, string) -> bool, cells: seq<Cell>)
    requires StrictOrder(before) && DistinctModels(cells)
    ensures var children := Children(before, cells);
      && DistinctShares(children) && WholeButLast(cells, children)
      && forall j :: 0 <= j < |children| ==> ChildOf(cells, children[j]) && ServedAfter(before, cells, children, j)
  {
    var children := Children(before, cells);
    var ranked := ChildrenLead(before, cells);
    RankedAreCells(before, cells, ranked);
    forall j | 0 <= j < |children| ensures ChildOf(cells, children[j]) && ServedAfter(before, cells, children, j) {
      OneChild(before, cells, ranked, children, j);
    }
    forall i, c | 0 <= i < |children| - 1 && c in cells && c.model == children[i].model ensures children[i].usd == Above(c) {
      assert FloorOf(cells, ranked[i]);
      FoundRank(cells, ranked, i, c);
    }
  }

  ghost predicate FloorOf(cells: seq<Cell>, share: Share) { exists c :: c in cells && share == Floor(c) }

  /** The ranking is of the cells: each rank is one cell's floor, each cell's floor has one rank. */
  ghost predicate RanksCells(before: (string, string) -> bool, cells: seq<Cell>, ranked: seq<Share>)
  {
    && Ranked(before, ranked) && DistinctShares(ranked)
    && (forall i :: 0 <= i < |ranked| ==> FloorOf(cells, ranked[i]))
    && (forall c :: c in cells ==> Floor(c) in ranked)
  }

  lemma RankedAreCells(before: (string, string) -> bool, cells: seq<Cell>, ranked: seq<Share>)
    requires StrictOrder(before) && DistinctModels(cells)
    requires Ranked(before, ranked) && multiset(ranked) == multiset(Floors(cells))
    ensures RanksCells(before, cells, ranked)
  {
    FloorsCover(cells);
    forall i | 0 <= i < |ranked| ensures FloorOf(cells, ranked[i]) {
      assert ranked[i] in multiset(Floors(cells));
      var k :| 0 <= k < |cells| && Floors(cells)[k] == ranked[i];
      assert cells[k] in cells && ranked[i] == Floor(cells[k]);
    }
    forall c | c in cells ensures Floor(c) in ranked {
      var k :| 0 <= k < |cells| && cells[k] == c;
      assert Floors(cells)[k] in multiset(ranked);
    }
    ModelsApart(before, cells, ranked);
  }

  /** Two ranks of one model would be of one cell, and would rank before themselves. */
  lemma ModelsApart(before: (string, string) -> bool, cells: seq<Cell>, ranked: seq<Share>)
    requires StrictOrder(before) && DistinctModels(cells) && Ranked(before, ranked)
    requires forall i :: 0 <= i < |ranked| ==> FloorOf(cells, ranked[i])
    ensures DistinctShares(ranked)
  {
    forall i, j | 0 <= i < j < |ranked| ensures ranked[i].model != ranked[j].model {
      assert FloorOf(cells, ranked[i]) && FloorOf(cells, ranked[j]);
      var c :| c in cells && ranked[i] == Floor(c);
      var d :| d in cells && ranked[j] == Floor(d);
      if c.model == d.model { SameCell(cells, c, d); }
      assert Ranks(before, ranked[i], ranked[j]);
    }
  }

  lemma SameCell(cells: seq<Cell>, c: Cell, d: Cell)
    requires DistinctModels(cells) && c in cells && d in cells && c.model == d.model
    ensures c == d
  {
    var i :| 0 <= i < |cells| && cells[i] == c;
    var j :| 0 <= j < |cells| && cells[j] == d;
  }

  lemma FoundRank(cells: seq<Cell>, ranked: seq<Share>, i: nat, c: Cell)
    requires DistinctModels(cells) && i < |ranked| && c in cells && c.model == ranked[i].model
    requires FloorOf(cells, ranked[i])
    requires ranked[i].usd > 0.0
    ensures ranked[i] == Floor(c) && ranked[i].usd == Above(c)
  {
    var d :| d in cells && ranked[i] == Floor(d);
    SameCell(cells, c, d);
  }

  lemma OneChild(before: (string, string) -> bool, cells: seq<Cell>, ranked: seq<Share>, children: seq<Share>, j: nat)
    requires StrictOrder(before) && DistinctModels(cells) && RanksCells(before, cells, ranked)
    requires Leading(children, ranked) && j < |children|
    ensures ChildOf(cells, children[j]) && ServedAfter(before, cells, children, j)
  {
    assert FloorOf(cells, ranked[j]);
    var own :| own in cells && ranked[j] == Floor(own);
    assert own.model == children[j].model && 0.0 < children[j].usd <= Above(own);
    forall c, d | c in cells && d in cells && d.model == children[j].model && Precedes(before, c, d)
      ensures exists i :: 0 <= i < j && children[i].model == c.model
    {
      SameCell(cells, d, own);
      EarlierRank(before, cells, ranked, j, c, own);
    }
  }

  lemma EarlierRank(before: (string, string) -> bool, cells: seq<Cell>, ranked: seq<Share>, j: nat, c: Cell, d: Cell)
    requires StrictOrder(before) && RanksCells(before, cells, ranked) && j < |ranked| && ranked[j] == Floor(d)
    requires c in cells && Above(d) > 0.0 && Precedes(before, c, d)
    ensures exists i :: 0 <= i < j && ranked[i].model == c.model
  {
    var i :| 0 <= i < |ranked| && ranked[i] == Floor(c);
    assert Ranks(before, ranked[i], ranked[j]);
    OneWay(before, ranked[i], ranked[j]);
  }

  lemma OneWay(before: (string, string) -> bool, a: Share, b: Share)
    requires StrictOrder(before) && Ranks(before, a, b)
    ensures !Ranks(before, b, a)
  {
  }

  /** The children are the first of the ranked floors. */
  lemma ChildrenLead(before: (string, string) -> bool, cells: seq<Cell>) returns (ranked: seq<Share>)
    requires StrictOrder(before) && DistinctModels(cells)
    ensures Ranked(before, ranked) && multiset(ranked) == multiset(Floors(cells))
    ensures Leading(Children(before, cells), ranked)
  {
    var floors := Floors(cells);
    FloorsCover(cells);
    FloorsDistinct(cells);
    RankRanks(before, floors);
    RankedNotNegative(before, floors);
    ranked := Rank(before, floors);
    RankKeeps(before, floors);
    assert forall i, j :: 0 <= i < j < |ranked| ==> Ranks(before, ranked[i], ranked[j]);
    CapsLead(ranked, Excess(cells));
  }

  // ------------------------------------------------------------------ the order of the input

  lemma {:induction false} OfBoth(a: seq<Cell>, b: seq<Cell>)
    ensures Floors(a + b) == Floors(a) + Floors(b) && Excess(a + b) == Excess(a) + Excess(b)
  {
    if a == [] {
      assert a + b == b;
    } else {
      assert (a + b)[1..] == a[1..] + b && (a + b)[0] == a[0];
      OfBoth(a[1..], b);
    }
  }

  function Without(cells: seq<Cell>, k: nat): seq<Cell>
    requires k < |cells|
  {
    cells[..k] + cells[k + 1..]
  }

  lemma Apart(cells: seq<Cell>, k: nat)
    requires k < |cells|
    ensures Floors(cells) == Floors(cells[..k]) + ([Floor(cells[k])] + Floors(cells[k + 1..]))
    ensures Floors(Without(cells, k)) == Floors(cells[..k]) + Floors(cells[k + 1..])
    ensures Excess(cells) == cells[k].api - cells[k].otel + Excess(Without(cells, k))
  {
    var a, c, b := cells[..k], cells[k..], cells[k + 1..];
    assert cells == a + c && c[1..] == b;
    OfBoth(a, c);
    OfBoth(a, b);
  }

  lemma Middle<T>(s: seq<T>, a: seq<T>, x: T, b: seq<T>)
    requires s == a + ([x] + b)
    ensures multiset(s) == multiset{x} + multiset(a + b)
  {
  }

  lemma Removed(cells: seq<Cell>, k: nat)
    requires k < |cells|
    ensures multiset(cells) == multiset{cells[k]} + multiset(Without(cells, k))
  {
    assert cells == cells[..k] + ([cells[k]] + cells[k + 1..]);
    Middle(cells, cells[..k], cells[k], cells[k + 1..]);
  }

  lemma RemovedFloor(cells: seq<Cell>, k: nat)
    requires k < |cells|
    ensures multiset(Floors(cells)) == multiset{Floor(cells[k])} + multiset(Floors(Without(cells, k)))
  {
    Apart(cells, k);
    Middle(Floors(cells), Floors(cells[..k]), Floor(cells[k]), Floors(cells[k + 1..]));
  }

  lemma {:induction false} SameCells(a: seq<Cell>, b: seq<Cell>)
    requires multiset(a) == multiset(b)
    ensures multiset(Floors(a)) == multiset(Floors(b)) && Excess(a) == Excess(b)
    decreases |a|
  {
    assert |multiset(a)| == |multiset(b)|;
    if a != [] {
      assert a[0] in multiset(b);
      var k :| 0 <= k < |b| && b[k] == a[0];
      Removed(a, 0);
      Removed(b, k);
      Cancel(a[0], multiset(Without(a, 0)), multiset(Without(b, k)));
      SameCells(Without(a, 0), Without(b, k));
      Apart(a, 0);
      Apart(b, k);
      RemovedFloor(a, 0);
      RemovedFloor(b, k);
    }
  }

  /** The same cells in another order split the same way. */
  lemma OrderDoesNotMatter(before: (string, string) -> bool, a: seq<Cell>, b: seq<Cell>)
    requires StrictOrder(before) && DistinctModels(a) && DistinctModels(b) && multiset(a) == multiset(b)
    ensures Children(before, a) == Children(before, b)
  {
    SameCells(a, b);
    FloorsDistinct(a);
    FloorsDistinct(b);
    RankRanks(before, Floors(a));
    RankRanks(before, Floors(b));
    RankKeeps(before, Floors(a));
    RankKeeps(before, Floors(b));
    RankingIsUnique(before, Rank(before, Floors(a)), Rank(before, Floors(b)));
  }

  // ------------------------------------------------------------------ the drift day

  function DriftSplit(): seq<Cell>
  {
    [Cell("claude-fable-5", 2.0, 5.0), Cell("claude-sonnet-5", 20.0, 4.0), Cell("claude-haiku-4-5", 6.0, 1.0)]
  }

  /** The largest excess is kept whole, the last-ranked one gets what is left, and the model observed above
      its bill gets nothing. */
  lemma DriftDay(before: (string, string) -> bool, cells: seq<Cell>)
    requires cells == DriftSplit()
    ensures Children(before, cells) == [Share("claude-sonnet-5", 16.0), Share("claude-haiku-4-5", 2.0)]
  {
    var fable, sonnet, haiku := Floor(cells[0]), Floor(cells[1]), Floor(cells[2]);
    var two, one := cells[1..], cells[2..];
    assert two[1..] == one && one[1..] == [];
    assert Floors(one) == [haiku] && Floors(two) == [sonnet] + Floors(one) && Floors(cells) == [fable] + Floors(two);
    assert Excess(one) == 5.0 && Excess(two) == 21.0 && Excess(cells) == 18.0;
    var r1, r2, r3 := [haiku], [sonnet, haiku], [sonnet, haiku, fable];
    DriftRank(before, fable, sonnet, haiku, Floors(one), Floors(two), Floors(cells));
    DriftCaps(fable, sonnet, haiku, r3);
  }

  lemma DriftRank(before: (string, string) -> bool, fable: Share, sonnet: Share, haiku: Share, a: seq<Share>, b: seq<Share>, c: seq<Share>)
    requires fable.usd < haiku.usd < sonnet.usd && a == [haiku] && b == [sonnet, haiku] && c == [fable, sonnet, haiku]
    ensures Rank(before, c) == [sonnet, haiku, fable]
  {
    var none: seq<Share> := [];
    assert a[1..] == none && b[1..] == a && c[1..] == b;
    RankStep(before, a);
    InsertFirst(before, haiku, none);
    RankStep(before, b);
    InsertFirst(before, sonnet, a);
    RankStep(before, c);
    InsertLast(before, fable, b);
  }

  lemma RankStep(before: (string, string) -> bool, s: seq<Share>)
    requires s != []
    ensures Rank(before, s) == Insert(before, s[0], Rank(before, s[1..]))
  {
  }

  lemma InsertFirst(before: (string, string) -> bool, x: Share, s: seq<Share>)
    requires s == [] || x.usd > s[0].usd
    ensures Insert(before, x, s) == [x] + s
  {
  }

  lemma {:induction false} InsertLast(before: (string, string) -> bool, x: Share, s: seq<Share>)
    requires forall i :: 0 <= i < |s| ==> s[i].usd > x.usd
    ensures Insert(before, x, s) == s + [x]
  {
    if s != [] { InsertLast(before, x, s[1..]); }
  }

  lemma DriftCaps(fable: Share, sonnet: Share, haiku: Share, s: seq<Share>)
    requires s == [sonnet, haiku, fable] && sonnet.usd == 16.0 && haiku.usd == 5.0 && fable.usd == 0.0
    ensures Positive(Caps(s, 18.0)) == [sonnet, haiku.(usd := 2.0)]
  {
    var remaining := 18.0;
    CapsStep(s, remaining);
    var two := s[1..];
    CapsStep(two, remaining - 16.0);
    var one := two[1..];
    CapsStep(one, remaining - 18.0);
    assert one[1..] == [];
  }
}
