/**
  The check that refuses to certify an app role able to reach a table owner.

  The check is a recursive catalog query over PostgreSQL role grants. Each grant carries three
  independent options (INHERIT, SET, ADMIN). The query is modelled as written, with the set-based
  fixpoint evaluation a recursive UNION has; what it is meant to decide is given by a separate
  machine, a session that can SET ROLE and GRANT, and the two are proved to agree.
 */
module GrantWalk {

  type Role = nat

  datatype Grant = Grant(member: Role, role: Role, inherits: bool, canSet: bool, admin: bool)

  type Grants = set<Grant>

  // ------------------------------------------------------------------ the query

  /** A tuple of the recursive relation: the role, whether it can be become, and the options used. */
  datatype Row = Row(role: Role, canSet: bool, byInherit: bool, bySet: bool, byAdmin: bool)

  /** The non-recursive arm: the app role's own memberships that carry some option. */
  function Seed(g: Grants, app: Role): set<Row>
  {
    set m | m in g && m.member == app && (m.inherits || m.canSet || m.admin)
      :: Row(m.role, m.canSet || m.admin, m.inherits, m.canSet, m.admin)
  }

  /** When the recursive arm follows a grant out of a row. */
  predicate Follows(r: Row, m: Grant)
  {
    m.member == r.role && (m.inherits || m.admin || (m.canSet && r.canSet))
  }

  function Extend(r: Row, m: Grant): Row
  {
    Row(m.role, m.admin || (m.canSet && r.canSet),
        r.byInherit || m.inherits, r.bySet || m.canSet, r.byAdmin || m.admin)
  }

  /** The recursive arm applied to a set of rows. */
  function Expand(g: Grants, rows: set<Row>): set<Row>
  {
    set r, m | r in rows && m in g && Follows(r, m) :: Extend(r, m)
  }

  /** Every tuple the query could ever produce: the bound that makes the deduplicating walk end. */
  function Universe(g: Grants): set<Row>
  {
    set m, a, b, c, d | m in g && a in {true, false} && b in {true, false} && c in {true, false} && d in {true, false}
      :: Row(m.role, a, b, c, d)
  }

  /** One round of the walk: what it adds is new, stays within the bound, and leaves only the added
      rows to expand next. */
  lemma RoundProgress(g: Grants, found: set<Row>, working: set<Row>, added: set<Row>)
    requires working <= found <= Universe(g)
    requires Expand(g, found - working) <= found
    requires added == Expand(g, working) - found
    ensures found + added <= Universe(g)
    ensures (found + added) - added == found
    ensures Expand(g, found) <= found + added
    ensures added != {} ==> Universe(g) - (found + added) < Universe(g) - found
  {
    assert found == (found - working) + working;
    if added != {} {
      var x :| x in added;
      assert x in Universe(g) - found && x !in Universe(g) - (found + added);
    }
  }

  /** Recursive UNION: expand the rows new in the last round until a round adds nothing. */
  function Iterate(g: Grants, found: set<Row>, working: set<Row>): (rows: set<Row>)
    requires working <= found <= Universe(g)
    requires Expand(g, found - working) <= found
    ensures found <= rows <= Universe(g)
    ensures Expand(g, rows) <= rows
    decreases Universe(g) - found
  {
    var added := Expand(g, working) - found;
    RoundProgress(g, found, working, added);
    if added == {} then found else Iterate(g, found + added, added)
  }

  function Reachable(g: Grants, app: Role): (rows: set<Row>)
    ensures Seed(g, app) <= rows
    ensures Expand(g, rows) <= rows
  {
    var s := Seed(g, app);
    assert s - s == {};
    Iterate(g, s, s)
  }

  predicate Reaches(g: Grants, app: Role, r: Role)
  {
    exists x :: x in Reachable(g, app) && x.role == r
  }

  predicate CanBecome(g: Grants, app: Role, r: Role)
  {
    exists x :: x in Reachable(g, app) && x.role == r && x.canSet
  }

  /** The final SELECT: the tables whose owner is the app role or a reached role. The app role is
      joined, so before it exists there is no row to report. */
  function OwnedTables(g: Grants, roles: set<Role>, app: Role, owners: map<string, Role>): set<string>
  {
    set t | t in owners && app in roles && (owners[t] == app || Reaches(g, app, owners[t]))
  }

  // ------------------------------------------------------------------ the machine

  /** A session logged in as the app role: the role it currently acts as, and the grants in force. */
  datatype Session = Session(current: Role, grants: Grants)

  datatype Option = Inherit | Set | Admin

  predicate Has(m: Grant, o: Option)
  {
    match o
    case Inherit => m.inherits
    case Set => m.canSet
    case Admin => m.admin
  }

  ghost predicate Linked(g: Grants, o: Option, a: Role, b: Role)
  {
    exists m :: m in g && m.member == a && m.role == b && Has(m, o)
  }

  /** A chain of grants from one role to another, all carrying the same option. */
  ghost predicate IsChain(g: Grants, o: Option, path: seq<Role>)
  {
    |path| > 0 && forall i :: 0 <= i < |path| - 1 ==> Linked(g, o, path[i], path[i + 1])
  }

  ghost predicate Chain(g: Grants, o: Option, a: Role, b: Role)
  {
    exists path :: IsChain(g, o, path) && path[0] == a && path[|path| - 1] == b
  }

  /** The session holds a role's privileges when it acts as it or inherits it from who it acts as. */
  ghost predicate Holds(s: Session, r: Role)
  {
    Chain(s.grants, Inherit, s.current, r)
  }

  /** One statement of the session. SET ROLE is judged from the login role over SET grants; GRANT
      needs the privileges of a role that holds ADMIN, and may hand out any options to anyone;
      REVOKE may only take away. */
  ghost predicate Step(app: Role, s: Session, s': Session)
  {
    || (s'.grants == s.grants && Chain(s.grants, Set, app, s'.current))
    || (s'.current == s.current && exists m :: CanGrant(s, m) && s'.grants == s.grants + {m})
    || (s'.current == s.current && s'.grants <= s.grants)
  }

  ghost predicate CanGrant(s: Session, m: Grant)
  {
    exists x :: Holds(s, x) && Linked(s.grants, Admin, x, m.role)
  }

  ghost predicate IsRun(app: Role, run: seq<Session>)
  {
    |run| > 0 && forall i :: 0 <= i < |run| - 1 ==> Step(app, run[i], run[i + 1])
  }

  /** Some run from a new login, over the given grants, ends in this session. */
  ghost predicate Runs(app: Role, g: Grants, s: Session)
  {
    exists run :: IsRun(app, run) && run[0] == Session(app, g) && run[|run| - 1] == s
  }

  ghost predicate CanHold(app: Role, g: Grants, r: Role)
  {
    exists s :: Runs(app, g, s) && Holds(s, r)
  }

  ghost predicate CanAct(app: Role, g: Grants, r: Role)
  {
    exists s :: Runs(app, g, s) && s.current == r
  }

  // ------------------------------------------------------------------ chains and runs

  lemma ChainHere(g: Grants, o: Option, a: Role)
    ensures Chain(g, o, a, a)
  {
    assert IsChain(g, o, [a]);
  }

  lemma ChainLonger(g: Grants, o: Option, a: Role, b: Role, c: Role)
    requires Chain(g, o, a, b) && Linked(g, o, b, c)
    ensures Chain(g, o, a, c)
  {
    var path :| IsChain(g, o, path) && path[0] == a && path[|path| - 1] == b;
    var longer := path + [c];
    forall i | 0 <= i < |longer| - 1 ensures Linked(g, o, longer[i], longer[i + 1]) {
      if i < |path| - 1 { assert Linked(g, o, path[i], path[i + 1]); }
    }
    assert IsChain(g, o, longer);
  }

  lemma RunStart(app: Role, g: Grants)
    ensures Runs(app, g, Session(app, g))
  {
    assert IsRun(app, [Session(app, g)]);
  }

  lemma RunLonger(app: Role, g: Grants, s: Session, s': Session)
    requires Runs(app, g, s) && Step(app, s, s')
    ensures Runs(app, g, s')
  {
    var run :| IsRun(app, run) && run[0] == Session(app, g) && run[|run| - 1] == s;
    var longer := run + [s'];
    forall i | 0 <= i < |longer| - 1 ensures Step(app, longer[i], longer[i + 1]) {
      if i < |run| - 1 { assert Step(app, run[i], run[i + 1]); }
    }
    assert IsRun(app, longer);
  }

  // ------------------------------------------------------------------ every row has a run

  /** What a row promises: a run that keeps every original grant and can act as the role, or at
      least holds its privileges. */
  ghost predicate Attained(app: Role, g: Grants, s: Session, r: Role, become: bool)
  {
    && Runs(app, g, s) && g <= s.grants
    && (if become then Chain(s.grants, Set, app, r) else Holds(s, r))
  }

  ghost predicate Attainable(app: Role, g: Grants, r: Role, become: bool)
  {
    exists s :: Attained(app, g, s, r, become)
  }

  lemma ActAs(app: Role, g: Grants, s: Session, r: Role)
    requires Attained(app, g, s, r, true)
    ensures Attained(app, g, Session(r, s.grants), r, true)
    ensures Attained(app, g, Session(r, s.grants), r, false)
  {
    var s' := Session(r, s.grants);
    RunLonger(app, g, s, s');
    ChainHere(s.grants, Inherit, r);
  }

  /** Holding a role that has ADMIN on another buys SET on it. */
  lemma BuySet(app: Role, g: Grants, s: Session, x: Role, r: Role)
    requires Runs(app, g, s) && g <= s.grants && Holds(s, x) && Linked(g, Admin, x, r)
    ensures Attainable(app, g, r, true)
  {
    var m := Grant(app, r, false, true, false);
    var s' := Session(s.current, s.grants + {m});
    assert Linked(s.grants, Admin, x, m.role) by {
      var e :| e in g && e.member == x && e.role == r && Has(e, Admin);
    }
    assert CanGrant(s, m);
    RunLonger(app, g, s, s');
    ChainHere(s'.grants, Set, app);
    assert Has(m, Set);
    ChainLonger(s'.grants, Set, app, app, r);
    assert Attained(app, g, s', r, true);
  }

  /** Following one grant from an attained role attains what the query's row claims. */
  lemma AttainNext(app: Role, g: Grants, x: Role, become: bool, m: Grant)
    requires Attainable(app, g, x, become)
    requires m in g && m.member == x && (m.inherits || m.admin || (m.canSet && become))
    ensures Attainable(app, g, m.role, m.admin || (m.canSet && become))
  {
    var s :| Attained(app, g, s, x, become);
    var at := if become then Session(x, s.grants) else s;
    if become { ActAs(app, g, s, x); }
    if m.admin {
      assert Has(m, Admin);
      BuySet(app, g, at, x, m.role);
    } else if m.canSet && become {
      assert Has(m, Set);
      ChainLonger(s.grants, Set, app, x, m.role);
      assert Attained(app, g, s, m.role, true);
    } else {
      assert Has(m, Inherit);
      ChainLonger(at.grants, Inherit, at.current, x, m.role);
      assert Attained(app, g, at, m.role, false);
    }
  }

  ghost predicate AllAttainable(app: Role, g: Grants, rows: set<Row>)
  {
    forall x :: x in rows ==> Attainable(app, g, x.role, x.canSet)
  }

  lemma SeedAttainable(app: Role, g: Grants)
    ensures AllAttainable(app, g, Seed(g, app))
  {
    RunStart(app, g);
    ChainHere(g, Set, app);
    assert Attained(app, g, Session(app, g), app, true);
    forall x | x in Seed(g, app) ensures Attainable(app, g, x.role, x.canSet) {
      var m :| m in g && m.member == app && (m.inherits || m.canSet || m.admin)
        && x == Row(m.role, m.canSet || m.admin, m.inherits, m.canSet, m.admin);
      AttainNext(app, g, app, true, m);
    }
  }

  lemma {:induction false} IterateAttainable(app: Role, g: Grants, found: set<Row>, working: set<Row>)
    requires working <= found <= Universe(g)
    requires Expand(g, found - working) <= found
    requires AllAttainable(app, g, found)
    ensures AllAttainable(app, g, Iterate(g, found, working))
    decreases Universe(g) - found
  {
    var added := Expand(g, working) - found;
    forall x | x in added ensures Attainable(app, g, x.role, x.canSet) {
      var r, m :| r in working && m in g && Follows(r, m) && x == Extend(r, m);
      AttainNext(app, g, r.role, r.canSet, m);
    }
    RoundProgress(g, found, working, added);
    if added != {} {
      IterateAttainable(app, g, found + added, added);
    }
  }

  lemma ReachableAttainable(app: Role, g: Grants)
    ensures AllAttainable(app, g, Reachable(g, app))
  {
    SeedAttainable(app, g);
    var s := Seed(g, app);
    assert s - s == {};
    IterateAttainable(app, g, s, s);
  }

  // ------------------------------------------------------------------ every run stays inside the rows

  /** The session has become nothing, and been granted nothing, beyond the rows it can become. */
  ghost predicate Confined(app: Role, g: Grants, s: Session)
  {
    && (s.current == app || CanBecome(g, app, s.current))
    && forall m :: m in s.grants ==> m in g || CanBecome(g, app, m.role)
  }

  /** From the app role or a reached role, a link that survives in a confined session leads to a
      reached role, and to one that can be become when the link is ADMIN or a usable SET. */
  lemma LinkStaysIn(app: Role, g: Grants, s: Session, o: Option, a: Role, b: Role)
    requires Confined(app, g, s) && Linked(s.grants, o, a, b)
    requires a == app || Reaches(g, app, a)
    requires o == Set ==> a == app || CanBecome(g, app, a)
    ensures Reaches(g, app, b)
    ensures o != Inherit ==> CanBecome(g, app, b)
  {
    var m :| m in s.grants && m.member == a && m.role == b && Has(m, o);
    if m !in g {
      assert CanBecome(g, app, m.role);
    } else if a == app {
      var x := Row(m.role, m.canSet || m.admin, m.inherits, m.canSet, m.admin);
      assert x in Seed(g, app);
    } else {
      var r :| r in Reachable(g, app) && r.role == a && (o == Set ==> r.canSet);
      assert Follows(r, m);
      assert Extend(r, m) in Expand(g, Reachable(g, app));
    }
  }

  lemma {:induction false} ChainStaysIn(app: Role, g: Grants, s: Session, o: Option, path: seq<Role>)
    requires Confined(app, g, s) && IsChain(s.grants, o, path) && o != Admin
    requires path[0] == app || CanBecome(g, app, path[0])
    ensures var b := path[|path| - 1];
      b == app || (Reaches(g, app, b) && (o == Set ==> CanBecome(g, app, b)))
    decreases |path|
  {
    if |path| > 1 {
      var init := path[..|path| - 1];
      assert IsChain(s.grants, o, init) by {
        forall i | 0 <= i < |init| - 1 ensures Linked(s.grants, o, init[i], init[i + 1]) {
          assert Linked(s.grants, o, path[i], path[i + 1]);
        }
      }
      ChainStaysIn(app, g, s, o, init);
      var k := |path| - 2;
      assert Linked(s.grants, o, path[k], path[k + 1]);
      LinkStaysIn(app, g, s, o, path[k], path[k + 1]);
    }
  }

  lemma HoldsStaysIn(app: Role, g: Grants, s: Session, r: Role)
    requires Confined(app, g, s) && Holds(s, r)
    ensures r == app || Reaches(g, app, r)
  {
    var path :| IsChain(s.grants, Inherit, path) && path[0] == s.current && path[|path| - 1] == r;
    ChainStaysIn(app, g, s, Inherit, path);
  }

  lemma StepConfined(app: Role, g: Grants, s: Session, s': Session)
    requires Confined(app, g, s) && Step(app, s, s')
    ensures Confined(app, g, s')
  {
    if s'.grants == s.grants && Chain(s.grants, Set, app, s'.current) {
      var path :| IsChain(s.grants, Set, path) && path[0] == app && path[|path| - 1] == s'.current;
      ChainStaysIn(app, g, s, Set, path);
    } else if s'.current == s.current && s'.grants <= s.grants {
    } else {
      var m :| CanGrant(s, m) && s'.grants == s.grants + {m};
      var x :| Holds(s, x) && Linked(s.grants, Admin, x, m.role);
      HoldsStaysIn(app, g, s, x);
      LinkStaysIn(app, g, s, Admin, x, m.role);
    }
  }

  lemma {:induction false} RunConfined(app: Role, g: Grants, run: seq<Session>)
    requires IsRun(app, run) && run[0] == Session(app, g)
    ensures Confined(app, g, run[|run| - 1])
    decreases |run|
  {
    if |run| > 1 {
      var init := run[..|run| - 1];
      assert IsRun(app, init) by {
        forall i | 0 <= i < |init| - 1 ensures Step(app, init[i], init[i + 1]) {
          assert Step(app, run[i], run[i + 1]);
        }
      }
      RunConfined(app, g, init);
      assert Step(app, run[|run| - 2], run[|run| - 1]);
      StepConfined(app, g, run[|run| - 2], run[|run| - 1]);
    }
  }

  // ------------------------------------------------------------------ main results

  /** The walk is exact: a role is in `reachable` iff some run of the app's session ends holding
      its privileges. */
  lemma WalkIsExact(g: Grants, app: Role, r: Role)
    requires r != app
    ensures Reaches(g, app, r) <==> CanHold(app, g, r)
  {
    if Reaches(g, app, r) {
      ReachableAttainable(app, g);
      var x :| x in Reachable(g, app) && x.role == r;
      var s :| Attained(app, g, s, r, x.canSet);
      if x.canSet {
        ActAs(app, g, s, r);
      }
    }
    if CanHold(app, g, r) {
      var s :| Runs(app, g, s) && Holds(s, r);
      var run :| IsRun(app, run) && run[0] == Session(app, g) && run[|run| - 1] == s;
      RunConfined(app, g, run);
      HoldsStaysIn(app, g, s, r);
    }
  }

  /** The carried bit is exact: `can_set` holds of some row iff some run ends acting as the role. */
  lemma BecomeIsExact(g: Grants, app: Role, r: Role)
    requires r != app
    ensures CanBecome(g, app, r) <==> CanAct(app, g, r)
  {
    if CanBecome(g, app, r) {
      ReachableAttainable(app, g);
      var x :| x in Reachable(g, app) && x.role == r && x.canSet;
      var s :| Attained(app, g, s, r, true);
      ActAs(app, g, s, r);
    }
    if CanAct(app, g, r) {
      var s :| Runs(app, g, s) && s.current == r;
      var run :| IsRun(app, run) && run[0] == Session(app, g) && run[|run| - 1] == s;
      RunConfined(app, g, run);
    }
  }

  /** The refusal is exact: a table is reported iff a session of the existing app role can come to
      hold the privileges of its owner, owning it outright included. */
  lemma RefusalIsExact(g: Grants, roles: set<Role>, app: Role, owners: map<string, Role>, t: string)
    requires t in owners
    ensures t in OwnedTables(g, roles, app, owners) <==> app in roles && CanHold(app, g, owners[t])
  {
    if owners[t] == app {
      RunStart(app, g);
      ChainHere(g, Inherit, app);
      assert Holds(Session(app, g), app);
    } else {
      WalkIsExact(g, app, owners[t]);
    }
  }

  // ------------------------------------------------------------------ the options that are reported

  /** The role at the end of these grants can be become: the last one is ADMIN, or SET from where that was so. */
  predicate Becomes(way: seq<Grant>)
    requires way != []
  {
    var m := way[|way| - 1];
    m.admin || (m.canSet && (|way| == 1 || Becomes(way[..|way| - 1])))
  }

  /** Grants that lead on from one another out of the app role, each usable where it is come to. */
  predicate Way(g: Grants, app: Role, way: seq<Grant>)
  {
    way != [] &&
    var n := |way| - 1;
    var m := way[n];
    && m in g && m.member == (if n == 0 then app else way[n - 1].role)
    && (n > 0 ==> Way(g, app, way[..n]))
    && (m.inherits || m.admin || (m.canSet && (n == 0 || Becomes(way[..n]))))
  }

  predicate Uses(way: seq<Grant>, o: Option) { exists m :: m in way && Has(m, o) }

  predicate Reports(x: Row, o: Option)
  {
    match o
    case Inherit => x.byInherit
    case Set => x.bySet
    case Admin => x.byAdmin
  }

  function RowOf(way: seq<Grant>): Row
    requires way != []
  {
    Row(way[|way| - 1].role, Becomes(way), Uses(way, Inherit), Uses(way, Set), Uses(way, Admin))
  }

  lemma UsesOneMore(way: seq<Grant>, m: Grant, o: Option)
    ensures Uses(way + [m], o) <==> Uses(way, o) || Has(m, o)
  {
    assert m in way + [m];
    assert forall x :: x in way + [m] <==> x in way || x == m;
  }

  lemma OnlyUse(m: Grant)
    ensures RowOf([m]) == Row(m.role, m.canSet || m.admin, m.inherits, m.canSet, m.admin)
  {
    var none: seq<Grant> := [];
    forall o: Option ensures Uses([m], o) <==> Has(m, o) { assert none + [m] == [m]; UsesOneMore(none, m, o); }
    assert Has(m, Inherit) == m.inherits && Has(m, Set) == m.canSet && Has(m, Admin) == m.admin;
  }

  lemma WayLonger(g: Grants, app: Role, way: seq<Grant>, m: Grant)
    requires Way(g, app, way) && m in g && Follows(RowOf(way), m)
    ensures Way(g, app, way + [m]) && RowOf(way + [m]) == Extend(RowOf(way), m)
  {
    assert (way + [m])[..|way|] == way;
    forall o: Option ensures Uses(way + [m], o) <==> Uses(way, o) || Has(m, o) { UsesOneMore(way, m, o); }
    assert Has(m, Inherit) == m.inherits && Has(m, Set) == m.canSet && Has(m, Admin) == m.admin;
  }

  ghost predicate OnWays(g: Grants, app: Role, rows: set<Row>)
  {
    forall x :: x in rows ==> HasWay(g, app, x)
  }

  ghost predicate HasWay(g: Grants, app: Role, x: Row) { exists way: seq<Grant> :: Way(g, app, way) && RowOf(way) == x }

  lemma {:induction false} IterateOnWays(g: Grants, app: Role, found: set<Row>, working: set<Row>)
    requires working <= found <= Universe(g) && Expand(g, found - working) <= found && OnWays(g, app, found)
    ensures OnWays(g, app, Iterate(g, found, working))
    decreases Universe(g) - found
  {
    var added := Expand(g, working) - found;
    forall x | x in added ensures HasWay(g, app, x) {
      var r, m :| r in working && m in g && Follows(r, m) && x == Extend(r, m);
      assert HasWay(g, app, r);
      var way: seq<Grant> :| Way(g, app, way) && RowOf(way) == r;
      WayLonger(g, app, way, m);
    }
    RoundProgress(g, found, working, added);
    if added != {} { IterateOnWays(g, app, found + added, added); }
  }

  lemma {:induction false} WayIsARow(g: Grants, app: Role, way: seq<Grant>)
    requires Way(g, app, way)
    ensures RowOf(way) in Reachable(g, app)
  {
    var n := |way| - 1;
    if n == 0 {
      assert way == [way[0]];
      OnlyUse(way[0]);
      assert RowOf(way) in Seed(g, app);
    } else {
      WayIsARow(g, app, way[..n]);
      assert way == way[..n] + [way[n]];
      WayLonger(g, app, way[..n], way[n]);
      assert RowOf(way) in Expand(g, Reachable(g, app));
    }
  }

  /** What the report says of a role is exact: it names an option iff a usable way to the role uses it. */
  lemma ReportIsExact(g: Grants, app: Role, r: Role, o: Option)
    ensures (exists x :: x in Reachable(g, app) && x.role == r && Reports(x, o)) <==>
      exists way: seq<Grant> :: Way(g, app, way) && way[|way| - 1].role == r && Uses(way, o)
  {
    RowsOnWays(g, app);
    if x :| x in Reachable(g, app) && x.role == r && Reports(x, o) {
      assert HasWay(g, app, x);
      var way: seq<Grant> :| Way(g, app, way) && RowOf(way) == x;
      assert way[|way| - 1].role == r && Uses(way, o);
    }
    if way: seq<Grant> :| Way(g, app, way) && way[|way| - 1].role == r && Uses(way, o) {
      WayIsARow(g, app, way);
      assert Reports(RowOf(way), o);
    }
  }

  lemma RowsOnWays(g: Grants, app: Role)
    ensures OnWays(g, app, Reachable(g, app))
  {
    var s := Seed(g, app);
    assert s - s == {};
    forall x | x in s ensures HasWay(g, app, x) {
      var m :| m in g && m.member == app && (m.inherits || m.canSet || m.admin)
        && x == Row(m.role, m.canSet || m.admin, m.inherits, m.canSet, m.admin);
      OnlyUse(m);
      assert Way(g, app, [m]);
    }
    IterateOnWays(g, app, s, s);
  }

  /** A grant with none of the three options changes nothing. */
  function WithoutOptionless(g: Grants): Grants
  {
    set m | m in g && (m.inherits || m.canSet || m.admin)
  }

  lemma ExpandIgnoresOptionless(g: Grants, rows: set<Row>)
    ensures Expand(WithoutOptionless(g), rows) == Expand(g, rows)
  {
    forall x | x in Expand(g, rows) ensures x in Expand(WithoutOptionless(g), rows) {
      var r, m :| r in rows && m in g && Follows(r, m) && x == Extend(r, m);
      assert m in WithoutOptionless(g);
    }
    forall x | x in Expand(WithoutOptionless(g), rows) ensures x in Expand(g, rows) {
      var r, m :| r in rows && m in WithoutOptionless(g) && Follows(r, m) && x == Extend(r, m);
    }
  }

  lemma {:induction false} IterateIgnoresOptionless(g: Grants, found: set<Row>, working: set<Row>)
    requires working <= found <= Universe(g) && found <= Universe(WithoutOptionless(g))
    requires Expand(g, found - working) <= found
    requires Expand(WithoutOptionless(g), found - working) <= found
    ensures Iterate(WithoutOptionless(g), found, working) == Iterate(g, found, working)
    decreases Universe(g) - found
  {
    var h := WithoutOptionless(g);
    ExpandIgnoresOptionless(g, working);
    var added := Expand(g, working) - found;
    RoundProgress(g, found, working, added);
    RoundProgress(h, found, working, added);
    if added != {} {
      IterateIgnoresOptionless(g, found + added, added);
    }
  }

  lemma OptionlessNeverMatter(g: Grants, app: Role)
    ensures Reachable(WithoutOptionless(g), app) == Reachable(g, app)
  {
    var h := WithoutOptionless(g);
    var s := Seed(g, app);
    assert Seed(h, app) == s by {
      forall x | x in s ensures x in Seed(h, app) {
        var m :| m in g && m.member == app && (m.inherits || m.canSet || m.admin)
          && x == Row(m.role, m.canSet || m.admin, m.inherits, m.canSet, m.admin);
        assert m in h;
      }
    }
    assert s - s == {};
    IterateIgnoresOptionless(g, s, s);
  }
}
