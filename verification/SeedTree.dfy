/**
  Seeding a region's organisation units: a forest of unit definitions becomes rows with parent ids and
  label paths, once, under the region's default unit.
 */
module SeedTree {
  import opened Wrappers

  datatype Unit = Unit(code: string, displayName: string, unitType: Option<string>, costOwning: Option<bool>, children: seq<Unit>)

  datatype RegionDef = RegionDef(code: string, displayName: string, units: seq<Unit>)

  type Path = seq<string>

  datatype Row = Row(id: nat, parentId: Option<nat>, path: Path, code: string, displayName: string, unitType: string,
    costOwning: bool, retired: bool)

  function LabelChar(c: char): char
  {
    if 'A' <= c <= 'Z' then 'a' + (c - 'A')
    else if 'a' <= c <= 'z' || '0' <= c <= '9' || c == '_' then c
    else '_'
  }

  function Label(code: string): string
  {
    seq(|code|, i requires 0 <= i < |code| => LabelChar(code[i]))
  }

  function Count(units: seq<Unit>): nat
  {
    if units == [] then 0 else 1 + Count(units[0].children) + Count(units[1..])
  }

  // ------------------------------------------------------------------ the rows of a forest

  /** One unit's row, its owning flag and type filled in. */
  function RowFor(u: Unit, id: nat, parentId: nat, parentPath: Path): Row
  {
    Row(id, Some(parentId), parentPath + [Label(u.code)], u.code, u.displayName,
      if u.unitType.Some? then u.unitType.value else "bu",
      if u.costOwning.Some? then u.costOwning.value else |u.children| == 0, false)
  }

  /** A unit's row and, after it, the rows of everything below it. */
  function UnitRows(u: Unit, parentId: nat, parentPath: Path, next: nat): seq<Row>
    decreases u
  {
    var top := RowFor(u, next, parentId, parentPath);
    [top] + Rows(u.children, next, top.path, next + 1)
  }

  /** The rows of a forest under one parent, ids from `next` on. */
  function Rows(units: seq<Unit>, parentId: nat, parentPath: Path, next: nat): seq<Row>
    decreases units
  {
    if units == [] then []
    else
      var first := UnitRows(units[0], parentId, parentPath, next);
      first + Rows(units[1..], parentId, parentPath, next + |first|)
  }

  lemma {:induction false} RowsAreCounted(units: seq<Unit>, parentId: nat, parentPath: Path, next: nat)
    ensures |Rows(units, parentId, parentPath, next)| == Count(units)
    ensures forall i :: 0 <= i < |Rows(units, parentId, parentPath, next)| ==> Rows(units, parentId, parentPath, next)[i].id == next + i
  {
    if units != [] {
      var top := RowFor(units[0], next, parentId, parentPath);
      RowsAreCounted(units[0].children, next, top.path, next + 1);
      var first := UnitRows(units[0], parentId, parentPath, next);
      RowsAreCounted(units[1..], parentId, parentPath, next + |first|);
    }
  }

  /** The units of a forest, each before those below it. */
  function Preorder(units: seq<Unit>): seq<Unit>
  {
    if units == [] then [] else [units[0]] + Preorder(units[0].children) + Preorder(units[1..])
  }

  /** A row says what its unit says; a unit without a type is a business unit, and one that does not say
      owns its cost exactly when it has no units below it. */
  predicate Describes(r: Row, u: Unit)
  {
    && r.code == u.code && r.displayName == u.displayName && !r.retired
    && r.path != [] && r.path[|r.path| - 1] == Label(u.code)
    && (u.unitType.Some? ==> r.unitType == u.unitType.value) && (u.unitType.None? ==> r.unitType == "bu")
    && (u.costOwning.Some? ==> r.costOwning == u.costOwning.value) && (u.costOwning.None? ==> (r.costOwning <==> u.children == []))
  }

  ghost predicate DescribeAll(rows: seq<Row>, units: seq<Unit>)
  {
    |rows| == |units| && forall i :: 0 <= i < |rows| ==> Describes(rows[i], units[i])
  }

  lemma DescribeBoth(rows: seq<Row>, units: seq<Unit>, moreRows: seq<Row>, moreUnits: seq<Unit>)
    requires DescribeAll(rows, units) && DescribeAll(moreRows, moreUnits)
    ensures DescribeAll(rows + moreRows, units + moreUnits)
  {
  }

  /** The rows of a forest are its units, in order. */
  lemma {:induction false} RowsDescribeUnits(units: seq<Unit>, parentId: nat, parentPath: Path, next: nat)
    ensures DescribeAll(Rows(units, parentId, parentPath, next), Preorder(units))
  {
    if units != [] {
      var u, rest, first := units[0], units[1..], UnitRows(units[0], parentId, parentPath, next);
      var n := next + |first|;
      UnitRowsDescribe(u, parentId, parentPath, next);
      RowsDescribeUnits(rest, parentId, parentPath, n);
      var below, after := [u] + Preorder(u.children), Preorder(rest);
      DescribeBoth(first, below, Rows(rest, parentId, parentPath, n), after);
      assert Preorder(units) == below + after;
    }
  }

  lemma {:induction false} UnitRowsDescribe(u: Unit, parentId: nat, parentPath: Path, next: nat)
    ensures DescribeAll(UnitRows(u, parentId, parentPath, next), [u] + Preorder(u.children))
  {
    var top := RowFor(u, next, parentId, parentPath);
    RowsDescribeUnits(u.children, next, top.path, next + 1);
    DescribeBoth([top], [u], Rows(u.children, next, top.path, next + 1), Preorder(u.children));
  }

  /** The characters a label may have. */
  predicate LabelSafe(c: char) { 'a' <= c <= 'z' || '0' <= c <= '9' || c == '_' }

  /** A label has only safe characters, one for each of the code's, and is the code itself exactly when that
      has only safe ones. */
  lemma LabelsAreSafe(code: string)
    ensures |Label(code)| == |code| && (forall i :: 0 <= i < |code| ==> LabelSafe(Label(code)[i]))
    ensures Label(code) == code <==> forall i :: 0 <= i < |code| ==> LabelSafe(code[i])
  {
    if Label(code) == code {
      forall i | 0 <= i < |code| ensures LabelSafe(code[i]) { assert LabelSafe(Label(code)[i]); }
    }
  }

  // ------------------------------------------------------------------ paths and ancestry

  function Last(p: Path): string
    requires p != []
  {
    p[|p| - 1]
  }

  /** Siblings have distinct labels, all the way down. */
  predicate DistinctSiblings(units: seq<Unit>)
  {
    && (forall i, j :: 0 <= i < j < |units| ==> Label(units[i].code) != Label(units[j].code))
    && (forall i :: 0 <= i < |units| ==> DistinctSiblings(units[i].children))
  }

  /** A row hangs off the root or off an earlier row, and its path is that one's with one label more. */
  predicate Hangs(rows: seq<Row>, i: nat, rootId: nat, rootPath: Path, next: nat)
  {
    i < |rows| &&
    var r := rows[i];
    && r.id == next + i && r.parentId.Some? && r.path != []
    && (r.parentId.value == rootId || next <= r.parentId.value < r.id)
    && r.path[..|r.path| - 1] == if r.parentId.value == rootId then rootPath else rows[r.parentId.value - next].path
  }

  predicate SiblingsDiffer(rows: seq<Row>, i: nat, j: nat)
  {
    && i < |rows| && j < |rows|
    && (i != j && rows[i].parentId == rows[j].parentId && rows[i].path != [] && rows[j].path != [] ==>
        Last(rows[i].path) != Last(rows[j].path))
  }

  /** Rows of a tree: the local facts from which everything about paths follows. */
  predicate Tree(rows: seq<Row>, rootId: nat, rootPath: Path, next: nat)
  {
    && rootId < next
    && (forall i :: 0 <= i < |rows| ==> Hangs(rows, i, rootId, rootPath, next))
    && (forall i, j :: 0 <= i < |rows| && 0 <= j < |rows| ==> SiblingsDiffer(rows, i, j))
  }

  /** The path of a row, or of the root. */
  function PathOf(rows: seq<Row>, rootPath: Path, next: nat, id: nat): Path
  {
    if next <= id < next + |rows| then rows[id - next].path else rootPath
  }

  predicate Known(rows: seq<Row>, rootId: nat, next: nat, id: nat) { id == rootId || next <= id < next + |rows| }

  /** By parent ids: a is b or an ancestor of b. */
  predicate Above(rows: seq<Row>, next: nat, a: nat, b: nat)
    decreases b
  {
    || a == b
    || (next <= b < next + |rows| && rows[b - next].parentId.Some? && rows[b - next].parentId.value < b
      && Above(rows, next, a, rows[b - next].parentId.value))
  }

  lemma {:induction false} BelowRoot(rows: seq<Row>, rootId: nat, rootPath: Path, next: nat, b: nat)
    requires Tree(rows, rootId, rootPath, next) && next <= b < next + |rows|
    ensures rootPath < PathOf(rows, rootPath, next, b)
    decreases b
  {
    assert Hangs(rows, b - next, rootId, rootPath, next);
    var p := rows[b - next].parentId.value;
    if p != rootId { BelowRoot(rows, rootId, rootPath, next, p); }
  }

  /** No two units share a path. */
  lemma {:induction false} PathsUnique(rows: seq<Row>, rootId: nat, rootPath: Path, next: nat, a: nat, b: nat)
    requires Tree(rows, rootId, rootPath, next) && Known(rows, rootId, next, a) && Known(rows, rootId, next, b)
    requires PathOf(rows, rootPath, next, a) == PathOf(rows, rootPath, next, b)
    ensures a == b
    decreases a + b
  {
    if a == rootId || b == rootId {
      if b != rootId { BelowRoot(rows, rootId, rootPath, next, b); }
      if a != rootId { BelowRoot(rows, rootId, rootPath, next, a); }
    } else {
      assert Hangs(rows, a - next, rootId, rootPath, next) && Hangs(rows, b - next, rootId, rootPath, next);
      PathsUnique(rows, rootId, rootPath, next, rows[a - next].parentId.value, rows[b - next].parentId.value);
      assert SiblingsDiffer(rows, a - next, b - next);
    }
  }

  /** One path starts another exactly when the one unit is the other or an ancestor of it. */
  lemma {:induction false} PrefixIffAbove(rows: seq<Row>, rootId: nat, rootPath: Path, next: nat, a: nat, b: nat)
    requires Tree(rows, rootId, rootPath, next) && Known(rows, rootId, next, a) && Known(rows, rootId, next, b)
    ensures PathOf(rows, rootPath, next, a) <= PathOf(rows, rootPath, next, b) <==> Above(rows, next, a, b)
    decreases b
  {
    var pa, pb := PathOf(rows, rootPath, next, a), PathOf(rows, rootPath, next, b);
    if a != b && b != rootId {
      assert Hangs(rows, b - next, rootId, rootPath, next);
      PrefixIffAbove(rows, rootId, rootPath, next, a, rows[b - next].parentId.value);
      if pa == pb { PathsUnique(rows, rootId, rootPath, next, a, b); }
    } else if a != b {
      BelowRoot(rows, rootId, rootPath, next, a);
    }
  }

  // ------------------------------------------------------------------ a forest's rows are a tree

  /** A row directly under the root carries the label of one of the forest's own units. */
  predicate TopFrom(rows: seq<Row>, units: seq<Unit>, rootId: nat, i: nat)
  {
    && i < |rows|
    && (rows[i].parentId == Some(rootId) ==>
        rows[i].path != [] && exists k :: 0 <= k < |units| && Label(units[k].code) == Last(rows[i].path))
  }

  predicate TopsFrom(rows: seq<Row>, units: seq<Unit>, rootId: nat)
  {
    forall i :: 0 <= i < |rows| ==> TopFrom(rows, units, rootId, i)
  }

  lemma {:induction false} RowsAreATree(units: seq<Unit>, rootId: nat, rootPath: Path, next: nat)
    requires DistinctSiblings(units) && rootId < next
    ensures Tree(Rows(units, rootId, rootPath, next), rootId, rootPath, next)
    ensures TopsFrom(Rows(units, rootId, rootPath, next), units, rootId)
  {
    if units != [] {
      var u, rest := units[0], units[1..];
      var top := RowFor(u, next, rootId, rootPath);
      var below := Rows(u.children, next, top.path, next + 1);
      var others := Rows(rest, rootId, rootPath, next + 1 + |below|);
      RowsAreATree(u.children, next, top.path, next + 1);
      assert forall i :: 0 <= i < |rest| ==> rest[i] == units[i + 1];
      RowsAreATree(rest, rootId, rootPath, next + 1 + |below|);
      JoinTops(top, below, others, units, rootId, rootPath, next);
      JoinTrees(top, below, others, rootId, rootPath, next);
    }
  }

  /** A unit's row, the rows below it and its later siblings' rows. */
  predicate Joinable(top: Row, below: seq<Row>, others: seq<Row>, rootId: nat, rootPath: Path, next: nat)
  {
    && rootId < next && top.id == next && top.parentId == Some(rootId) && top.path != []
    && top.path[..|top.path| - 1] == rootPath
    && Tree(below, next, top.path, next + 1) && Tree(others, rootId, rootPath, next + 1 + |below|)
  }

  predicate NotTheTop(top: Row, others: seq<Row>, j: nat)
  {
    && j < |others|
    && (others[j].parentId == top.parentId && top.path != [] && others[j].path != [] ==> Last(others[j].path) != Last(top.path))
  }

  lemma JoinTops(top: Row, below: seq<Row>, others: seq<Row>, units: seq<Unit>, rootId: nat, rootPath: Path, next: nat)
    requires units != [] && DistinctSiblings(units) && Joinable(top, below, others, rootId, rootPath, next)
    requires TopsFrom(others, units[1..], rootId) && Last(top.path) == Label(units[0].code)
    ensures TopsFrom([top] + below + others, units, rootId)
    ensures forall j :: 0 <= j < |others| ==> NotTheTop(top, others, j)
  {
    var rows := [top] + below + others;
    forall j | 0 <= j < |others| ensures NotTheTop(top, others, j) && TopFrom(others, units, rootId, j) {
      assert TopFrom(others, units[1..], rootId, j);
      if others[j].parentId == Some(rootId) {
        var k :| 0 <= k < |units[1..]| && Label(units[1..][k].code) == Last(others[j].path);
        assert units[1..][k] == units[k + 1];
      }
    }
    forall i | 0 <= i < |rows| ensures TopFrom(rows, units, rootId, i) {
      if 0 < i <= |below| {
        assert Hangs(below, i - 1, next, top.path, next + 1);
      } else if i > |below| {
        assert TopFrom(others, units, rootId, i - 1 - |below|);
      }
    }
  }

  lemma JoinTrees(top: Row, below: seq<Row>, others: seq<Row>, rootId: nat, rootPath: Path, next: nat)
    requires Joinable(top, below, others, rootId, rootPath, next)
    requires forall j :: 0 <= j < |others| ==> NotTheTop(top, others, j)
    ensures Tree([top] + below + others, rootId, rootPath, next)
  {
    var rows := [top] + below + others;
    forall i | 0 <= i < |rows| ensures Hangs(rows, i, rootId, rootPath, next) {
      JoinedHangs(top, below, others, rootId, rootPath, next, i);
    }
    forall i, j | 0 <= i < |rows| && 0 <= j < |rows| ensures SiblingsDiffer(rows, i, j) {
      if i < j { JoinedDiffer(top, below, others, rootId, rootPath, next, i, j); }
      else if j < i { JoinedDiffer(top, below, others, rootId, rootPath, next, j, i); }
    }
  }

  lemma JoinedHangs(top: Row, below: seq<Row>, others: seq<Row>, rootId: nat, rootPath: Path, next: nat, i: nat)
    requires Joinable(top, below, others, rootId, rootPath, next) && i < 1 + |below| + |others|
    ensures Hangs([top] + below + others, i, rootId, rootPath, next)
  {
    var rows := [top] + below + others;
    var m := 1 + |below|;
    if 0 < i < m {
      assert Hangs(below, i - 1, next, top.path, next + 1);
      var p := below[i - 1].parentId.value;
      if p != next { assert rows[p - next] == below[p - next - 1]; }
    } else if i >= m {
      assert Hangs(others, i - m, rootId, rootPath, next + m);
      var p := others[i - m].parentId.value;
      if p != rootId { assert rows[p - next] == others[p - next - m]; }
    }
  }

  lemma JoinedDiffer(top: Row, below: seq<Row>, others: seq<Row>, rootId: nat, rootPath: Path, next: nat, i: nat, j: nat)
    requires Joinable(top, below, others, rootId, rootPath, next) && i < j < 1 + |below| + |others|
    requires forall j :: 0 <= j < |others| ==> NotTheTop(top, others, j)
    ensures SiblingsDiffer([top] + below + others, i, j) && SiblingsDiffer([top] + below + others, j, i)
  {
    var m := 1 + |below|;
    if 0 < i < m { assert Hangs(below, i - 1, next, top.path, next + 1); }
    if 0 < j < m { assert Hangs(below, j - 1, next, top.path, next + 1); }
    if i >= m { assert Hangs(others, i - m, rootId, rootPath, next + m); }
    if j >= m { assert Hangs(others, j - m, rootId, rootPath, next + m); }
    if i == 0 {
      if j >= m { assert NotTheTop(top, others, j - m); }
    } else if j < m {
      assert SiblingsDiffer(below, i - 1, j - 1);
    } else if i >= m {
      assert SiblingsDiffer(others, i - m, j - m);
    }
  }

  // ------------------------------------------------------------------ exactly when paths are unique

  predicate PathsDistinct(rows: seq<Row>)
  {
    forall i, j :: 0 <= i < j < |rows| ==> rows[i].path != rows[j].path
  }

  predicate HasPath(rows: seq<Row>, p: Path) { exists i :: 0 <= i < |rows| && rows[i].path == p }

  lemma PathsOfBoth(a: seq<Row>, b: seq<Row>)
    requires PathsDistinct(a + b)
    ensures PathsDistinct(a) && PathsDistinct(b)
    ensures forall p :: !(HasPath(a, p) && HasPath(b, p))
  {
    var rows := a + b;
    forall i, j | 0 <= i < j < |a| ensures a[i].path != a[j].path { assert rows[i] == a[i] && rows[j] == a[j]; }
    forall i, j | 0 <= i < j < |b| ensures b[i].path != b[j].path { assert rows[|a| + i] == b[i] && rows[|a| + j] == b[j]; }
    forall i, j | 0 <= i < |a| && 0 <= j < |b| ensures a[i].path != b[j].path {
      assert rows[i] == a[i] && rows[|a| + j] == b[j];
    }
  }

  lemma HasPathIn(a: seq<Row>, b: seq<Row>, p: Path)
    requires HasPath(a, p) || HasPath(b, p)
    ensures HasPath(a + b, p)
  {
    if HasPath(a, p) {
      var i :| 0 <= i < |a| && a[i].path == p;
      assert (a + b)[i] == a[i];
    } else {
      var i :| 0 <= i < |b| && b[i].path == p;
      assert (a + b)[|a| + i] == b[i];
    }
  }

  lemma {:induction false} RowOfTop(units: seq<Unit>, rootId: nat, rootPath: Path, next: nat, k: nat)
    requires k < |units|
    ensures HasPath(Rows(units, rootId, rootPath, next), rootPath + [Label(units[k].code)])
  {
    var p := rootPath + [Label(units[k].code)];
    var first := UnitRows(units[0], rootId, rootPath, next);
    var others := Rows(units[1..], rootId, rootPath, next + |first|);
    if k == 0 {
      assert first[0].path == p;
    } else {
      assert units[1..][k - 1] == units[k];
      RowOfTop(units[1..], rootId, rootPath, next + |first|, k - 1);
    }
    HasPathIn(first, others, p);
  }

  /** Siblings with one label end up with one path. */
  lemma {:induction false} DistinctPathsNeedIt(units: seq<Unit>, rootId: nat, rootPath: Path, next: nat)
    requires PathsDistinct(Rows(units, rootId, rootPath, next))
    ensures DistinctSiblings(units)
  {
    if units != [] {
      var u, rest := units[0], units[1..];
      var top := RowFor(u, next, rootId, rootPath);
      var below := Rows(u.children, next, top.path, next + 1);
      var first := UnitRows(u, rootId, rootPath, next);
      var others := Rows(rest, rootId, rootPath, next + |first|);
      PathsOfBoth(first, others);
      PathsOfBoth([top], below);
      DistinctPathsNeedIt(u.children, next, top.path, next + 1);
      DistinctPathsNeedIt(rest, rootId, rootPath, next + |first|);
      if !DistinctSiblings(units) {
        var k := FirstClashes(units);
        RowOfTop(rest, rootId, rootPath, next + |first|, k - 1);
        assert first[0].path == rootPath + [Label(u.code)];
        assert HasPath(first, top.path);
      }
    }
  }

  lemma FirstClashes(units: seq<Unit>) returns (k: nat)
    requires units != [] && !DistinctSiblings(units) && DistinctSiblings(units[1..]) && DistinctSiblings(units[0].children)
    ensures 0 < k < |units| && Label(units[k].code) == Label(units[0].code) && units[1..][k - 1] == units[k]
  {
    assert forall k :: 0 < k < |units| ==> units[1..][k - 1] == units[k];
    k :| 0 < k < |units| && Label(units[k].code) == Label(units[0].code);
  }

  /** The rows of a forest have paths of their own exactly when siblings have labels of their own. */
  lemma PathsUniqueIff(units: seq<Unit>, rootId: nat, rootPath: Path, next: nat)
    requires rootId < next
    ensures PathsDistinct(Rows(units, rootId, rootPath, next)) <==> DistinctSiblings(units)
  {
    var rows := Rows(units, rootId, rootPath, next);
    if DistinctSiblings(units) {
      RowsAreATree(units, rootId, rootPath, next);
      forall i, j | 0 <= i < j < |rows| ensures rows[i].path != rows[j].path {
        if rows[i].path == rows[j].path { PathsUnique(rows, rootId, rootPath, next, next + i, next + j); }
      }
    }
    if PathsDistinct(rows) { DistinctPathsNeedIt(units, rootId, rootPath, next); }
  }

  /** In the rows of every forest with sibling-distinct labels, and the unit they hang off, one path
      starts another exactly when the units are the same or ancestor and descendant by parent id. */
  lemma FlatteningKeepsAncestry(units: seq<Unit>, rootId: nat, rootPath: Path, next: nat, a: nat, b: nat)
    requires DistinctSiblings(units) && rootId < next
    requires Known(Rows(units, rootId, rootPath, next), rootId, next, a)
    requires Known(Rows(units, rootId, rootPath, next), rootId, next, b)
    ensures var rows := Rows(units, rootId, rootPath, next);
      PathOf(rows, rootPath, next, a) <= PathOf(rows, rootPath, next, b) <==> Above(rows, next, a, b)
  {
    RowsAreATree(units, rootId, rootPath, next);
    PrefixIffAbove(Rows(units, rootId, rootPath, next), rootId, rootPath, next, a, b);
  }

  // ------------------------------------------------------------------ one region's transaction

  datatype Outcome = Seeded | SetUp | DefaultRetired | Failed

  predicate CodesDistinct(rows: seq<Row>)
  {
    forall i, j :: 0 <= i < j < |rows| ==> rows[i].code != rows[j].code
  }

  /** The rows go in one by one: each needs a code, and one the region does not have yet, and a path that
      can be written: below a parent without labels it would start with a dot. */
  predicate Accepted(rows: seq<Row>, more: seq<Row>)
  {
    CodesDistinct(rows + more) && forall i :: 0 <= i < |more| ==> more[i].code != "" && |more[i].path| > 1
  }

  predicate HasCode(rows: seq<Row>, code: string) { exists i :: 0 <= i < |rows| && rows[i].code == code }

  /** The first row with this code, which is the only one. */
  function Find(rows: seq<Row>, code: string): (r: Option<Row>)
    ensures r.Some? <==> HasCode(rows, code)
    ensures r.Some? ==> r.value in rows && r.value.code == code
  {
    if rows == [] then None
    else if rows[0].code == code then assert HasCode(rows, code) by { assert rows[0].code == code; } Some(rows[0])
    else
      assert forall i :: 0 < i < |rows| ==> rows[1..][i - 1] == rows[i];
      Find(rows[1..], code)
  }

  const DEFAULT := "default"

  /** A region without a code has a default unit whose path has no labels. */
  function DefaultRow(def: RegionDef, id: nat): Row
  {
    Row(id, None, if def.code == "" then [] else [Label(def.code)], DEFAULT, def.displayName + " (default)", "bu", true, false)
  }

  /** Holding nodes of the system: parentless, with a code no one can type. */
  predicate SystemNode(r: Row) { r.parentId.None? && r.code != "" && r.code[0] == '_' }

  /** Some unit, active or retired, that is neither the default nor a holding node. */
  predicate IsSetUp(rows: seq<Row>)
  {
    exists i :: 0 <= i < |rows| && rows[i].code != DEFAULT && !SystemNode(rows[i])
  }

  function WithDefault(rows: seq<Row>, next: nat, def: RegionDef): seq<Row>
  {
    if HasCode(rows, DEFAULT) then rows else rows + [DefaultRow(def, next)]
  }

  function NextAfterDefault(rows: seq<Row>, next: nat): nat
  {
    if HasCode(rows, DEFAULT) then next else next + 1
  }

  /** What the transaction makes of a region. */
  function Seed(rows: seq<Row>, next: nat, def: RegionDef): (Outcome, seq<Row>)
  {
    var all := WithDefault(rows, next, def);
    DefaultIsThere(rows, next, def);
    var d := Find(all, DEFAULT).value;
    if d.retired then (DefaultRetired, all)
    else if IsSetUp(all) then (SetUp, all)
    else
      var more := Rows(def.units, d.id, d.path, NextAfterDefault(rows, next));
      if Accepted(all, more) then (Seeded, all + more) else (Failed, rows)
  }

  /** A row that says the region is set up: neither the default unit nor a holding node of the system. */
  predicate MadeByHand(r: Row) { r.code != DEFAULT && (r.parentId.Some? || !("_" <= r.code)) }

  /** What becomes of a region, by its default unit, its other rows and the rows of the definition; and what its
      default unit is when it had none. */
  lemma SeedsExactlyWhen(rows: seq<Row>, next: nat, def: RegionDef) returns (d: Row)
    ensures d in WithDefault(rows, next, def) && d.code == DEFAULT
    ensures var outcome := Seed(rows, next, def).0;
      && (outcome == DefaultRetired <==> d.retired)
      && (outcome == SetUp <==> !d.retired && exists r :: r in rows && MadeByHand(r))
      && (outcome == Seeded ==> Accepted(WithDefault(rows, next, def), Rows(def.units, d.id, d.path, NextAfterDefault(rows, next))))
      && (outcome == Failed ==> !Accepted(WithDefault(rows, next, def), Rows(def.units, d.id, d.path, NextAfterDefault(rows, next))))
    ensures !HasCode(rows, DEFAULT) ==> d == Row(next, None, d.path, DEFAULT, def.displayName + " (default)", "bu", true, false)
    ensures !HasCode(rows, DEFAULT) && def.code != "" ==> d.path == [Label(def.code)]
  {
    var all := WithDefault(rows, next, def);
    DefaultIsThere(rows, next, def);
    d := Find(all, DEFAULT).value;
    if !HasCode(rows, DEFAULT) { FindsAdded(rows, DefaultRow(def, next)); }
    SetUpByHand(rows, next, def);
  }

  lemma SetUpByHand(rows: seq<Row>, next: nat, def: RegionDef)
    ensures IsSetUp(WithDefault(rows, next, def)) <==> exists r :: r in rows && MadeByHand(r)
  {
    var all := WithDefault(rows, next, def);
    if r :| r in rows && MadeByHand(r) {
      var i :| 0 <= i < |rows| && rows[i] == r;
      assert all[i] == r;
    }
    if IsSetUp(all) {
      var i :| 0 <= i < |all| && all[i].code != DEFAULT && !SystemNode(all[i]);
      assert all[i] == rows[i] && rows[i] in rows;
    }
  }

  lemma {:induction false} RowsOfBoth(a: seq<Unit>, b: seq<Unit>, parentId: nat, parentPath: Path, next: nat)
    ensures Rows(a + b, parentId, parentPath, next) ==
      Rows(a, parentId, parentPath, next) + Rows(b, parentId, parentPath, next + |Rows(a, parentId, parentPath, next)|)
  {
    if a == [] {
      assert a + b == b;
    } else {
      assert (a + b)[0] == a[0] && (a + b)[1..] == a[1..] + b;
      var first := UnitRows(a[0], parentId, parentPath, next);
      RowsOfBoth(a[1..], b, parentId, parentPath, next + |first|);
    }
  }

  /** The rows of the first i + 1 units, and of all of them, start with those of the first i. */
  lemma RowsOfNext(units: seq<Unit>, i: nat, parentId: nat, parentPath: Path, next: nat)
    requires i < |units|
    ensures var had := Rows(units[..i], parentId, parentPath, next);
      Rows(units[..i + 1], parentId, parentPath, next) == had + UnitRows(units[i], parentId, parentPath, next + |had|)
    ensures Rows(units[..i + 1], parentId, parentPath, next) <= Rows(units, parentId, parentPath, next)
  {
    var had := Rows(units[..i], parentId, parentPath, next);
    var one := [units[i]];
    assert units[..i + 1] == units[..i] + one;
    RowsOfBoth(units[..i], one, parentId, parentPath, next);
    assert one[0] == units[i] && one[1..] == [];
    assert units == units[..i + 1] + units[i + 1..];
    RowsOfBoth(units[..i + 1], units[i + 1..], parentId, parentPath, next);
  }

  lemma RefusedEarly(rows: seq<Row>, some: seq<Row>, all: seq<Row>)
    requires some <= all && !Accepted(rows, some)
    ensures !Accepted(rows, all)
  {
    AcceptedInTwo(rows, some, all[|some|..]);
    assert some + all[|some|..] == all;
  }

  lemma AcceptedInTwo(rows: seq<Row>, a: seq<Row>, b: seq<Row>)
    ensures Accepted(rows, a + b) <==> Accepted(rows, a) && Accepted(rows + a, b)
  {
    assert rows + (a + b) == rows + a + b;
    if Accepted(rows, a + b) {
      assert forall i :: 0 <= i < |rows + a| ==> (rows + a)[i] == (rows + (a + b))[i];
      assert forall i :: 0 <= i < |a| ==> a[i] == (a + b)[i];
      assert forall i :: 0 <= i < |b| ==> b[i] == (a + b)[|a| + i];
    }
  }

  lemma OneAccepted(rows: seq<Row>, r: Row)
    requires CodesDistinct(rows)
    ensures Accepted(rows, [r]) <==> r.code != "" && |r.path| > 1 && !HasCode(rows, r.code)
  {
    var all := rows + [r];
    assert all[|rows|] == r && [r][0] == r;
    if HasCode(rows, r.code) {
      var i :| 0 <= i < |rows| && rows[i].code == r.code;
      assert all[i].code == all[|rows|].code;
    }
  }

  class Region {
    var rows: seq<Row>
    var nextId: nat

    ghost predicate Valid()
      reads this
    {
      CodesDistinct(rows) && forall i :: 0 <= i < |rows| ==> rows[i].id < nextId
    }

    constructor ()
      ensures Valid() && rows == []
    {
      rows, nextId := [], 0;
    }

    /** One row below another; refused without a code, with one that is taken, or without a path. */
    method Insert(r: Row) returns (ok: bool)
      requires Valid() && r.id == nextId
      modifies this
      ensures Valid() && ok == Accepted(old(rows), [r])
      ensures if ok then rows == old(rows) + [r] && nextId == old(nextId) + 1 else rows == old(rows) && nextId == old(nextId)
    {
      OneAccepted(rows, r);
      ok := r.code != "" && |r.path| > 1 && !HasCode(rows, r.code);
      if ok { rows, nextId := rows + [r], nextId + 1; }
    }

    method InsertUnit(u: Unit, parentId: nat, parentPath: Path) returns (ok: bool)
      requires Valid()
      modifies this
      ensures Valid() && ok == Accepted(old(rows), UnitRows(u, parentId, parentPath, old(nextId)))
      ensures ok ==> rows == old(rows) + UnitRows(u, parentId, parentPath, old(nextId)) && nextId == old(nextId) + |UnitRows(u, parentId, parentPath, old(nextId))|
      decreases u
    {
      var top := RowFor(u, nextId, parentId, parentPath);
      ghost var was, from := rows, nextId;
      AcceptedInTwo(was, [top], Rows(u.children, from, top.path, from + 1));
      ok := Insert(top);
      if !ok { return; }
      ok := InsertUnits(u.children, top.id, top.path);
      assert was + ([top] + Rows(u.children, from, top.path, from + 1)) == was + [top] + Rows(u.children, from, top.path, from + 1);
    }

    method SeedRegion(def: RegionDef) returns (outcome: Outcome)
      requires Valid()
      modifies this
      ensures Valid()
      ensures (outcome, rows) == Seed(old(rows), old(nextId), def)
    {
      var before, idBefore := rows, nextId;
      DefaultIsThere(rows, nextId, def);
      EnsureDefault(def);
      var d := Find(rows, DEFAULT).value;
      if d.retired { return DefaultRetired; }
      if IsSetUp(rows) { return SetUp; }
      var ok := InsertUnits(def.units, d.id, d.path);
      if !ok {
        rows, nextId := before, idBefore;
        return Failed;
      }
      return Seeded;
    }

    method EnsureDefault(def: RegionDef)
      requires Valid()
      modifies this
      ensures Valid() && rows == WithDefault(old(rows), old(nextId), def) && nextId == NextAfterDefault(old(rows), old(nextId))
    {
      if !HasCode(rows, DEFAULT) {
        rows, nextId := rows + [DefaultRow(def, nextId)], nextId + 1;
      }
    }

    method InsertUnits(units: seq<Unit>, parentId: nat, parentPath: Path) returns (ok: bool)
      requires Valid()
      modifies this
      ensures Valid() && ok == Accepted(old(rows), Rows(units, parentId, parentPath, old(nextId)))
      ensures ok ==> Inserted(old(rows), Rows(units, parentId, parentPath, old(nextId)), old(nextId), rows, nextId)
      decreases units
    {
      ghost var was, from := rows, nextId;
      for i := 0 to |units|
        invariant Valid() && Inserted(was, Rows(units[..i], parentId, parentPath, from), from, rows, nextId)
      {
        ghost var had, one := Rows(units[..i], parentId, parentPath, from), UnitRows(units[i], parentId, parentPath, nextId);
        RowsOfNext(units, i, parentId, parentPath, from);
        InsertMore(was, had, one, Rows(units, parentId, parentPath, from), from, rows, nextId);
        ok := InsertUnit(units[i], parentId, parentPath);
        if !ok { return; }
      }
      assert units[..|units|] == units;
      ok := true;
    }
  }

  // ------------------------------------------------------------------ seeding again

  /** A region that is set up is left exactly as it is, unless its default unit is missing; it then gains that
      and nothing else. */
  lemma SetUpIsLeftAlone(rows: seq<Row>, next: nat, def: RegionDef)
    requires IsSetUp(rows)
    ensures Seed(rows, next, def).1 == rows <==> HasCode(rows, DEFAULT)
    ensures Seed(rows, next, def).1 != rows ==> Seed(rows, next, def) == (SetUp, rows + [DefaultRow(def, next)])
    ensures HasCode(rows, DEFAULT) ==> Seed(rows, next, def).0 in {SetUp, DefaultRetired}
  {
    var all := WithDefault(rows, next, def);
    var i :| 0 <= i < |rows| && rows[i].code != DEFAULT && !SystemNode(rows[i]);
    assert all[i] == rows[i];
    if !HasCode(rows, DEFAULT) { FindsAdded(rows, DefaultRow(def, next)); }
  }

  /** A code that no other row has is found in the row that was added. */
  lemma {:induction false} FindsAdded(rows: seq<Row>, r: Row)
    requires !HasCode(rows, r.code)
    ensures Find(rows + [r], r.code) == Some(r)
  {
    if rows != [] {
      assert (rows + [r])[1..] == rows[1..] + [r];
      assert rows[0].code != r.code;
      FindsAdded(rows[1..], r);
    }
  }

  /** Such a region: one unit made by hand, and no default unit. */
  lemma SetUpGainsItsDefault(rows: seq<Row>, def: RegionDef)
    requires rows == [Row(0, None, ["emea", "emea_ops"], "emea-ops", "Operations", "bu", true, false)] && def.code == "emea"
    ensures IsSetUp(rows) && |Seed(rows, 1, def).1| == 2 && Seed(rows, 1, def).0 == SetUp
  {
    assert rows[0].code[0] == 'e' && DEFAULT[0] == 'd';
    SetUpIsLeftAlone(rows, 1, def);
  }

  /** Once a run has not failed, another run with any definition changes nothing, unless the first seeded a
      definition without units and the second brings some that can go in. */
  lemma RerunAddsNothingIff(rows: seq<Row>, next: nat, def: RegionDef, next': nat, def': RegionDef)
    requires Seed(rows, next, def).0 != Failed
    ensures var (o, all) := Seed(rows, next, def);
      HasCode(all, DEFAULT) && var d := Find(all, DEFAULT).value;
      && (Seed(all, next', def').1 == all <==>
        !(o == Seeded && def.units == [] && def'.units != [] && Accepted(all, Rows(def'.units, d.id, d.path, next'))))
      && ((o == Seeded && def.units == []) || Seed(all, next', def').0 in {SetUp, DefaultRetired})
  {
    var (o, all') := Seed(rows, next, def);
    var all := WithDefault(rows, next, def);
    DefaultIsThere(rows, next, def);
    var d := Find(all, DEFAULT).value;
    if o == Seeded {
      var from := NextAfterDefault(rows, next);
      RowsAreCounted(def.units, d.id, d.path, from);
      if def.units != [] {
        SeededIsSetUp(all, Rows(def.units, d.id, d.path, from));
      } else {
        assert all' == all;
        RowsAreCounted(def'.units, d.id, d.path, next');
      }
    }
    if o == SetUp || (o == Seeded && def.units != []) { SetUpIsLeftAlone(all', next', def'); }
  }

  /** Such runs: a definition without units, and then one that has a unit. */
  lemma RerunAddsAUnit(rows: seq<Row>, def: RegionDef, def': RegionDef)
    requires rows == [] && def == RegionDef("emea", "EMEA", [])
    requires def' == RegionDef("emea", "EMEA", [Unit("bts", "Business Technology Strategy", None, None, [])])
    ensures Seed(rows, 0, def).0 == Seeded && |Seed(rows, 0, def).1| == 1
    ensures var again := Seed(Seed(rows, 0, def).1, 1, def'); again.0 == Seeded && |again.1| == 2
  {
  }

  lemma SeededIsSetUp(all: seq<Row>, more: seq<Row>)
    requires HasCode(all, DEFAULT) && Accepted(all, more) && more != [] && more[0].parentId.Some?
    ensures IsSetUp(all + more) && HasCode(all + more, DEFAULT)
  {
    var rows := all + more;
    var k :| 0 <= k < |all| && all[k].code == DEFAULT;
    assert rows[k] == all[k] && rows[|all|] == more[0];
    assert rows[|all|].code != DEFAULT;
  }

  lemma DefaultIsThere(rows: seq<Row>, next: nat, def: RegionDef)
    ensures HasCode(WithDefault(rows, next, def), DEFAULT)
  {
    var all := WithDefault(rows, next, def);
    if !HasCode(rows, DEFAULT) { assert all[|rows|].code == DEFAULT; }
  }

  /** A seeded region keeps its rows, and gains exactly as many as its definition counts, hung off the
      default unit, with ancestry and paths in step when siblings have labels of their own. */
  lemma SeededRegion(rows: seq<Row>, next: nat, def: RegionDef) returns (d: Row, more: seq<Row>)
    requires Seed(rows, next, def).0 == Seeded && forall i :: 0 <= i < |rows| ==> rows[i].id < next
    ensures Seed(rows, next, def).1 == WithDefault(rows, next, def) + more && |more| == Count(def.units)
    ensures d in WithDefault(rows, next, def) && d.code == DEFAULT && !d.retired
    ensures PathsDistinct(more) <==> DistinctSiblings(def.units)
    ensures DistinctSiblings(def.units) ==> Tree(more, d.id, d.path, NextAfterDefault(rows, next))
  {
    var from := NextAfterDefault(rows, next);
    DefaultIsThere(rows, next, def);
    d := Find(WithDefault(rows, next, def), DEFAULT).value;
    more := Rows(def.units, d.id, d.path, from);
    RowsAreCounted(def.units, d.id, d.path, from);
    PathsUniqueIff(def.units, d.id, d.path, from);
    if DistinctSiblings(def.units) { RowsAreATree(def.units, d.id, d.path, from); }
  }

  // ------------------------------------------------------------------ going in one by one

  /** These rows went in after `was`. */
  predicate Inserted(was: seq<Row>, more: seq<Row>, next: nat, rows: seq<Row>, nextId: nat)
  {
    Accepted(was, more) && rows == was + more && nextId == next + |more|
  }

  lemma InsertMore(was: seq<Row>, had: seq<Row>, one: seq<Row>, all: seq<Row>, next: nat, rows: seq<Row>, nextId: nat)
    requires Inserted(was, had, next, rows, nextId) && had + one <= all
    ensures Accepted(rows, one) ==> Inserted(was, had + one, next, rows + one, nextId + |one|)
    ensures !Accepted(rows, one) ==> !Accepted(was, all)
  {
    AcceptedInTwo(was, had, one);
    if !Accepted(rows, one) { RefusedEarly(was, had + one, all); }
  }
}
