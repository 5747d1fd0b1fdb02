/**
  Wiki links: what publishing does to a link, and the link that is written so that it survives publishing.
 */
module LinkAudit {
  import opened Wrappers

  /** A component of a path: never empty, no slash, and not a step to itself or its parent. */
  type Part = p: string | p != "" && p != "." && p != ".." && '/' !in p witness "p"

  /** A file's path below the wiki; its last component is the file's name. */
  type Rel = r: seq<Part> | r != [] witness ["p"]

  /** A link after publishing: its flat target, or none for a bare anchor. */
  datatype Link = Link(path: Option<string>, anchor: string)

  function Name(r: Rel): Part { r[|r| - 1] }

  predicate EndsMd(s: string) { |s| >= 3 && s[|s| - 3..] == ".md" }

  function StripMd(s: string): string { if EndsMd(s) then s[..|s| - 3] else s }

  /** The flat name a source file is published under. */
  function SourceToFlat(r: Rel): string
  {
    if |r| == 1 then StripMd(r[0])
    else if Name(r) == "README.md" then r[0] + "-Overview"
    else r[0] + "-" + StripMd(Name(r))
  }

  // ------------------------------------------------------------------ reading a link's text

  predicate IsSpace(c: char)
  {
    var n := c as int;
    || 9 <= n <= 13 || 28 <= n <= 32 || n == 0x85 || n == 0xA0 || n == 0x1680 || 0x2000 <= n <= 0x200A
    || n == 0x2028 || n == 0x2029 || n == 0x202F || n == 0x205F || n == 0x3000
  }

  /** How many characters of white space it starts with. */
  function Lead(t: string): (k: nat)
    ensures k <= |t| && (forall j :: 0 <= j < k ==> IsSpace(t[j])) && (k < |t| ==> !IsSpace(t[k]))
  {
    if t == "" || !IsSpace(t[0]) then 0 else 1 + Lead(t[1..])
  }

  /** Where its white space at the end starts. */
  function Tail(t: string): (k: nat)
    ensures k <= |t| && (forall j :: k <= j < |t| ==> IsSpace(t[j])) && (k > 0 ==> !IsSpace(t[k - 1]))
  {
    if t == "" || !IsSpace(t[|t| - 1]) then |t| else Tail(t[..|t| - 1])
  }

  function Strip(t: string): string
  {
    var u := t[Lead(t)..];
    u[..Tail(u)]
  }

  predicate TitleAt(t: string, k: nat, quote: char)
  {
    k + 1 < |t| && t[k] == ' ' && t[k + 1] == quote
  }

  /** Where a title in this kind of quote starts, or the end. */
  function FirstTitle(t: string, quote: char): (k: nat)
    ensures k <= |t| && (k < |t| ==> TitleAt(t, k, quote)) && forall j :: 0 <= j < k ==> !TitleAt(t, j, quote)
  {
    if t == "" then 0
    else if TitleAt(t, 0, quote) then 0
    else
      assert forall j :: 0 < j < |t| ==> TitleAt(t, j, quote) == TitleAt(t[1..], j - 1, quote);
      1 + FirstTitle(t[1..], quote)
  }

  function FirstHash(t: string): (k: nat)
    ensures k <= |t| && (k < |t| ==> t[k] == '#') && forall j :: 0 <= j < k ==> t[j] != '#'
  {
    if t == "" || t[0] == '#' then 0 else 1 + FirstHash(t[1..])
  }

  function DropHashes(t: string): string
  {
    if t != "" && t[0] == '#' then DropHashes(t[1..]) else t
  }

  /** The link without white space around it and without its title. */
  function Bare(target: string): string
  {
    CutTitle(Strip(target))
  }

  function CutTitle(t: string): string
  {
    var a := t[..FirstTitle(t, '"')];
    Strip(a[..FirstTitle(a, '\'')])
  }

  // ------------------------------------------------------------------ what publishing rewrites

  predicate HasDots(s: string)
  {
    exists k :: 0 <= k < |s| - 1 && s[k] == '.' && s[k + 1] == '.'
  }

  function DropDot(s: string): string { if "./" <= s then s[2..] else s }

  function DropUp(s: string): string { if "../" <= s then s[3..] else s }

  function SameDir(path: string, src: Rel): string
  {
    if |src| > 1 && '/' !in path && !HasDots(path) then
      if path == "README.md" then src[0] + "-Overview.md" else if EndsMd(path) then src[0] + "-" + path else path
    else path
  }

  /** The end of a README pattern is also met just before a final newline. */
  function SubReadme(from: string, p: string, path: string): string
  {
    if path == from + "/README.md" then p + "-Overview.md"
    else if path == from + "/README.md\n" then p + "-Overview.md\n"
    else path
  }

  function SubDir(from: string, p: string, path: string): string
  {
    if from + "/" <= path then p + "-" + path[|from| + 1..] else path
  }

  function SubPrefix(p: string, path: string): string
  {
    SubDir("../" + p, p, SubDir(p, p, SubReadme("../" + p, p, SubReadme(p, p, path))))
  }

  function SubAll(prefixes: seq<Part>, path: string): string
    decreases |prefixes|
  {
    if prefixes == [] then path else SubAll(prefixes[1..], SubPrefix(prefixes[0], path))
  }

  function Published(path: string, src: Rel, prefixes: seq<Part>): string
  {
    StripMd(DropUp(SubAll(prefixes, SameDir(DropDot(path), src))))
  }

  function Transformed(target: string, src: Rel, prefixes: seq<Part>): Link
  {
    var t := Bare(target);
    if "#" <= t then Link(None, DropHashes(t))
    else
      var h := FirstHash(t);
      Link(Some(Published(t[..h], src, prefixes)), if h < |t| then t[h + 1..] else "")
  }

  method ApplyPrefixes(from: string, prefixes: seq<Part>) returns (path: string)
    ensures path == SubAll(prefixes, from)
  {
    path := from;
    for i := 0 to |prefixes|
      invariant SubAll(prefixes, from) == SubAll(prefixes[i..], path)
    {
      var p := prefixes[i];
      assert prefixes[i..][0] == p && prefixes[i..][1..] == prefixes[i + 1..];
      ghost var was := path;
      path := SubReadme(p, p, path);
      path := SubReadme("../" + p, p, path);
      path := SubDir(p, p, path);
      path := SubDir("../" + p, p, path);
      assert path == SubPrefix(p, was);
    }
  }

  method RewriteHere(from: string, src: Rel) returns (path: string)
    ensures path == SameDir(DropDot(from), src)
  {
    path := from;
    if "./" <= path { path := path[2..]; }
    if |src| > 1 && '/' !in path && !HasDots(path) {
      if path == "README.md" {
        path := src[0] + "-Overview.md";
      } else if EndsMd(path) {
        path := src[0] + "-" + path;
      }
    }
  }

  method TransformLink(target: string, src: Rel, prefixes: seq<Part>) returns (link: Link)
    ensures link == Transformed(target, src, prefixes)
  {
    var t := Bare(target);
    if "#" <= t { return Link(None, DropHashes(t)); }
    var path, anchor := t, "";
    var h := FirstHash(t);
    if h < |t| { path, anchor := t[..h], t[h + 1..]; }
    assert path == t[..h];
    path := RewriteHere(path, src);
    path := ApplyPrefixes(path, prefixes);
    if "../" <= path { path := path[3..]; }
    if EndsMd(path) { path := path[..|path| - 3]; }
    link := Link(Some(path), anchor);
  }

  // ------------------------------------------------------------------ the link that is written

  function NewPath(src: Rel, tgt: Rel): string
  {
    if |src| == 1 && |tgt| == 1 then Name(tgt)
    else if |src| == 1 then tgt[0] + "/" + Name(tgt)
    else if |tgt| == 1 then "../" + Name(tgt)
    else if src[0] == tgt[0] then Name(tgt)
    else "../" + tgt[0] + "/" + Name(tgt)
  }

  function NewTarget(src: Rel, tgt: Rel, anchor: string): string
  {
    WithAnchor(NewPath(src, tgt), anchor)
  }

  function WithAnchor(path: string, anchor: string): string
  {
    path + if anchor != "" then "#" + anchor else ""
  }

  // ------------------------------------------------------------------ what the prefix loop does

  lemma SlashOnce(p: string, q: string, x: string)
    requires '/' !in p && '/' !in q && p + "/" <= q + "/" + x
    ensures p == q
  {
    var s := q + "/" + x;
    var m := p + "/";
    assert forall k :: 0 <= k < |q| ==> s[k] == q[k];
    assert forall k :: 0 <= k < |p| ==> m[k] == p[k];
    assert forall k :: 0 <= k < |m| ==> s[k] == m[k];
    assert p == m[..|p|] && q == s[..|q|] && m[|p|] == '/' && s[|q|] == '/';
  }

  lemma NoSlashNoMatch(p: string, s: string)
    requires '/' !in s
    ensures !(p + "/" <= s) && s != p + "/README.md" && s != p + "/README.md\n"
  {
    assert (p + "/")[|p|] == '/' && (p + "/README.md")[|p|] == '/' && (p + "/README.md\n")[|p|] == '/';
  }

  /** A file one directory down, flattened but still with its extension. */
  function Joined(q: string, x: string): string
  {
    if x == "README.md" then q + "-Overview.md" else if x == "README.md\n" then q + "-Overview.md\n" else q + "-" + x
  }

  lemma JoinedNoSlash(q: string, x: string)
    requires '/' !in q && '/' !in x
    ensures '/' !in Joined(q, x)
  {
  }

  /** A pattern that does not start the text leaves it alone. */
  lemma NoMatch(from: string, p: string, s: string)
    requires !(from + "/" <= s)
    ensures SubReadme(from, p, s) == s && SubDir(from, p, s) == s
  {
    assert from + "/README.md" == from + "/" + "README.md";
    assert from + "/README.md\n" == from + "/" + "README.md\n";
  }

  lemma Match(from: string, p: string, x: string)
    ensures var s := SubReadme(from, p, from + "/" + x);
      if x == "README.md" || x == "README.md\n" then s == Joined(p, x) else s == from + "/" + x && SubDir(from, p, s) == Joined(p, x)
  {
    assert (from + "/" + x)[|from| + 1..] == x;
    assert (from + "/README.md")[|from| + 1..] == "README.md";
    assert (from + "/README.md\n")[|from| + 1..] == "README.md\n";
  }

  /** Neither pattern of a prefix is met in a text without a slash. */
  lemma Done(p: Part, s: string)
    requires '/' !in s
    ensures !(p + "/" <= s) && !("../" + p + "/" <= s) && SubPrefix(p, s) == s
  {
    var up := "../" + p;
    NoSlashNoMatch(p, s);
    NoSlashNoMatch(up, s);
    NoMatch(p, p, s);
    NoMatch(up, p, s);
  }

  /** q/x under one prefix. */
  lemma SubIn(p: Part, q: string, x: string)
    requires '/' !in q && '/' !in x && q != ".."
    ensures SubPrefix(p, q + "/" + x) == if p == q then Joined(q, x) else q + "/" + x
  {
    var s := q + "/" + x;
    var up := "../" + p;
    if up + "/" <= s { assert ".." + "/" <= s; SlashOnce("..", q, x); }
    NoMatch(up, p, s);
    if p == q {
      Match(p, p, x);
      JoinedNoSlash(q, x);
      Done(p, Joined(q, x));
      NoMatch(p, p, Joined(q, x));
      NoMatch(up, p, Joined(q, x));
    } else {
      if p + "/" <= s { SlashOnce(p, q, x); }
      NoMatch(p, p, s);
    }
  }

  /** ../q/x under one prefix. */
  lemma SubUpIn(p: Part, q: string, x: string)
    requires '/' !in q && '/' !in x
    ensures SubPrefix(p, "../" + q + "/" + x) == if p == q then Joined(q, x) else "../" + q + "/" + x
  {
    var s := "../" + q + "/" + x;
    var up := "../" + p;
    UpIsNotIn(p, q + "/" + x);
    assert s == "../" + (q + "/" + x);
    NoMatch(p, p, s);
    if p == q {
      assert s == up + "/" + x;
      Match(up, p, x);
      JoinedNoSlash(q, x);
      Done(p, Joined(q, x));
      NoMatch(p, p, Joined(q, x));
      NoMatch(up, p, Joined(q, x));
    } else {
      if p + "/" <= q + "/" + x { SlashOnce(p, q, x); }
      NoMatch(up, p, s);
    }
  }

  /** A text that starts by going up starts with no component, and goes into one when the rest does. */
  lemma UpIsNotIn(p: Part, rest: string)
    ensures !(p + "/" <= "../" + rest)
    ensures "../" + p + "/" <= "../" + rest <==> p + "/" <= rest
  {
    var s := "../" + rest;
    assert s == ".." + "/" + rest && s[3..] == rest;
    if p + "/" <= s { SlashOnce(p, "..", rest); }
    assert ("../" + p + "/")[3..] == p + "/";
  }

  lemma SubUp(p: Part, x: string)
    requires '/' !in x
    ensures SubPrefix(p, "../" + x) == "../" + x
  {
    UpIsNotIn(p, x);
    NoSlashNoMatch(p, x);
    NoMatch(p, p, "../" + x);
    NoMatch("../" + p, p, "../" + x);
  }

  lemma {:induction false} AllBare(prefixes: seq<Part>, s: string)
    requires '/' !in s
    ensures SubAll(prefixes, s) == s
    decreases |prefixes|
  {
    if prefixes != [] {
      Done(prefixes[0], s);
      AllBare(prefixes[1..], s);
    }
  }

  lemma {:induction false} AllIn(prefixes: seq<Part>, q: string, x: string)
    requires '/' !in q && '/' !in x && q != ".."
    ensures SubAll(prefixes, q + "/" + x) == if q in prefixes then Joined(q, x) else q + "/" + x
    decreases |prefixes|
  {
    if prefixes != [] {
      SubIn(prefixes[0], q, x);
      if prefixes[0] == q {
        JoinedNoSlash(q, x);
        AllBare(prefixes[1..], Joined(q, x));
      } else {
        AllIn(prefixes[1..], q, x);
      }
    }
  }

  lemma {:induction false} AllUpIn(prefixes: seq<Part>, q: string, x: string)
    requires '/' !in q && '/' !in x
    ensures SubAll(prefixes, "../" + q + "/" + x) == if q in prefixes then Joined(q, x) else "../" + q + "/" + x
    decreases |prefixes|
  {
    if prefixes != [] {
      SubUpIn(prefixes[0], q, x);
      if prefixes[0] == q {
        JoinedNoSlash(q, x);
        AllBare(prefixes[1..], Joined(q, x));
      } else {
        AllUpIn(prefixes[1..], q, x);
      }
    }
  }

  lemma {:induction false} AllUp(prefixes: seq<Part>, x: string)
    requires '/' !in x
    ensures SubAll(prefixes, "../" + x) == "../" + x
    decreases |prefixes|
  {
    if prefixes != [] {
      SubUp(prefixes[0], x);
      AllUp(prefixes[1..], x);
    }
  }

  // ------------------------------------------------------------------ the prefixes put back together

  /** What a name in directory q is published as. */
  function Flat(q: string, x: string): string { StripMd(Joined(q, x)) }

  lemma PublishedBare(x: string, src: Rel, prefixes: seq<Part>)
    requires '/' !in x
    ensures Published(x, src, prefixes) ==
      if |src| > 1 && !HasDots(x) && (x == "README.md" || EndsMd(x)) then Flat(src[0], x) else StripMd(x)
  {
    assert "./"[1] == '/';
    assert !("./" <= x);
    var y := SameDir(x, src);
    AllBare(prefixes, y);
    assert "../"[2] == '/';
    assert !("../" <= y);
  }

  lemma PublishedUp(x: string, src: Rel, prefixes: seq<Part>)
    requires '/' !in x
    ensures Published("../" + x, src, prefixes) == StripMd(x)
  {
    var s := "../" + x;
    assert s[2] == '/';
    assert s[1] == '.';
    assert s[3..] == x;
    AllUp(prefixes, x);
  }

  lemma FlatHasNoSlash(q: string, x: string)
    requires '/' !in q && '/' !in x
    ensures !("../" <= Joined(q, x))
  {
    JoinedNoSlash(q, x);
    assert "../"[2] == '/';
  }

  lemma PublishedUpIn(q: string, x: string, src: Rel, prefixes: seq<Part>)
    requires '/' !in q && '/' !in x && q in prefixes
    ensures Published("../" + q + "/" + x, src, prefixes) == Flat(q, x)
  {
    var s := "../" + q + "/" + x;
    assert s[2] == '/';
    assert s[1] == '.';
    AllUpIn(prefixes, q, x);
    FlatHasNoSlash(q, x);
  }

  /** From the root, below something that may or may not be a known directory. */
  lemma PublishedIn(q: string, x: string, src: Rel, prefixes: seq<Part>)
    requires '/' !in q && '/' !in x && |src| == 1
    ensures var r := Published(q + "/" + x, src, prefixes);
      r == StripMd(x) || r == StripMd(q + "/" + x) || (q in prefixes && r == Flat(q, x))
    ensures q in prefixes ==> Published(q + "/" + x, src, prefixes) == Flat(q, x)
  {
    var s := q + "/" + x;
    assert s[|q|] == '/';
    if "./" <= s {
      assert s[1] == "./"[1];
      SlashOnce(".", q, x);
      assert s[2..] == x;
      PublishedBare(x, src, prefixes);
      assert !("./" <= x) by { assert "./"[1] == '/'; }
    } else if q == ".." {
      assert s == "../" + x;
      PublishedUp(x, src, prefixes);
    } else {
      AllIn(prefixes, q, x);
      FlatHasNoSlash(q, x);
      if "../" <= s { assert ".." + "/" == "../"; SlashOnce("..", q, x); }
    }
  }

  // ------------------------------------------------------------------ how the written link reads back

  ghost predicate Titleless(t: string)
  {
    forall k :: 0 <= k < |t| ==> !TitleAt(t, k, '"') && !TitleAt(t, k, '\'')
  }

  /** What an anchor read from a link is like: no title in it, no white space at its end. */
  ghost predicate CleanAnchor(a: string)
  {
    Titleless(a) && (a != "" ==> !IsSpace(a[|a| - 1]))
  }

  /** A path that reads back as itself: no white space before it, no title mark and no hash in it. */
  ghost predicate CleanPath(s: string)
  {
    Titleless(s) && (s != "" ==> !IsSpace(s[0])) && '#' !in s
  }

  predicate AnyTitleAt(t: string, k: nat) { TitleAt(t, k, '"') || TitleAt(t, k, '\'') }

  /** The text is cut where white space leads to a title, or not at all. */
  ghost predicate CutHere(t: string, n: nat, k: nat)
  {
    n <= k && AnyTitleAt(t, k) && forall j :: n <= j <= k ==> IsSpace(t[j])
  }

  lemma CutIs(t: string) returns (n: nat, k: nat)
    requires t != "" && !IsSpace(t[0]) && !IsSpace(t[|t| - 1])
    ensures 0 < n <= |t| && CutTitle(t) == t[..n] && Titleless(t[..n])
    ensures n < |t| ==> CutHere(t, n, k)
  {
    var c := FirstTitle(t, '"');
    var a := t[..c];
    var d := FirstTitle(a, '\'');
    var b := a[..d];
    assert b == t[..d];
    LeadNone(b);
    assert b[Lead(b)..] == b;
    n, k := Tail(b), d;
    TitlelessPart(t, c, d, n);
    if d < |a| { assert TitleAt(a, d, '\'') && TitleAt(t, d, '\''); }
    forall j | n <= j < d ensures IsSpace(t[j]) { assert t[j] == b[j]; }
  }

  /** The bare link is a piece of the text. */
  lemma BareIs(w: string) returns (i: nat, e: nat, k: nat)
    requires w != "" && !IsSpace(w[|w| - 1])
    ensures i == Lead(w) < e <= |w| && Bare(w) == w[i..e] && Titleless(w[i..e])
    ensures e < |w| ==> CutHere(w, e, k)
  {
    i := StripIs(w);
    var t := w[i..];
    var n, m := CutIs(t);
    e, k := i + n, i + m;
    assert t[..n] == w[i..e];
    if n < |t| { CutShifts(w, i, n, m); }
  }

  lemma StripIs(w: string) returns (i: nat)
    requires w != "" && !IsSpace(w[|w| - 1])
    ensures i == Lead(w) < |w| && Strip(w) == w[i..]
    ensures !IsSpace(w[i..][0]) && !IsSpace(w[i..][|w| - i - 1])
  {
    i := Lead(w);
  }

  lemma CutShifts(w: string, i: nat, n: nat, k: nat)
    requires i <= |w| && CutHere(w[i..], n, k)
    ensures CutHere(w, i + n, i + k)
  {
    forall j | i + n <= j <= i + k ensures IsSpace(w[j]) { assert w[i..][j - i] == w[j]; }
  }

  lemma LeadNone(t: string)
    requires t != "" && !IsSpace(t[0])
    ensures Lead(t) == 0
  {
  }

  lemma TitlelessPart(t: string, c: nat, d: nat, n: nat)
    requires c == FirstTitle(t, '"') && d == FirstTitle(t[..c], '\'') && n <= d
    ensures Titleless(t[..d][..n]) && Titleless(t[..n])
  {
    var a := t[..c];
    assert t[..d] == a[..d] && t[..d][..n] == t[..n];
    forall k | 0 <= k < n ensures !TitleAt(t[..n], k, '"') && !TitleAt(t[..n], k, '\'') {
      assert TitleAt(t[..n], k, '"') ==> TitleAt(t, k, '"');
      assert TitleAt(t[..n], k, '\'') ==> TitleAt(a, k, '\'');
    }
  }

  lemma {:induction false} HashesDropped(t: string) returns (n: nat)
    ensures n <= |t| && DropHashes(t) == t[n..] && (forall k :: 0 <= k < n ==> t[k] == '#') && (n < |t| ==> t[n] != '#')
  {
    n := 0;
    if "#" <= t {
      var m := HashesDropped(t[1..]);
      n := m + 1;
      assert t[1..][m..] == t[n..];
    }
  }

  /** A link without a path is one that starts with a hash; its anchor is the rest, past every leading hash. */
  lemma AnchorOnly(target: string, src: Rel, prefixes: seq<Part>) returns (n: nat)
    ensures var t := Bare(target); var link := Transformed(target, src, prefixes);
      && n <= |t| && (link.path.None? <==> n > 0)
      && (forall k :: 0 <= k < n ==> t[k] == '#') && (n < |t| ==> t[n] != '#')
      && (n > 0 ==> link.anchor == t[n..])
  {
    n := HashesDropped(Bare(target));
  }

  /** Every anchor that is read from a link with a path is clean. */
  lemma AnchorIsClean(target: string, src: Rel, prefixes: seq<Part>)
    requires Transformed(target, src, prefixes).path.Some?
    ensures CleanAnchor(Transformed(target, src, prefixes).anchor)
  {
    var t := Bare(target);
    BareIsClean(target);
    var h := FirstHash(t);
    if h < |t| { SuffixIsClean(t, h + 1); }
  }

  lemma SuffixIsClean(t: string, k: nat)
    requires CleanAnchor(t) && k <= |t|
    ensures CleanAnchor(t[k..])
  {
    var a := t[k..];
    forall j | 0 <= j < |a| ensures !TitleAt(a, j, '"') && !TitleAt(a, j, '\'') {
      assert !TitleAt(t, k + j, '"') && !TitleAt(t, k + j, '\'');
    }
  }

  lemma BareIsClean(target: string)
    ensures CleanAnchor(Bare(target))
  {
    var t := Strip(target);
    var c := FirstTitle(t, '"');
    var a := t[..c];
    var d := FirstTitle(a, '\'');
    var b := a[..d];
    var l := Lead(b);
    var n := Tail(b[l..]);
    TitlelessPart(t, c, d, d);
    assert t[..d] == b;
    var r := b[l..][..n];
    forall k | 0 <= k < |r| ensures !TitleAt(r, k, '"') && !TitleAt(r, k, '\'') {
      assert !TitleAt(b, l + k, '"') && !TitleAt(b, l + k, '\'');
    }
  }

  /** The bare text t of a written link reads back as np[i..h]: all of the path, with the anchor, when the
      path is clean; otherwise a piece that starts later or loses at least the extension and one character. */
  ghost predicate ReadAs(np: string, anchor: string, t: string, i: nat, h: nat)
  {
    && i <= h <= |np| && i == Lead(np) && FirstHash(t) == h - i && t[..h - i] == np[i..h]
    && (h < |np| ==> h + 4 <= |np| && (np[h] == '#' || IsSpace(np[h])))
    && (CleanPath(np) ==> h - i == |np| && t == WithAnchor(np, anchor))
    && (!CleanPath(np) ==> i > 0 || h < |np|)
  }

  lemma ReadsBack(np: string, anchor: string) returns (i: nat, h: nat)
    requires EndsMd(np) && CleanAnchor(anchor)
    ensures ReadAs(np, anchor, Bare(WithAnchor(np, anchor)), i, h)
  {
    var w := WithAnchor(np, anchor);
    MdChars(np);
    assert np <= w && !IsSpace(w[|w| - 1]) && (|np| < |w| ==> w[|np|] == '#');
    var e: nat, k: nat;
    i, e, k := BareIs(w);
    LeadSame(np, w);
    h := i + FirstHash(w[i..e]);
    UpToHash(np, w, i, e, h);
    if h == e < |np| { CutInPath(np, w, e, k); }
    if CleanPath(np) {
      CleanIsWhole(np, anchor, i, e, k);
      CleanReadsBack(np, anchor);
    } else if i == 0 {
      DirtyIsCut(np, w[i..e], h);
    }
  }

  lemma CleanIsWhole(np: string, anchor: string, i: nat, e: nat, k: nat)
    requires CleanPath(np) && CleanAnchor(anchor) && np != "" && i == Lead(np)
    requires var w := WithAnchor(np, anchor); i <= e <= |w| && (e < |w| ==> CutHere(w, e, k))
    ensures i == 0 && WithAnchor(np, anchor)[i..e] == WithAnchor(np, anchor)
  {
    TitlelessBoth(np, anchor);
    LeadNone(np);
  }

  lemma UpToHash(np: string, w: string, i: nat, e: nat, h: nat)
    requires EndsMd(np) && np <= w && (|np| < |w| ==> w[|np|] == '#') && i < |np| && i <= e <= |w| && h == i + FirstHash(w[i..e])
    ensures h <= |np| && w[i..e][..h - i] == np[i..h]
    ensures h < |np| && h < e ==> h + 4 <= |np| && np[h] == '#'
  {
    MdChars(np);
    var t := w[i..e];
    assert |np| - i < |t| ==> t[|np| - i] == w[|np|];
    assert forall j :: 0 <= j < |np| ==> w[j] == np[j];
    if h < |np| && h < e { assert np[h] == t[h - i]; }
  }

  lemma MdChars(np: string)
    requires EndsMd(np)
    ensures np[|np| - 1] == 'd' && np[|np| - 2] == 'm' && np[|np| - 3] == '.'
  {
    var m := np[|np| - 3..];
    assert m[0] == np[|np| - 3] && m[1] == np[|np| - 2] && m[2] == np[|np| - 1];
  }

  lemma CleanReadsBack(np: string, anchor: string)
    requires '#' !in np && EndsMd(np)
    ensures var w := WithAnchor(np, anchor);
      FirstHash(w) == |np| && !("#" <= w) && anchor == if |np| < |w| then w[|np| + 1..] else ""
  {
    var w := WithAnchor(np, anchor);
    assert forall j :: 0 <= j < |np| ==> w[j] == np[j];
    assert anchor != "" ==> w[|np|] == '#';
  }

  /** A path with a title or a hash in it is not read back whole. */
  lemma DirtyIsCut(np: string, t: string, f: nat)
    requires Titleless(t) && f == FirstHash(t) && np != "" && !IsSpace(np[0]) && !CleanPath(np)
    ensures !(f == |np| && t[..f] == np)
  {
    if f == |np| && t[..f] == np {
      forall j | 0 <= j < |np| ensures !TitleAt(np, j, '"') && !TitleAt(np, j, '\'') {
        assert !TitleAt(t, j, '"') && !TitleAt(t, j, '\'');
      }
    }
  }

  lemma CutInPath(np: string, w: string, e: nat, k: nat)
    requires EndsMd(np) && np <= w && e < |np| && CutHere(w, e, k)
    ensures e + 4 <= |np| && IsSpace(np[e])
  {
    MdChars(np);
    assert forall j :: 0 <= j < |np| ==> w[j] == np[j];
    assert !IsSpace(w[|np| - 3]) && !IsSpace(w[|np| - 2]) && !IsSpace(w[|np| - 1]);
  }

  lemma LeadSame(np: string, w: string)
    requires np <= w && np != "" && !IsSpace(np[|np| - 1])
    ensures Lead(w) == Lead(np) < |np|
  {
    var l := Lead(np);
    assert l < |np| && w[l] == np[l] && forall j :: 0 <= j < l ==> w[j] == np[j];
  }

  lemma TitlelessBoth(np: string, anchor: string)
    requires Titleless(np) && Titleless(anchor)
    ensures Titleless(WithAnchor(np, anchor))
  {
    var w := WithAnchor(np, anchor);
    forall k | 0 <= k < |w| ensures !TitleAt(w, k, '"') && !TitleAt(w, k, '\'') {
      if k < |np| {
        assert !TitleAt(np, k, '"') && !TitleAt(np, k, '\'');
      } else if k > |np| {
        assert !TitleAt(anchor, k - |np| - 1, '"') && !TitleAt(anchor, k - |np| - 1, '\'');
      }
    }
  }

  // ------------------------------------------------------------------ a damaged link is never right

  /** What can be left of a path that is not clean: less at the front, or cut at a hash or white space. */
  ghost predicate Piece(np: string, i: nat, h: nat)
  {
    && i <= h <= |np| && i == Lead(np) && (i > 0 || h < |np|)
    && (h < |np| ==> h + 4 <= |np| && (np[h] == '#' || IsSpace(np[h])))
  }

  lemma StripLength(s: string)
    ensures |StripMd(s)| == if EndsMd(s) then |s| - 3 else |s|
  {
  }

  lemma PieceShort(np: string, i: nat, h: nat)
    requires EndsMd(np) && Piece(np, i, h)
    ensures |StripMd(np[i..h])| < |np| - 3
  {
    MdChars(np);
    StripLength(np[i..h]);
    if h == |np| { assert np[i..h][|np| - i - 3..] == np[|np| - 3..]; }
  }

  /** The name of a file below the root once it is flat. */
  function FlatName(q: string, name: string): string
  {
    if name == "README.md" then q + "-Overview" else q + "-" + StripMd(name)
  }

  lemma FlatOfName(q: string, name: string)
    requires EndsMd(name)
    ensures Flat(q, name) == FlatName(q, name)
    ensures |FlatName(q, name)| == if name == "README.md" then |q| + 9 else |q| + |name| - 2
  {
    if name == "README.md" {
      assert q + "-Overview.md" == (q + "-") + "Overview.md";
      assert EndsMd("Overview.md") && StripMd("Overview.md") == "Overview";
      assert q + "-Overview" == (q + "-") + "Overview";
    } else {
      MdChars(name);
      assert name != "README.md\n" by { assert "README.md\n"[9] == '\n'; }
    }
  }

  lemma FlatLength(q: string, x: string)
    requires x != "README.md" && x != "README.md\n"
    ensures |Flat(q, x)| <= |q| + 1 + |x|
  {
  }

  lemma ReadmeLine(q: string)
    ensures |Flat(q, "README.md\n")| > |q| + 1 && Flat(q, "README.md\n")[|q| + 1] == 'O'
  {
    assert (q + "-Overview.md\n")[|q| + 1] == 'O';
  }

  /** A name that was cut short, in the same directory. */
  lemma CutNameDiffers(q: string, name: string, m: nat)
    requires EndsMd(name) && m + 4 <= |name|
    ensures Flat(q, name[..m]) != FlatName(q, name)
  {
    var x := name[..m];
    FlatOfName(q, name);
    if x == "README.md" {
      FlatOfName(q, x);
    } else if x == "README.md\n" {
      assert name[0] == x[0];
      FlatStart(q, name);
      ReadmeLine(q);
    } else {
      FlatLength(q, x);
    }
  }

  /** A directory that lost its white space in front. */
  lemma CutDirDiffers(q: string, i: nat, name: string, x: string)
    requires EndsMd(name) && i == Lead(q + "/" + name) && 0 < i <= |q|
    ensures Flat(q[i..], x) != FlatName(q, name)
  {
    var s := q + "/" + name;
    assert IsSpace(s[0]) && !IsSpace(s[i]);
    assert FlatName(q, name)[0] == q[0] == s[0];
    var r := Joined(q[i..], x);
    if i < |q| { assert r[0] == q[i] == s[i]; } else { assert r[0] == '-'; }
    if Flat(q[i..], x) != "" { assert Flat(q[i..], x)[0] == r[0]; }
  }

  /** A name that lost its white space in front, in the same directory. */
  lemma CutFrontDiffers(q: string, name: string, i: nat, h: nat)
    requires EndsMd(name) && i == Lead(name) && 0 < i <= h <= |name| && EndsMd(name[i..h])
    ensures Flat(q, name[i..h]) != FlatName(q, name)
  {
    var x := name[i..h];
    MdChars(name);
    FlatOfName(q, name);
    FlatOfName(q, x);
    assert IsSpace(name[0]) && !IsSpace(name[i]);
    assert name[0] != "README.md"[0];
    FlatStart(q, name);
    if |x| > 3 {
      assert x[0] == name[i];
      FlatStart(q, x);
    }
  }

  /** The character after the directory. */
  lemma FlatStart(q: string, name: string)
    requires EndsMd(name) && |name| > 3
    ensures |FlatName(q, name)| > |q| + 1
    ensures FlatName(q, name)[|q| + 1] == if name == "README.md" then 'O' else name[0]
  {
    if name == "README.md" {
      assert FlatName(q, name)[|q| + 1] == 'O';
    } else {
      assert FlatName(q, name) == q + "-" + name[..|name| - 3];
    }
  }

  lemma FlatIs(tgt: Rel)
    requires EndsMd(Name(tgt)) && |tgt| > 1
    ensures SourceToFlat(tgt) == FlatName(tgt[0], Name(tgt))
    ensures |SourceToFlat(tgt)| == if Name(tgt) == "README.md" then |tgt[0]| + 9 else |tgt[0]| + |Name(tgt)| - 2
  {
    FlatOfName(tgt[0], Name(tgt));
  }

  lemma NewPathEndsMd(src: Rel, tgt: Rel)
    requires EndsMd(Name(tgt))
    ensures EndsMd(NewPath(src, tgt))
  {
    assert NewPath(src, tgt)[|NewPath(src, tgt)| - 3..] == Name(tgt)[|Name(tgt)| - 3..];
  }

  // Both files at the root, or the target at the root.
  lemma DamagedToRoot(src: Rel, tgt: Rel, prefixes: seq<Part>, i: nat, h: nat)
    requires EndsMd(Name(tgt)) && |tgt| == 1 && Piece(NewPath(src, tgt), i, h)
    ensures Published(NewPath(src, tgt)[i..h], src, prefixes) != SourceToFlat(tgt)
  {
    var name := Name(tgt);
    var np := NewPath(src, tgt);
    if |src| == 1 {
      PublishedBare(np[i..h], src, prefixes);
      PieceShort(np, i, h);
    } else {
      assert np == "../" + name && np[0] == '.' && np[1] == '.' && np[2] == '/';
      var x := name[..h - 3];
      assert np[i..h] == "../" + x;
      PublishedUp(x, src, prefixes);
    }
  }

  // From the root into a directory.
  lemma DamagedIntoDir(src: Rel, tgt: Rel, prefixes: seq<Part>, i: nat, h: nat)
    requires EndsMd(Name(tgt)) && |src| == 1 && |tgt| > 1 && Piece(NewPath(src, tgt), i, h)
    ensures Published(NewPath(src, tgt)[i..h], src, prefixes) != SourceToFlat(tgt)
  {
    FlatIs(tgt);
    DamagedIn(tgt[0], Name(tgt), src, prefixes, i, h);
  }

  lemma DamagedIn(q: string, name: string, src: Rel, prefixes: seq<Part>, i: nat, h: nat)
    requires EndsMd(name) && '/' !in q && '/' !in name && |src| == 1 && Piece(q + "/" + name, i, h)
    ensures Published((q + "/" + name)[i..h], src, prefixes) != FlatName(q, name)
  {
    FlatOfName(q, name);
    if h <= |q| {
      assert (q + "/" + name)[i..h] == q[i..h];
      PublishedBare(q[i..h], src, prefixes);
    } else {
      var m := h - |q| - 1;
      LeadEnds(q + "/" + name, |q|);
      PieceInName(q, name, i, h);
      PublishedIn(q[i..], name[..m], src, prefixes);
      XShort(name, m);
      PieceFlat(q, name, i, m, h);
      PieceLonger(q, name, i, h);
    }
  }

  lemma PieceInName(q: string, name: string, i: nat, h: nat)
    requires i <= |q| < h <= |q| + 1 + |name|
    ensures (q + "/" + name)[i..h] == q[i..] + "/" + name[..h - |q| - 1]
  {
  }

  lemma LeadEnds(s: string, k: nat)
    requires k < |s| && !IsSpace(s[k])
    ensures Lead(s) <= k
  {
  }

  lemma PieceLonger(q: string, name: string, i: nat, h: nat)
    requires EndsMd(name) && Piece(q + "/" + name, i, h)
    ensures |StripMd((q + "/" + name)[i..h])| < |FlatName(q, name)|
  {
    var np := q + "/" + name;
    FlatOfName(q, name);
    assert np == (q + "/") + name;
    PieceShort(np, i, h);
  }

  lemma PieceFlat(q: string, name: string, i: nat, m: nat, h: nat)
    requires EndsMd(name) && i <= |q| && m <= |name| && h == |q| + 1 + m && Piece(q + "/" + name, i, h)
    ensures Flat(q[i..], name[..m]) != FlatName(q, name)
  {
    if i > 0 {
      CutDirDiffers(q, i, name, name[..m]);
    } else {
      assert q[0..] == q;
      CutNameDiffers(q, name, m);
    }
  }

  lemma XShort(name: string, m: nat)
    requires EndsMd(name) && m <= |name| && (m < |name| ==> m + 4 <= |name|)
    ensures |StripMd(name[..m])| <= |name| - 3
  {
    if m == |name| { assert name[..m] == name; }
  }

  // Within one directory.
  lemma DamagedSameDir(src: Rel, tgt: Rel, prefixes: seq<Part>, i: nat, h: nat)
    requires EndsMd(Name(tgt)) && |src| > 1 && |tgt| > 1 && src[0] == tgt[0] && Piece(NewPath(src, tgt), i, h)
    ensures Published(NewPath(src, tgt)[i..h], src, prefixes) != SourceToFlat(tgt)
  {
    var q, name := tgt[0], Name(tgt);
    FlatIs(tgt);
    PublishedBare(name[i..h], src, prefixes);
    PieceShort(name, i, h);
    if i == 0 {
      assert name[0..h] == name[..h];
      CutNameDiffers(q, name, h);
    } else if EndsMd(name[i..h]) {
      CutFrontDiffers(q, name, i, h);
    }
  }

  // From one directory into another.
  lemma DamagedAcross(src: Rel, tgt: Rel, prefixes: seq<Part>, i: nat, h: nat)
    requires EndsMd(Name(tgt)) && |src| > 1 && |tgt| > 1 && src[0] != tgt[0] && Piece(NewPath(src, tgt), i, h)
    requires tgt[0] in prefixes
    ensures Published(NewPath(src, tgt)[i..h], src, prefixes) != SourceToFlat(tgt)
  {
    var q, name := tgt[0], Name(tgt);
    var np := NewPath(src, tgt);
    FlatIs(tgt);
    assert np == "../" + q + "/" + name && np[0] == '.' && np[1] == '.' && np[2] == '/';
    if h <= 3 + |q| {
      var x := q[..h - 3];
      assert np[i..h] == "../" + x;
      PublishedUp(x, src, prefixes);
    } else {
      var m := h - 4 - |q|;
      assert np[i..h] == "../" + q + "/" + name[..m];
      PublishedUpIn(q, name[..m], src, prefixes);
      CutNameDiffers(q, name, m);
    }
  }

  lemma DamagedDiffers(src: Rel, tgt: Rel, prefixes: seq<Part>, i: nat, h: nat)
    requires EndsMd(Name(tgt)) && Piece(NewPath(src, tgt), i, h) && (|tgt| > 1 ==> tgt[0] in prefixes)
    ensures Published(NewPath(src, tgt)[i..h], src, prefixes) != SourceToFlat(tgt)
  {
    if |tgt| == 1 { DamagedToRoot(src, tgt, prefixes, i, h); }
    else if |src| == 1 { DamagedIntoDir(src, tgt, prefixes, i, h); }
    else if src[0] == tgt[0] { DamagedSameDir(src, tgt, prefixes, i, h); }
    else { DamagedAcross(src, tgt, prefixes, i, h); }
  }

  // ------------------------------------------------------------------ the suggestion survives

  predicate SameDirectory(src: Rel, tgt: Rel) { |src| > 1 && |tgt| > 1 && src[0] == tgt[0] }

  /** Published whole, the written path becomes the target's flat name, except that a name with two dots
      in a row is not recognised as a neighbour in the same directory. */
  lemma WholePublishes(src: Rel, tgt: Rel, prefixes: seq<Part>)
    requires EndsMd(Name(tgt)) && (|tgt| > 1 ==> tgt[0] in prefixes)
    ensures Published(NewPath(src, tgt), src, prefixes) == SourceToFlat(tgt) <==> !(SameDirectory(src, tgt) && HasDots(Name(tgt)))
  {
    var name := Name(tgt);
    if |tgt| > 1 { FlatIs(tgt); FlatOfName(tgt[0], name); }
    if |tgt| == 1 && |src| == 1 { PublishedBare(name, src, prefixes); }
    else if |tgt| == 1 { PublishedUp(name, src, prefixes); }
    else if |src| == 1 { PublishedIn(tgt[0], name, src, prefixes); }
    else if src[0] == tgt[0] { PublishedBare(name, src, prefixes); StripLength(name); }
    else { PublishedUpIn(tgt[0], name, src, prefixes); }
  }

  /** For every source, every Markdown target in a known directory and every anchor that was read from a
      link: the written link publishes to the target's flat name with its anchor exactly when the written
      path is clean and the target is not a neighbour with two dots in a row in its name. */
  lemma SuggestionSurvivesIff(src: Rel, tgt: Rel, anchor: string, prefixes: seq<Part>)
    requires EndsMd(Name(tgt)) && CleanAnchor(anchor) && (|tgt| > 1 ==> tgt[0] in prefixes)
    ensures Transformed(NewTarget(src, tgt, anchor), src, prefixes) == Link(Some(SourceToFlat(tgt)), anchor) <==>
      CleanPath(NewPath(src, tgt)) && !(SameDirectory(src, tgt) && HasDots(Name(tgt)))
  {
    var np := NewPath(src, tgt);
    NewPathEndsMd(src, tgt);
    if CleanPath(np) {
      CleanLink(np, anchor, src, prefixes);
      WholePublishes(src, tgt, prefixes);
    } else {
      var i, h := DirtyLink(np, anchor, src, prefixes);
      DamagedDiffers(src, tgt, prefixes, i, h);
    }
  }

  lemma CleanLink(np: string, anchor: string, src: Rel, prefixes: seq<Part>)
    requires EndsMd(np) && CleanAnchor(anchor) && CleanPath(np)
    ensures Transformed(WithAnchor(np, anchor), src, prefixes) == Link(Some(Published(np, src, prefixes)), anchor)
  {
    var i, h := ReadsBack(np, anchor);
    CleanReadsBack(np, anchor);
    assert WithAnchor(np, anchor)[..|np|] == np;
  }

  lemma DirtyLink(np: string, anchor: string, src: Rel, prefixes: seq<Part>) returns (i: nat, h: nat)
    requires EndsMd(np) && CleanAnchor(anchor) && !CleanPath(np)
    ensures Piece(np, i, h)
    ensures Transformed(WithAnchor(np, anchor), src, prefixes).path in {None, Some(Published(np[i..h], src, prefixes))}
  {
    i, h := ReadsBack(np, anchor);
  }

  /** A fix goes from a broken link, whose anchor it carries over, to a link that is right. */
  lemma FixIsRight(raw: string, src: Rel, tgt: Rel, prefixes: seq<Part>)
    requires Transformed(raw, src, prefixes).path.Some? && EndsMd(Name(tgt)) && (|tgt| > 1 ==> tgt[0] in prefixes)
    requires CleanPath(NewPath(src, tgt)) && !(SameDirectory(src, tgt) && HasDots(Name(tgt)))
    ensures var anchor := Transformed(raw, src, prefixes).anchor;
      Transformed(NewTarget(src, tgt, anchor), src, prefixes) == Link(Some(SourceToFlat(tgt)), anchor)
  {
    AnchorIsClean(raw, src, prefixes);
    SuggestionSurvivesIff(src, tgt, Transformed(raw, src, prefixes).anchor, prefixes);
  }

  /** Such a neighbour: the link written from ops/here.md to ops/v1..v2.md is still broken. */
  lemma DottedNeighbourFails(src: Rel, tgt: Rel, prefixes: seq<Part>)
    requires src == ["ops", "here.md"] && tgt == ["ops", "v1..v2.md"] && prefixes == ["ops"]
    ensures Transformed(NewTarget(src, tgt, ""), src, prefixes) != Link(Some(SourceToFlat(tgt)), "")
  {
    var name := Name(tgt);
    assert name[2] == '.' && name[3] == '.';
    SuggestionSurvivesIff(src, tgt, "", prefixes);
  }

  /** Files at the root whose names start with white space, carry a title mark, or carry a hash: the links
      written to them are broken too. */
  lemma UncleanNamesFail(src: Rel, tgt: Rel, prefixes: seq<Part>)
    requires src == ["Home.md"] && tgt in {[" Plan.md"], ["Plan 'B.md"], ["Plan#2.md"]}
    ensures Transformed(NewTarget(src, tgt, ""), src, prefixes) != Link(Some(SourceToFlat(tgt)), "")
  {
    var name := Name(tgt);
    assert IsSpace(" Plan.md"[0]) && TitleAt("Plan 'B.md", 4, '\'') && "Plan#2.md"[4] == '#';
    SuggestionSurvivesIff(src, tgt, "", prefixes);
  }
}
