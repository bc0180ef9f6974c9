/** Optional values and results that carry an error. */
module Wrappers {
  datatype Option<+T> = None | Some(value: T)
  datatype Result<+T, +E> = Ok(value: T) | Err(error: E)
}

/**
  Pure POSIX paths: how a path string splits into components and how components are
  written back as a string.
 */
module PosixPath {

  /** Splitting at every '/', keeping empty pieces. */
  function Split(s: string): (r: seq<string>)
    ensures |r| >= 1
  {
    if s == "" then [""]
    else
      var rest := Split(s[1..]);
      if s[0] == '/' then [""] + rest
      else [[s[0]] + rest[0]] + rest[1..]
  }

  predicate Kept(part: string) { part != "" && part != "." }

  function Keep(pieces: seq<string>): (r: seq<string>)
    ensures forall k :: 0 <= k < |r| ==> Kept(r[k]) && r[k] in pieces
  {
    if pieces == [] then []
    else if Kept(pieces[0]) then [pieces[0]] + Keep(pieces[1..])
    else Keep(pieces[1..])
  }

  /** The components of a path: empty and "." pieces are dropped. */
  function Parts(s: string): seq<string> { Keep(Split(s)) }

  function Join(parts: seq<string>): string {
    if parts == [] then ""
    else if |parts| == 1 then parts[0]
    else parts[0] + "/" + Join(parts[1..])
  }

  /** One leading slash is the root; exactly two are a root of their own. */
  function Root(s: string): string {
    if |s| == 0 || s[0] != '/' then ""
    else if |s| >= 2 && s[1] == '/' && !(|s| >= 3 && s[2] == '/') then "//"
    else "/"
  }

  /** The normalised text of a path. */
  function Text(s: string): string {
    var body := Root(s) + Join(Parts(s));
    if body == "" then "." else body
  }

  predicate SlashFree(s: string) { '/' !in s }

  /** Components as `Parts` produces them. */
  ghost predicate Components(parts: seq<string>) {
    forall k :: 0 <= k < |parts| ==> Kept(parts[k]) && SlashFree(parts[k])
  }

  lemma {:induction false} SplitIsSlashFree(s: string)
    ensures forall k :: 0 <= k < |Split(s)| ==> SlashFree(Split(s)[k])
  {
    if s != "" { SplitIsSlashFree(s[1..]); }
  }

  lemma PartsAreComponents(s: string)
    ensures Components(Parts(s))
  {
    SplitIsSlashFree(s);
  }

  lemma {:induction false} SplitPiece(a: string)
    requires SlashFree(a)
    ensures Split(a) == [a]
  {
    if a != "" {
      SplitPiece(a[1..]);
      assert a == [a[0]] + a[1..];
    }
  }

  lemma {:induction false} SplitAtSlash(a: string, rest: string)
    requires SlashFree(a)
    ensures Split(a + "/" + rest) == [a] + Split(rest)
  {
    var s := a + "/" + rest;
    if a == "" {
      assert s[1..] == rest;
    } else {
      assert s[1..] == a[1..] + "/" + rest;
      SplitAtSlash(a[1..], rest);
      assert a == [a[0]] + a[1..];
    }
  }

  /** Writing components out and splitting again gives the components back. */
  lemma {:induction false} PartsOfJoin(parts: seq<string>)
    requires Components(parts)
    ensures Parts(Join(parts)) == parts
  {
    if parts == [] {
      assert Split("") == [""];
    } else if |parts| == 1 {
      SplitPiece(parts[0]);
      assert Keep([parts[0]]) == [parts[0]] + Keep([]);
    } else {
      PartsOfJoin(parts[1..]);
      SplitAtSlash(parts[0], Join(parts[1..]));
      var pieces := [parts[0]] + Split(Join(parts[1..]));
      assert pieces[1..] == Split(Join(parts[1..]));
    }
  }

  lemma {:induction false} JoinStart(parts: seq<string>)
    requires Components(parts) && parts != []
    ensures Join(parts) != "" && Join(parts)[0] != '/' && Join(parts)[|Join(parts)| - 1] != '/'
    ensures Join(parts) != "."
  {
    assert parts[0][0] in parts[0];
    if |parts| == 1 {
      assert parts[0][|parts[0]| - 1] in parts[0];
    } else {
      JoinStart(parts[1..]);
    }
  }

  /** A slash-free piece before the first slash is determined by the whole string. */
  lemma {:induction false} FirstPiece(x: string, u: string, y: string, v: string)
    requires SlashFree(x) && SlashFree(y) && x + "/" + u <= y + "/" + v
    ensures x == y && u <= v
  {
    var left, right := x + "/" + u, y + "/" + v;
    assert left[0] == right[0];
    assert x != "" ==> x[0] in x;
    assert y != "" ==> y[0] in y;
    if x == "" {
      assert left[1..] == u && right[1..] == v;
    } else {
      assert left[1..] == x[1..] + "/" + u && right[1..] == y[1..] + "/" + v;
      FirstPiece(x[1..], u, y[1..], v);
      assert x == [x[0]] + x[1..] && y == [y[0]] + y[1..];
    }
  }

  ghost predicate ProperPrefix(p: seq<string>, q: seq<string>) { p < q }

  /** One path's text followed by a slash starts another's exactly when its components
      are a proper prefix of the other's. */
  lemma {:induction false} JoinPrefix(p: seq<string>, q: seq<string>)
    requires Components(p) && Components(q) && p != [] && q != []
    ensures Join(p) + "/" <= Join(q) <==> ProperPrefix(p, q)
  {
    var x, y := p[0], q[0];
    if |q| == 1 {
      var n := |Join(p)|;
      assert (Join(p) + "/")[n] == '/';
      assert n < |y| ==> y[n] in y;
    } else if |p| == 1 {
      if x + "/" <= Join(q) {
        assert x + "/" + "" == x + "/";
        FirstPiece(x, "", y, Join(q[1..]));
      }
      if p < q {
        assert x == y;
      }
    } else {
      JoinPrefix(p[1..], q[1..]);
      assert Join(p) + "/" == x + "/" + (Join(p[1..]) + "/");
      if Join(p) + "/" <= Join(q) {
        FirstPiece(x, Join(p[1..]) + "/", y, Join(q[1..]));
        assert p == [x] + p[1..] && q == [y] + q[1..];
      }
      if p < q {
        assert p[1..] < q[1..];
      }
    }
  }

  lemma JoinInjective(p: seq<string>, q: seq<string>)
    requires Components(p) && Components(q) && Join(p) == Join(q)
    ensures p == q
  {
    PartsOfJoin(p);
    PartsOfJoin(q);
  }
}

/** When two jobs' write scopes clash. */
module WriteScopes {
  import opened PosixPath

  function RStrip(s: string): (r: string)
    ensures r <= s
  {
    if |s| > 0 && s[|s| - 1] == '/' then RStrip(s[..|s| - 1]) else s
  }

  predicate Clash(a: string, b: string) {
    a == b || RStrip(b) + "/" <= a || RStrip(a) + "/" <= b
  }

  /** An absent scope is the empty string. */
  predicate ScopesConflict(left: string, right: string) {
    left != "" && right != "" && Clash(Text(left), Text(right))
  }

  /** `inner` lies at or below `outer`. */
  predicate Contains(outer: string, inner: string) {
    Root(outer) == Root(inner) && Parts(outer) <= Parts(inner)
  }

  predicate Bare(s: string) { Parts(s) == [] }

  lemma RStripSlashes(s: string)
    requires s == "/" || s == "//"
    ensures RStrip(s) == ""
  {
    assert RStrip("") == "";
    assert "/"[..0] == "" && RStrip("/") == "";
    assert "//"[..1] == "/";
  }

  lemma RootedPrefix(root: string, x: string, y: string)
    ensures root + x <= root + y <==> x <= y
  {
    if root + x <= root + y {
      assert forall k :: 0 <= k < |x| ==> x[k] == (root + x)[|root| + k] == (root + y)[|root| + k] == y[k];
    }
  }

  ghost predicate IsRoot(root: string) { root == "" || root == "/" || root == "//" }

  lemma NamedEqual(root: string, p: seq<string>, q: seq<string>)
    requires Components(p) && Components(q) && p != [] && q != []
    ensures root + Join(p) == root + Join(q) <==> p == q
  {
    if root + Join(p) == root + Join(q) {
      RootedPrefix(root, Join(p), Join(q));
      RootedPrefix(root, Join(q), Join(p));
      JoinInjective(p, q);
    }
  }

  lemma NamedBelow(root: string, p: seq<string>, q: seq<string>)
    requires IsRoot(root) && Components(p) && Components(q) && p != [] && q != []
    ensures RStrip(root + Join(p)) + "/" <= root + Join(q) <==> ProperPrefix(p, q)
  {
    JoinStart(p);
    var a := root + Join(p);
    assert RStrip(a) == a;
    assert a + "/" == root + (Join(p) + "/");
    RootedPrefix(root, Join(p) + "/", Join(q));
    JoinPrefix(p, q);
  }

  /** Two named paths under one root. */
  lemma ClashNamed(root: string, p: seq<string>, q: seq<string>)
    requires IsRoot(root) && Components(p) && Components(q) && p != [] && q != []
    ensures Clash(root + Join(p), root + Join(q)) <==> p <= q || q <= p
  {
    NamedEqual(root, p, q);
    NamedBelow(root, p, q);
    NamedBelow(root, q, p);
    assert p <= q <==> p == q || p < q;
    assert q <= p <==> p == q || q < p;
  }

  /** A bare root against anything absolute. */
  lemma ClashRoot(root: string, text: string)
    requires root == "/" || root == "//"
    requires text != "" && text[0] == '/'
    ensures Clash(root, text) && Clash(text, root)
  {
    RStripSlashes(root);
    assert "" + "/" == "/";
    assert "/" <= text;
  }

  /** The bare current directory against a named relative path. */
  lemma ClashDot(q: seq<string>)
    requires Components(q) && q != []
    ensures !Clash(".", Join(q)) && !Clash(Join(q), ".")
  {
    JoinStart(q);
    assert RStrip(".") == "." && RStrip(Join(q)) == Join(q);
    assert |q[0]| >= 2 ==> q[0][1] in q[0];
    if |q[0]| == 1 {
      assert q[0] == [q[0][0]];
      assert Join(q)[0] != '.';
    } else {
      assert Join(q)[1] == q[0][1];
    }
  }

  lemma ClashSecond(a: string, b: string)
    requires |a| >= 2 && |b| >= 2 && RStrip(a) == a && RStrip(b) == b && a[1] != b[1]
    ensures !Clash(a, b)
  {
    assert (a + "/")[1] == a[1] && (b + "/")[1] == b[1];
  }

  lemma ClashFirst(a: string, b: string)
    requires a != "" && b != "" && a[0] == '/' && b[0] != '/'
    ensures !Clash(a, b) && !Clash(b, a)
  {
    assert (RStrip(a) + "/")[0] == '/';
    assert RStrip(b) != "" by { RStripKeepsFirst(b); }
    assert (RStrip(b) + "/")[0] == b[0];
  }

  lemma {:induction false} RStripKeepsFirst(b: string)
    requires b != "" && b[0] != '/'
    ensures RStrip(b) != ""
  {
    if b[|b| - 1] == '/' { RStripKeepsFirst(b[..|b| - 1]); }
  }

  lemma TextShape(s: string)
    requires s != ""
    ensures IsRoot(Root(s)) && Components(Parts(s))
    ensures Bare(s) ==> Text(s) == (if Root(s) == "" then "." else Root(s))
    ensures !Bare(s) ==> Text(s) == Root(s) + Join(Parts(s)) && RStrip(Text(s)) == Text(s)
    ensures !Bare(s) ==> Join(Parts(s)) != "" && Join(Parts(s))[0] != '/'
  {
    PartsAreComponents(s);
    if !Bare(s) {
      JoinStart(Parts(s));
    }
  }

  lemma SameRootBare(left: string, right: string)
    requires left != "" && right != "" && Root(left) == Root(right) && Bare(left) && Bare(right)
    ensures Clash(Text(left), Text(right)) && Contains(left, right)
  {
    TextShape(left);
    TextShape(right);
  }

  lemma SameRootNamed(left: string, right: string)
    requires left != "" && right != "" && Root(left) == Root(right) && !Bare(left) && !Bare(right)
    ensures Clash(Text(left), Text(right)) <==> Contains(left, right) || Contains(right, left)
  {
    TextShape(left);
    TextShape(right);
    ClashNamed(Root(left), Parts(left), Parts(right));
  }

  lemma SameRootMixed(bare: string, named: string)
    requires bare != "" && named != "" && Root(bare) == Root(named) && Bare(bare) && !Bare(named)
    ensures Contains(bare, named)
    ensures Clash(Text(bare), Text(named)) <==> Root(bare) != ""
    ensures Clash(Text(named), Text(bare)) <==> Root(bare) != ""
  {
    TextShape(bare);
    TextShape(named);
    if Root(bare) == "" {
      assert "" + Join(Parts(named)) == Join(Parts(named));
      ClashDot(Parts(named));
    } else {
      ClashRoot(Root(bare), Text(named));
    }
  }

  /** With equal roots the string comparison is component-wise containment, unless
      exactly one side is the bare current directory. */
  lemma ConflictSameRoot(left: string, right: string)
    requires left != "" && right != "" && Root(left) == Root(right)
    ensures Clash(Text(left), Text(right)) <==>
      && (Contains(left, right) || Contains(right, left))
      && (Root(left) == "" ==> (Bare(left) <==> Bare(right)))
  {
    if Bare(left) && Bare(right) {
      SameRootBare(left, right);
    } else if Bare(left) {
      SameRootMixed(left, right);
    } else if Bare(right) {
      SameRootMixed(right, left);
    } else {
      SameRootNamed(left, right);
    }
  }

  lemma ConflictOtherRoot(left: string, right: string)
    requires left != "" && right != "" && Root(left) != Root(right)
    ensures Clash(Text(left), Text(right)) <==>
      Root(left) != "" && Root(right) != "" && (Bare(left) || Bare(right))
  {
    TextShape(left);
    TextShape(right);
    if Root(left) == "" {
      ClashFirst(Text(right), Text(left));
    } else if Root(right) == "" {
      ClashFirst(Text(left), Text(right));
    } else if Bare(left) {
      ClashRoot(Root(left), Text(right));
    } else if Bare(right) {
      ClashRoot(Root(right), Text(left));
    } else {
      ClashSecond(Text(left), Text(right));
    }
  }

  /** Exactly when two scopes clash.  Containment decides it, with two departures from
      what a reader would expect: a bare "." clashes with no scope below it, and a bare
      root clashes with everything absolute, across the "/" and "//" roots. */
  lemma ConflictMeaning(left: string, right: string)
    ensures ScopesConflict(left, right) <==>
      && left != "" && right != ""
      && if Root(left) == Root(right)
         then (Contains(left, right) || Contains(right, left)) && (Root(left) == "" ==> (Bare(left) <==> Bare(right)))
         else Root(left) != "" && Root(right) != "" && (Bare(left) || Bare(right))
    ensures ScopesConflict(left, right) <==> ScopesConflict(right, left)
  {
    if left != "" && right != "" {
      if Root(left) == Root(right) {
        ConflictSameRoot(left, right);
      } else {
        ConflictOtherRoot(left, right);
      }
    }
  }

  /** The whole working tree, written ".", contains "src" and yet does not clash with it. */
  lemma DotScopeEscapes()
    ensures Contains(".", "src") && !ScopesConflict(".", "src")
  {
    assert SlashFree("src") && SlashFree(".");
    SplitPiece("src");
    SplitPiece(".");
    assert Keep(["src"]) == ["src"] + Keep([]);
    assert Keep(["."]) == Keep([]) == [];
    ConflictMeaning(".", "src");
  }
}
