/** Laws of the migration splitter: the pieces rebuild the file, cuts are exactly the
  * semicolons outside quotes and comments, and splitting is stable under re-splitting.
  */
module SplitterLaws {
  import opened Wrappers
  import opened Splitter

  function Join(gs: seq<string>, sep: string): string {
    if gs == [] then "" else if |gs| == 1 then gs[0] else Join(gs[..|gs| - 1], sep) + sep + gs[|gs| - 1]
  }

  // ---------------------------------------------------------------- pieces and cuts

  /** Nothing is lost and nothing is invented: the pieces, with a semicolon between
      neighbours, are the file. */
  lemma {:induction false} SegmentsRebuild(s: string)
    ensures Join(Segments(s), ";") == s
  {
    if s != "" {
      var n := |s| - 1;
      var gs := Segments(s[..n]);
      SegmentsRebuild(s[..n]);
      assert s == s[..n] + [s[n]];
      if Cut(s, n) {
        assert (gs + [""])[..|gs|] == gs;
      } else {
        var hs := gs[..|gs| - 1] + [gs[|gs| - 1] + [s[n]]];
        assert hs[..|gs| - 1] == gs[..|gs| - 1];
      }
    }
  }

  /** Where piece `j - 1` ends in the file. */
  function Boundary(gs: seq<string>, j: nat): nat requires j <= |gs| { |Join(gs[..j], ";")| }

  lemma BoundaryStep(s: string)
    requires s != ""
    ensures var n := |s| - 1;
            var gs, hs := Segments(s[..n]), Segments(s);
            && |hs| == (if Cut(s, n) then |gs| + 1 else |gs|)
            && (Cut(s, n) ==> Boundary(hs, |gs|) == n)
            && forall j :: 0 < j < |gs| ==> Boundary(hs, j) == Boundary(gs, j) < n
  {
    hide Run, Segments, Join;
    var n := |s| - 1;
    var gs, hs := Segments(s[..n]), Segments(s);
    assert s[..n + 1] == s;
    ExtendSegments(s, n);
    SegmentsRebuild(s[..n]);
    assert gs[..|gs|] == gs;
    if Cut(s, n) { assert hs[..|gs|] == gs; }
    forall j | 0 < j < |gs| ensures Boundary(hs, j) == Boundary(gs, j) < n {
      assert hs[..j] == gs[..j];
      JoinGrows(gs, j);
    }
  }

  /** The characters dropped between pieces are exactly the cuts: position `k` is a cut if and
      only if it is where some piece but the last one ends. */
  lemma {:induction false} CutsAreBoundaries(s: string, k: nat)
    requires k < |s|
    ensures Cut(s, k) <==> exists j :: 0 < j < |Segments(s)| && k == Boundary(Segments(s), j)
    decreases |s|
  {
    hide Run, Segments, Boundary;
    var n := |s| - 1;
    var gs, hs := Segments(s[..n]), Segments(s);
    BoundaryStep(s);
    if k < n {
      CutsAreBoundaries(s[..n], k);
      assert s[..n][..k] == s[..k];
      if Cut(s, k) {
        var j :| 0 < j < |gs| && k == Boundary(gs, j);
        assert k == Boundary(hs, j);
      }
    }
  }

  lemma {:induction false} JoinGrows(gs: seq<string>, j: nat)
    requires 0 < j < |gs|
    ensures |Join(gs[..j], ";")| < |Join(gs, ";")|
  {
    var p := gs[..|gs| - 1];
    if j < |p| {
      JoinGrows(p, j);
      assert p[..j] == gs[..j];
    }
  }

  // ---------------------------------------------------------------- reading concatenations

  lemma {:induction false} RunConcat(m: Mode, a: string, b: string)
    ensures Run(m, a + b) == Run(Run(m, a), b)
  {
    if b == "" {
      assert a + b == a;
    } else {
      var ab := a + b;
      assert ab[..|ab| - 1] == a + b[..|b| - 1];
      RunConcat(m, a, b[..|b| - 1]);
    }
  }

  predicate NoCut(g: string) { forall k: nat :: k < |g| ==> !Cut(g, k) }

  lemma {:induction false} NoCutSegments(g: string)
    requires NoCut(g)
    ensures Segments(g) == [g]
  {
    if g != "" {
      var h := g[..|g| - 1];
      forall k: nat | k < |h| ensures !Cut(h, k) {
        assert !Cut(g, k) && h[..k] == g[..k];
      }
      NoCutSegments(h);
      assert g == h + [g[|g| - 1]];
      assert !Cut(g, |h|);
    }
  }

  lemma CutShift(a: string, b: string, k: nat)
    requires k < |b| && Run(Plain, a) == Plain
    ensures Cut(a + b, |a| + k) == Cut(b, k)
  {
    assert (a + b)[..|a| + k] == a + b[..k];
    RunConcat(Plain, a, b[..k]);
  }

  lemma CutHere(a: string)
    requires Outside(Run(Plain, a))
    ensures Run(Plain, a + ";") == Plain && Segments(a + ";") == Segments(a) + [""]
  {
    hide Run, Segments;
    var ac := a + ";";
    assert ac[..|a|] == a && ac[..|a| + 1] == ac;
    ExtendRun(ac, |a|);
    ExtendSegments(ac, |a|);
  }

  /** Joining at a semicolon that is a cut joins the piece lists. */
  lemma {:induction false} SegmentsConcat(a: string, b: string)
    requires Outside(Run(Plain, a))
    ensures Segments(a + ";" + b) == Segments(a) + Segments(b)
  {
    hide Run, Segments, Cut;
    var ac := a + ";";
    var s := ac + b;
    CutHere(a);
    if b == "" {
      EmptyPiece();
      assert s == ac;
    } else {
      var n, k := |b| - 1, |s| - 1;
      assert s[..k] == ac + b[..n] && s[..k + 1] == s && b[..n + 1] == b;
      SegmentsConcat(a, b[..n]);
      CutShift(ac, b, n);
      ExtendSegments(s, k);
      ExtendSegments(b, n);
      var ga, gb := Segments(a), Segments(b[..n]);
      assert (ga + gb)[..|ga + gb| - 1] == ga + gb[..|gb| - 1];
    }
  }

  lemma OnePiece(g: string)
    ensures Statements([g]) == if HasToken(g) then [Trim(g)] else []
  {
    assert [g][..0] == [];
  }

  lemma {:induction false} StatementsConcat(a: seq<string>, b: seq<string>)
    ensures Statements(a + b) == Statements(a) + Statements(b)
  {
    if b == [] {
      assert a + b == a;
    } else {
      var ab := a + b;
      assert ab[..|ab| - 1] == a + b[..|b| - 1];
      StatementsConcat(a, b[..|b| - 1]);
    }
  }

  lemma EmptyUncut()
    ensures NoCut("")
  {
  }

  lemma GrowPiece(g: string, c: char)
    requires NoCut(g) && !(c == ';' && Outside(Run(Plain, g)))
    ensures NoCut(g + [c]) && Run(Plain, g + [c]) == Next(Run(Plain, g), c)
  {
    hide Run;
    var gc := g + [c];
    assert gc[..|g|] == g && gc[..|g| + 1] == gc;
    ExtendRun(gc, |g|);
    forall k: nat | k < |gc| ensures !Cut(gc, k) {
      if k < |g| { assert !Cut(g, k) && gc[..k] == g[..k]; }
    }
  }

  /** Every piece is free of cuts, and the reader is outside quotes and block comments at its
      end - a line comment may still be open at the end of the file. */
  predicate Ends(g: string) { Outside(Run(Plain, g)) || Run(Plain, g) == Line }

  lemma {:induction false} SegmentsShape(s: string)
    ensures var gs := Segments(s);
            && (forall j :: 0 <= j < |gs| ==> NoCut(gs[j]))
            && (forall j :: 0 <= j < |gs| - 1 ==> Outside(Run(Plain, gs[j])))
            && Run(Plain, gs[|gs| - 1]) == Run(Plain, s)
  {
    hide Run, Segments, NoCut;
    EmptyPiece();
    EmptyUncut();
    if s != "" {
      var n := |s| - 1;
      var gs := Segments(s[..n]);
      SegmentsShape(s[..n]);
      assert s[..n + 1] == s;
      ExtendSegments(s, n);
      ExtendRun(s, n);
      if !Cut(s, n) { GrowPiece(gs[|gs| - 1], s[n]); }
    }
  }

  // ---------------------------------------------------------------- trimming

  lemma {:induction false} TrimLeftParts(s: string) returns (w: string)
    ensures s == w + TrimLeft(s)
    ensures forall c :: c in w ==> Space(c)
    ensures TrimLeft(s) != "" ==> !Space(TrimLeft(s)[0])
  {
    w := "";
    if s != "" && Space(s[0]) {
      var v := TrimLeftParts(s[1..]);
      w := [s[0]] + v;
      assert s == [s[0]] + s[1..];
    }
  }

  lemma {:induction false} TrimRightParts(s: string) returns (w: string)
    ensures s == TrimRight(s) + w
    ensures forall c :: c in w ==> Space(c)
    ensures TrimRight(s) != "" ==> !Space(TrimRight(s)[|TrimRight(s)| - 1])
  {
    w := "";
    if s != "" && Space(s[|s| - 1]) {
      var v := TrimRightParts(s[..|s| - 1]);
      w := v + [s[|s| - 1]];
      assert s == s[..|s| - 1] + [s[|s| - 1]];
    }
  }

  lemma TrimParts(s: string) returns (left: string, right: string)
    ensures s == left + Trim(s) + right
    ensures forall c :: c in left || c in right ==> Space(c)
    ensures Trim(s) != "" ==> !Space(Trim(s)[0]) && !Space(Trim(s)[|Trim(s)| - 1])
  {
    left := TrimLeftParts(s);
    right := TrimRightParts(TrimLeft(s));
    if Trim(s) != "" { assert Trim(s)[0] == TrimLeft(s)[0]; }
  }

  lemma {:induction false} TrimSkipsLeft(left: string, t: string)
    requires forall c :: c in left ==> Space(c)
    ensures TrimLeft(left + t) == TrimLeft(t)
  {
    if left == "" {
      assert left + t == t;
    } else {
      assert (left + t)[1..] == left[1..] + t && (left + t)[0] == left[0];
      TrimSkipsLeft(left[1..], t);
    }
  }

  lemma {:induction false} TrimSkipsRight(t: string, right: string)
    requires forall c :: c in right ==> Space(c)
    ensures TrimRight(t + right) == TrimRight(t)
  {
    if right == "" {
      assert t + right == t;
    } else {
      var s := t + right;
      assert s[..|s| - 1] == t + right[..|right| - 1];
      TrimSkipsRight(t, right[..|right| - 1]);
    }
  }

  predicate Trimmed(t: string) { t != "" && !Space(t[0]) && !Space(t[|t| - 1]) }

  lemma TrimOf(left: string, t: string, right: string)
    requires forall c :: c in left || c in right ==> Space(c)
    requires Trimmed(t)
    ensures Trim(left + t + right) == t
  {
    assert left + t + right == left + (t + right);
    TrimSkipsLeft(left, t + right);
    assert (t + right)[0] == t[0];
    TrimSkipsRight(t, right);
  }

  // ---------------------------------------------------------------- trimming and reading

  lemma {:induction false} SpacesStayPlain(w: string)
    requires forall c :: c in w ==> Space(c)
    ensures Run(Plain, w) == Plain
  {
    if w != "" { SpacesStayPlain(w[..|w| - 1]); assert w[|w| - 1] in w; }
  }

  // Reading white space never leaves a quote or a block comment.
  lemma {:induction false} SpacesEnterNothing(m: Mode, w: string)
    requires forall c :: c in w ==> Space(c)
    requires Outside(Run(m, w)) || Run(m, w) == Line
    ensures Outside(m) || m == Line
    ensures Outside(m) ==> Outside(Run(m, w))
  {
    if w != "" {
      assert w[|w| - 1] in w;
      SpacesEnterNothing(m, w[..|w| - 1]);
    }
  }

  lemma VisibleInside(left: string, t: string, right: string, i: nat)
    requires forall c :: c in left || c in right ==> Space(c)
    requires i < |t|
    ensures Visible(left + t + right, |left| + i) == Visible(t, i)
  {
    hide Run;
    var g := left + t + right;
    SpacesStayPlain(left);
    RunConcat(Plain, left, t[..i]);
    assert g[..|left| + i] == left + t[..i];
    assert g[|left| + i] == t[i];
    if i + 1 < |t| {
      assert g[|left| + i + 1] == t[i + 1];
    } else if |left| + i + 1 < |g| {
      assert g[|left| + i + 1] == right[0] && right[0] in right;
      assert !Opens(t[i], right[0]);
    }
  }

  lemma TrimKeepsTokens(left: string, t: string, right: string)
    requires forall c :: c in left || c in right ==> Space(c)
    ensures HasToken(t) ==> HasToken(left + t + right)
    ensures HasToken(left + t + right) && (forall c :: c in left || c in right ==> Blank(c)) ==> HasToken(t)
  {
    var g := left + t + right;
    if HasToken(t) {
      var i: nat :| i < |t| && Visible(t, i);
      VisibleInside(left, t, right, i);
    }
    if HasToken(g) && (forall c :: c in left || c in right ==> Blank(c)) {
      var k: nat :| k < |g| && Visible(g, k);
      if |left| <= k < |left| + |t| {
        VisibleInside(left, t, right, k - |left|);
      }
    }
  }

  /** A statement text: one uncut, properly ended, trimmed piece that holds a token. */
  predicate Statement(t: string) { NoCut(t) && Ends(t) && Trimmed(t) && HasToken(t) }

  /** What a join is made of, with or without a token. */
  predicate Piece(t: string) { NoCut(t) && Ends(t) && (HasToken(t) ==> Trimmed(t)) }

  lemma PaddedSegments(left: string, t: string, right: string)
    requires forall c :: c in left || c in right ==> Space(c)
    requires NoCut(t) && Ends(t)
    ensures NoCut(left + t + right) && Ends(left + t + right)
    ensures Outside(Run(Plain, t)) ==> Outside(Run(Plain, left + t + right))
  {
    SpacesStayPlain(left);
    RunConcat(Plain, left, t);
    var lt := left + t;
    forall k: nat | k < |lt| + |right| ensures !Cut(lt + right, k) {
      if k < |left| {
        assert (lt + right)[k] in left;
      } else if k < |lt| {
        assert (lt + right)[..k] == lt[..k];
        CutShift(left, t, k - |left|);
      } else {
        assert (lt + right)[k] == right[k - |lt|] && (lt + right)[k] in right;
      }
    }
    RunConcat(Plain, lt, right);
    SpacesKeepEnds(Run(Plain, lt), right);
  }

  lemma {:induction false} SpacesKeepEnds(m: Mode, w: string)
    requires forall c :: c in w ==> Space(c)
    requires Outside(m) || m == Line
    ensures Outside(Run(m, w)) || Run(m, w) == Line
    ensures Outside(m) ==> Outside(Run(m, w))
  {
    if w != "" {
      assert w[|w| - 1] in w;
      SpacesKeepEnds(m, w[..|w| - 1]);
    }
  }

  lemma UnpaddedSegments(g: string)
    requires NoCut(g) && Ends(g)
    ensures NoCut(Trim(g)) && Ends(Trim(g))
  {
    var left, right := TrimParts(g);
    var t := Trim(g);
    var lt := left + t;
    SpacesStayPlain(left);
    RunConcat(Plain, left, t);
    RunConcat(Plain, lt, right);
    SpacesEnterNothing(Run(Plain, lt), right);
    forall k: nat | k < |t| ensures !Cut(t, k) {
      CutShift(left, t, k);
      assert g[..|left| + k] == lt[..|left| + k];
      assert !Cut(g, |left| + k);
    }
  }

  // ---------------------------------------------------------------- re-splitting

  /** A token that trimming leaves: not in the white space around the piece. */
  predicate InnerToken(g: string) {
    exists i: nat :: i < |g| && Visible(g, i) && (exists a :: 0 <= a <= i && !Space(g[a]))
        && (exists b :: i <= b < |g| && !Space(g[b]))
  }

  /** Trimming leaves a piece a token exactly when one lies inside its surrounding white space. */
  lemma TrimmedToken(g: string)
    ensures HasToken(Trim(g)) <==> InnerToken(g)
  {
    hide Visible, Trim, Run;
    var left, right := TrimParts(g);
    var t := Trim(g);
    if HasToken(t) {
      var i: nat :| i < |t| && Visible(t, i);
      TrimmedTokenIn(g, left, t, right, i);
    }
    if InnerToken(g) {
      var i: nat, a: nat, b: nat := InnerAt(g);
      InsideMargins(left, t, right, a);
      InsideMargins(left, t, right, b);
      VisibleInside(left, t, right, i - |left|);
    }
  }

  lemma InsideMargins(left: string, t: string, right: string, k: nat)
    requires (forall c :: c in left || c in right ==> Space(c)) && k < |left + t + right|
             && !Space((left + t + right)[k])
    ensures |left| <= k < |left| + |t|
  {
  }

  lemma InnerAt(g: string) returns (i: nat, a: nat, b: nat)
    requires InnerToken(g)
    ensures i < |g| && Visible(g, i) && a <= i <= b < |g| && !Space(g[a]) && !Space(g[b])
  {
    hide Visible;
    i :| i < |g| && Visible(g, i) && (exists a :: 0 <= a <= i && !Space(g[a]))
        && (exists b :: i <= b < |g| && !Space(g[b]));
    a :| a <= i && !Space(g[a]);
    b :| i <= b < |g| && !Space(g[b]);
  }

  lemma TrimmedTokenIn(g: string, left: string, t: string, right: string, i: nat)
    requires g == left + t + right && (forall c :: c in left || c in right ==> Space(c)) && Trimmed(t)
    requires i < |t| && Visible(t, i)
    ensures InnerToken(g)
  {
    hide Visible;
    VisibleInside(left, t, right, i);
    var k := |left| + i;
    assert k < |g| && Visible(g, k);
    assert g[|left|] == t[0] && g[|left| + |t| - 1] == t[|t| - 1];
  }

  /** A returned statement splits to exactly itself precisely when trimming left it a token. */
  lemma ResplitExact(s: string, st: string)
    requires SplitSpec(s).Success? && st in SplitSpec(s).value
    ensures SplitSpec(st) == Success([st]) <==> HasToken(st)
    ensures HasToken(st) ==> Statement(st)
    ensures Piece(st)
  {
    hide Run, Segments, Statements, Trim, NoCut;
    var g := StatementSource(s, st);
    UnpaddedSegments(g);
    NoCutSegments(st);
    OnePiece(st);
    var left, right := TrimParts(g);
    if HasToken(st) {
      assert st != "" by { EmptyPiece(); }
      OneStatement(st);
    }
  }

  /** Exactly which files split into statements that split to themselves: those of which every piece
      with a token has one inside the white space around it. */
  lemma ResplitIff(s: string)
    requires SplitSpec(s).Success?
    ensures (forall st :: st in SplitSpec(s).value ==> SplitSpec(st) == Success([st]))
        <==> forall g :: g in Segments(s) && HasToken(g) ==> InnerToken(g)
  {
    hide Run, Segments, Statements, Trim, HasToken, InnerToken, Piece, Statement;
    forall g | g in Segments(s) && HasToken(g)
      ensures Trim(g) in SplitSpec(s).value && (InnerToken(g) <==> HasToken(Trim(g)))
    {
      InStatements(Segments(s), g);
      TrimmedToken(g);
    }
    forall st | st in SplitSpec(s).value
      ensures SplitSpec(st) == Success([st]) <==> HasToken(st)
      ensures exists g :: g in Segments(s) && HasToken(g) && st == Trim(g)
    {
      ResplitExact(s, st);
      var j := StatementSourceIn(Segments(s), st);
      assert Segments(s)[j] in Segments(s);
    }
  }

  lemma {:induction false} InStatements(gs: seq<string>, g: string)
    requires g in gs && HasToken(g)
    ensures Trim(g) in Statements(gs)
  {
    hide HasToken, Trim;
    var n := |gs| - 1;
    if g != gs[n] {
      assert gs == gs[..n] + [gs[n]];
      InStatements(gs[..n], g);
    }
  }

  lemma {:induction false} StatementSourceIn(gs: seq<string>, st: string) returns (j: nat)
    requires st in Statements(gs)
    ensures j < |gs| && HasToken(gs[j]) && st == Trim(gs[j])
  {
    var n := |gs| - 1;
    if HasToken(gs[n]) && st == Trim(gs[n]) {
      j := n;
    } else {
      j := StatementSourceIn(gs[..n], st);
    }
  }

  lemma StatementSource(s: string, st: string) returns (g: string)
    requires SplitSpec(s).Success? && st in SplitSpec(s).value
    ensures NoCut(g) && Ends(g) && HasToken(g) && st == Trim(g) && (forall c :: c in g ==> c in s)
  {
    SegmentsShape(s);
    var gs := Segments(s);
    var j := StatementSourceIn(gs, st);
    g := gs[j];
    PieceOf(s, j);
    assert Outside(Run(Plain, s)) || Run(Plain, s) == Line;
  }

  lemma {:induction false} PieceOf(s: string, j: nat)
    requires j < |Segments(s)|
    ensures forall c :: c in Segments(s)[j] ==> c in s
  {
    if s != "" {
      var n := |s| - 1;
      var gs := Segments(s[..n]);
      if j < |gs| { PieceOf(s[..n], j); }
      assert forall c :: c in s[..n] ==> c in s;
    }
  }

  /** All the white space in the file is space, tab, CR or LF. */
  predicate OnlyBlankSpace(s: string) { forall c :: c in s && Space(c) ==> Blank(c) }

  lemma BlankSpaceStatements(s: string)
    requires SplitSpec(s).Success? && OnlyBlankSpace(s)
    ensures forall st :: st in SplitSpec(s).value ==> Statement(st)
  {
    forall st | st in SplitSpec(s).value ensures Statement(st) {
      var g := StatementSource(s, st);
      var left, right := TrimParts(g);
      assert forall c :: c in left || c in right ==> c in g;
      TrimKeepsTokens(left, st, right);
      ResplitExact(s, st);
    }
  }

  /** Round trip, one by one: with only those four blanks in the file, every returned
      statement splits to exactly itself. */
  lemma ResplitEach(s: string, st: string)
    requires SplitSpec(s).Success? && OnlyBlankSpace(s) && st in SplitSpec(s).value
    ensures SplitSpec(st) == Success([st])
  {
    BlankSpaceStatements(s);
    ResplitExact(s, st);
  }

  // Between line feeds a statement keeps its text, and the reader is outside before it.
  lemma AfterNewline(a: string)
    requires Ends(a)
    ensures Outside(Run(Plain, a + "\n"))
    ensures Statements(Segments(a + "\n")) == Statements(Segments(a))
  {
    hide Run, Segments, Statements;
    var an := a + "\n";
    assert an[..|a|] == a && an[..|a| + 1] == an;
    ExtendRun(an, |a|);
    TrailingNewline(a);
  }

  lemma BeforeNewline(t: string)
    requires Piece(t)
    ensures Statements(Segments("\n" + t)) == (if HasToken(t) then [t] else []) && Ends("\n" + t)
  {
    hide Run, Segments, Statements, Trim, NoCut, HasToken;
    PaddedSegments("\n", t, "");
    assert "\n" + t + "" == "\n" + t;
    NoCutSegments("\n" + t);
    TrimKeepsTokens("\n", t, "");
    if HasToken(t) { TrimOf("\n", t, ""); }
    OnePiece("\n" + t);
  }

  lemma EndsConcat(a: string, b: string)
    requires Outside(Run(Plain, a)) && Ends(b)
    ensures Ends(a + ";" + b) && Run(Plain, a + ";" + b) == Run(Plain, b)
  {
    hide Run;
    var ac := a + ";";
    assert ac[..|a|] == a && ac[..|a| + 1] == ac;
    ExtendRun(ac, |a|);
    RunConcat(Plain, ac, b);
  }

  lemma NewlineJoin(a: string, t: string)
    requires Ends(a) && Piece(t)
    ensures Statements(Segments(a + "\n;\n" + t)) == Statements(Segments(a)) + if HasToken(t) then [t] else []
    ensures Ends(a + "\n;\n" + t)
  {
    hide Run, Segments, Statements, Trim, NoCut, HasToken;
    var b, c := a + "\n", "\n" + t;
    assert a + "\n;\n" + t == b + ";" + c;
    AfterNewline(a);
    BeforeNewline(t);
    SegmentsConcat(b, c);
    EndsConcat(b, c);
    StatementsConcat(Segments(b), Segments(c));
  }

  lemma TrailingNewline(a: string)
    requires Ends(a)
    ensures Statements(Segments(a + "\n")) == Statements(Segments(a))
  {
    var gs := Segments(a);
    var g := gs[|gs| - 1];
    var an := a + "\n";
    assert an[..|a|] == a;
    assert !Cut(an, |a|);
    assert Segments(an) == gs[..|gs| - 1] + [g + "\n"];
    SegmentsShape(a);
    TokenSnoc(g, '\n');
    assert g + ['\n'] == g + "\n" && (g + "\n")[..|g|] == g;
    TrimSkipsTail(g);
  }

  lemma TrimSkipsTail(g: string)
    ensures Trim(g + "\n") == Trim(g)
  {
    var w := TrimLeftParts(g);
    var t := TrimLeft(g);
    assert g + "\n" == w + (t + "\n");
    TrimSkipsLeft(w, t + "\n");
    if t == "" {
      assert t + "\n" == "\n" && "\n"[1..] == "";
    } else {
      assert (t + "\n")[0] == t[0];
      TrimSkipsRight(t, "\n");
    }
  }

  function Tokened(sts: seq<string>): seq<string> {
    if sts == [] then []
    else Tokened(sts[..|sts| - 1]) + if HasToken(sts[|sts| - 1]) then [sts[|sts| - 1]] else []
  }

  lemma {:induction false} TokenedAll(sts: seq<string>)
    ensures |Tokened(sts)| <= |sts|
    ensures Tokened(sts) == sts <==> forall st :: st in sts ==> HasToken(st)
    ensures |Tokened(sts)| == |sts| ==> forall st :: st in sts ==> HasToken(st)
  {
    hide HasToken;
    if sts != [] {
      TokenedAll(sts[..|sts| - 1]);
      assert sts == sts[..|sts| - 1] + [sts[|sts| - 1]];
    }
  }

  /** Joining statements with a semicolon on a line of its own and splitting again gives the
      same list, whatever the statements are. */
  lemma NewlineRoundTrip(sts: seq<string>)
    requires sts != [] && (forall st :: st in sts ==> Statement(st))
    ensures SplitSpec(Join(sts, "\n;\n")) == Success(sts)
  {
    hide Run, Segments, Statements, Join, HasToken, Tokened, NoCut;
    NewlineRoundTripHelper(sts);
    TokenedAll(sts);
  }

  lemma {:induction false} NewlineRoundTripHelper(sts: seq<string>)
    requires sts != [] && (forall st :: st in sts ==> Piece(st))
    ensures Ends(Join(sts, "\n;\n")) && Statements(Segments(Join(sts, "\n;\n"))) == Tokened(sts)
  {
    hide Run, Segments, Statements, NoCut, HasToken, Trim, Ends;
    var n := |sts| - 1;
    var last := sts[n];
    assert Piece(last);
    if n == 0 {
      OnlyPiece(last);
      assert sts == [last] && sts[..0] == [];
      assert Join(sts, "\n;\n") == last;
    } else {
      NewlineRoundTripHelper(sts[..n]);
      NewlineJoin(Join(sts[..n], "\n;\n"), last);
    }
  }

  lemma OnlyPiece(t: string)
    requires Piece(t)
    ensures Segments(t) == [t] && Statements(Segments(t)) == if HasToken(t) then [t] else []
  {
    hide HasToken;
    NoCutSegments(t);
    assert [t][..0] == [];
    if HasToken(t) {
      TrimOf("", t, "");
      assert "" + t + "" == t;
    }
  }

  lemma OneStatement(t: string)
    requires Statement(t)
    ensures Segments(t) == [t] && Statements([t]) == [t]
  {
    hide HasToken, Segments, Statements;
    OnlyPiece(t);
  }

  /** Exactly which files round-trip as a whole: the statements, joined by a semicolon between line
      feeds, split back into the same list under the same condition as each of them alone. */
  lemma ResplitJoinedIff(s: string)
    requires SplitSpec(s).Success?
    ensures SplitSpec(Join(SplitSpec(s).value, "\n;\n")) == SplitSpec(s)
        <==> forall g :: g in Segments(s) && HasToken(g) ==> InnerToken(g)
  {
    hide Run, Segments, Statements, HasToken, InnerToken, Piece, Statement, Join, Tokened, NoCut;
    var sts := SplitSpec(s).value;
    ResplitIff(s);
    forall st | st in sts
      ensures Piece(st) && (SplitSpec(st) == Success([st]) <==> HasToken(st))
    {
      ResplitExact(s, st);
    }
    NewlineRoundTripHelper(sts);
    TokenedAll(sts);
  }

  /** Round trip, as a whole: the statements of a file with only those four blanks, joined by
      a semicolon between line feeds, split back into the same list. */
  lemma ResplitJoined(s: string)
    requires SplitSpec(s).Success? && OnlyBlankSpace(s)
    ensures SplitSpec(Join(SplitSpec(s).value, "\n;\n")) == SplitSpec(s)
  {
    BlankSpaceStatements(s);
    NewlineRoundTrip(SplitSpec(s).value);
  }

  // ---------------------------------------------------------------- the bare semicolon

  /** A bare semicolon is not enough: it round-trips exactly when no statement but the last
      ends inside a line comment. */
  lemma SemicolonRoundTrip(sts: seq<string>)
    requires sts != [] && (forall st :: st in sts ==> Statement(st))
    ensures SplitSpec(Join(sts, ";")) == Success(sts) <==>
            forall i :: 0 <= i < |sts| - 1 ==> Run(Plain, sts[i]) != Line
  {
    hide Run, Segments, Statements, Join, NoCut, HasToken;
    if forall i :: 0 <= i < |sts| - 1 ==> Run(Plain, sts[i]) != Line {
      SemicolonJoins(sts);
      assert Statement(sts[|sts| - 1]);
    } else {
      var i :| 0 <= i < |sts| - 1 && Run(Plain, sts[i]) == Line;
      var k := FirstLine(sts, i);
      SemicolonBreaks(sts, k);
    }
  }

  lemma FirstLine(sts: seq<string>, i: nat) returns (k: nat)
    requires i < |sts| && Run(Plain, sts[i]) == Line
    ensures k <= i && Run(Plain, sts[k]) == Line && forall j :: 0 <= j < k ==> Run(Plain, sts[j]) != Line
  {
    k := i;
    if j :| 0 <= j < i && Run(Plain, sts[j]) == Line { k := FirstLine(sts, j); }
  }

  lemma {:induction false} SemicolonJoins(sts: seq<string>)
    requires sts != [] && (forall st :: st in sts ==> Statement(st))
    requires forall i :: 0 <= i < |sts| - 1 ==> Run(Plain, sts[i]) != Line
    ensures Segments(Join(sts, ";")) == sts && Statements(sts) == sts
    ensures Run(Plain, Join(sts, ";")) == Run(Plain, sts[|sts| - 1])
  {
    hide Run, Segments, Statements, NoCut, HasToken, Trim;
    var n := |sts| - 1;
    OneStatement(sts[n]);
    if n > 0 {
      var a, b := Join(sts[..n], ";"), sts[n];
      SemicolonJoins(sts[..n]);
      assert sts == sts[..n] + [b];
      assert Statement(sts[n - 1]);
      SegmentsConcat(a, b);
      StatementsConcat(sts[..n], [b]);
      EndsConcat(a, b);
    } else {
      assert sts == [sts[0]];
    }
  }

  // The first piece of a text starts with every uncut prefix of it.
  lemma {:induction false} FirstPiece(p: string, r: string)
    requires NoCut(p)
    ensures p <= Segments(p + r)[0]
  {
    if r == "" {
      assert p + r == p;
      NoCutSegments(p);
    } else {
      var s := p + r;
      assert s[..|s| - 1] == p + r[..|r| - 1];
      FirstPiece(p, r[..|r| - 1]);
    }
  }

  lemma {:induction false} JoinSplit(a: seq<string>, b: seq<string>)
    requires a != [] && b != []
    ensures Join(a + b, ";") == Join(a, ";") + ";" + Join(b, ";")
  {
    var ab := a + b;
    assert ab[..|ab| - 1] == a + b[..|b| - 1];
    if |b| == 1 {
      assert a + b[..0] == a;
    } else {
      JoinSplit(a, b[..|b| - 1]);
    }
  }

  lemma JoinOne(t: string)
    ensures Join([t], ";") == t
  {
  }

  lemma {:induction false} TrimRightKeeps(s: string, k: nat)
    requires k < |s| && !Space(s[k])
    ensures k < |TrimRight(s)|
  {
    if Space(s[|s| - 1]) { TrimRightKeeps(s[..|s| - 1], k); }
  }

  lemma LineSwallows(t: string, r: string)
    requires Statement(t) && Run(Plain, t) == Line
    ensures var gs := Segments(t + ";" + r); HasToken(gs[0]) && |Trim(gs[0])| > |t|
  {
    var p := t + ";";
    assert p[..|t|] == t;
    forall k: nat | k < |p| ensures !Cut(p, k) {
      assert p[..k] == t[..k];
      if k < |t| { assert !Cut(t, k); }
    }
    FirstPiece(p, r);
    var g := Segments(p + r)[0];
    assert g == t + g[|t|..] && g[|t|..][0] == ';';
    TokenPrefix(t, g[|t|..]);
    assert g[0] == t[0] && TrimLeft(g) == g;
    TrimRightKeeps(g, |t|);
  }

  // A statement that ends in a line comment swallows the semicolon after it.
  lemma LongerFirst(t: string, r: string)
    requires Statement(t) && Run(Plain, t) == Line
    ensures var out := Statements(Segments(t + ";" + r)); out != [] && |out[0]| > |t|
  {
    hide Run, Segments, Statements, NoCut, HasToken, Trim;
    LineSwallows(t, r);
    var gs := Segments(t + ";" + r);
    assert gs == [gs[0]] + gs[1..];
    StatementsConcat([gs[0]], gs[1..]);
    OnePiece(gs[0]);
  }

  lemma SemicolonPrefix(a: seq<string>, text: string)
    requires a != [] && (forall st :: st in a ==> Statement(st))
    requires forall j :: 0 <= j < |a| ==> Run(Plain, a[j]) != Line
    ensures Statements(Segments(Join(a, ";") + ";" + text)) == a + Statements(Segments(text))
  {
    hide Run, Segments, Statements, Join, NoCut, HasToken, Trim;
    SemicolonJoins(a);
    assert Statement(a[|a| - 1]);
    SegmentsConcat(Join(a, ";"), text);
    StatementsConcat(a, Segments(text));
  }

  lemma SemicolonBreaks(sts: seq<string>, k: nat)
    requires k < |sts| - 1 && (forall st :: st in sts ==> Statement(st))
    requires Run(Plain, sts[k]) == Line && forall j :: 0 <= j < k ==> Run(Plain, sts[j]) != Line
    ensures Statements(Segments(Join(sts, ";"))) != sts
  {
    hide *;
    var a, t, rest := sts[..k], sts[k], sts[k + 1..];
    var text := t + ";" + Join(rest, ";");
    JoinSplit([t], rest);
    JoinOne(t);
    LongerFirst(t, Join(rest, ";"));
    var out := Statements(Segments(text));
    if k == 0 {
      assert [t] + rest == sts;
    } else {
      JoinSplit(a, [t] + rest);
      assert a + ([t] + rest) == sts;
      SemicolonPrefix(a, text);
      assert (a + out)[k] == out[0];
    }
  }

  // ---------------------------------------------------------------- why the conditions are there

  /** A file holding only a vertical tab: the splitter takes it for a token and then trims it
      away, so it returns an empty statement, which does not split at all. */
  lemma VerticalTabCounterexample()
    ensures SplitSpec([11 as char]) == Success([""])
    ensures SplitSpec("") == Failure(NoStatements)
  {
    var v: string := [11 as char];
    assert v[..0] == "" && v[1..] == "";
    assert Visible(v, 0);
    NoCutSegments(v);
    OnePiece(v);
    assert TrimLeft(v) == "";
    NoCutSegments("");
    OnePiece("");
  }

  /** Two statements whose bare-semicolon join is a single statement. */
  lemma BareSemicolonCounterexample()
    ensures Statement("a--") && Statement("b")
    ensures SplitSpec(Join(["a--", "b"], ";")) != Success(["a--", "b"])
  {
    var a, b := "a--", "b";
    assert a[..0] == "" && a[..1] == "a" && a[..2] == "a-" && a[..3] == a && "a"[..0] == "" && "a-"[..1] == "a"
           && b[..0] == "";
    assert Run(Plain, "a") == Plain && Run(Plain, "a-") == Dash && Run(Plain, a) == Line;
    assert Visible(a, 0) && Visible(b, 0);
    SemicolonRoundTrip([a, b]);
    assert [a, b][0] == a;
  }
}
