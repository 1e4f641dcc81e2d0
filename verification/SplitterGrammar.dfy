/** What the splitter does, said without its modes: a file is built from plain characters, quoted
  * values and comments, and the semicolons between them end the statements.  Every text is such a
  * file, so the grammar decides what the splitter returns for every input.
  */
module SplitterGrammar {
  import opened Wrappers
  import opened Splitter
  import opened SplitterLaws

  // ---------------------------------------------------------------- the grammar

  datatype Chunk =
    | Char(c: char)
    | Literal(q: char, body: string)
    | LineComment(open: string, body: string)
    | BlockComment(body: string)

  /** What the file breaks off in, if anything. */
  datatype Tail = Nothing | OpenLine(open: string, body: string) | OpenBlock(body: string)
                | OpenQuote(q: char, body: string, escaping: bool)

  /** `front` and `last` are the statements' chunks; a semicolon stands between neighbours. */
  datatype Document = Document(front: seq<seq<Chunk>>, last: seq<Chunk>, tail: Tail)

  function Render(c: Chunk): (s: string)
    requires ValidChunk(c)
    ensures s != ""
  {
    match c
    case Char(c) => [c]
    case Literal(q, body) => [q] + body + [q]
    case LineComment(open, body) => open + body + "\n"
    case BlockComment(body) => "/*" + body + "*/"
  }

  function TailText(t: Tail): string {
    match t
    case Nothing => ""
    case OpenLine(open, body) => open + body
    case OpenBlock(body) => "/*" + body
    case OpenQuote(q, body, escaping) => [q] + body + if escaping then "\\" else ""
  }

  predicate IsQuote(q: char) { q == '\'' || q == '"' || q == '`' }

  /** The inside of a quoted value: a quote is doubled or, outside backticks, escaped by a backslash,
      which there takes any one character with it. */
  predicate Inside(q: char, body: string) {
    if body == "" then true
    else if body[0] == q then |body| > 1 && body[1] == q && Inside(q, body[2..])
    else if body[0] == '\\' && q != '`' then |body| > 1 && Inside(q, body[2..])
    else Inside(q, body[1..])
  }

  predicate HasCloser(body: string) { exists i :: 0 <= i < |body| - 1 && body[i] == '*' && body[i + 1] == '/' }

  predicate ValidChunk(c: Chunk) {
    match c
    case Char(c) => c != ';' && c != '#' && !IsQuote(c)
    case Literal(q, body) => IsQuote(q) && Inside(q, body)
    case LineComment(open, body) => (open == "#" || open == "--") && '\n' !in body
    case BlockComment(body) => !HasCloser(body)
  }

  predicate ValidTail(t: Tail) {
    match t
    case Nothing => true
    case OpenLine(open, body) => (open == "#" || open == "--") && '\n' !in body
    case OpenBlock(body) => !HasCloser(body)
    case OpenQuote(q, body, escaping) => IsQuote(q) && Inside(q, body) && (escaping ==> q != '`')
  }

  /** The chunk does not run into the text after it: a dash into a dash, a slash into a star, a
      quoted value into the same quote. */
  predicate Separate(a: Chunk, next: string) {
    next != "" ==>
      && !(a == Char('-') && next[0] == '-') && !(a == Char('/') && next[0] == '*')
      && !(a.Literal? && next[0] == a.q)
  }

  predicate ValidChunks(cs: seq<Chunk>) {
    && (forall i :: 0 <= i < |cs| ==> ValidChunk(cs[i]))
    && (forall i :: 0 <= i < |cs| - 1 ==> Separate(cs[i], Render(cs[i + 1])))
  }

  predicate Valid(d: Document) {
    && (forall i :: 0 <= i < |d.front| ==> ValidChunks(d.front[i]))
    && ValidChunks(d.last) && ValidTail(d.tail)
    && (d.last != [] ==> Separate(d.last[|d.last| - 1], TailText(d.tail)))
  }

  function Text(cs: seq<Chunk>): string
    requires ValidChunks(cs)
  {
    if cs == [] then "" else Text(cs[..|cs| - 1]) + Render(cs[|cs| - 1])
  }

  function Texts(groups: seq<seq<Chunk>>): (ts: seq<string>)
    requires forall i :: 0 <= i < |groups| ==> ValidChunks(groups[i])
    ensures |ts| == |groups|
  {
    if groups == [] then [] else Texts(groups[..|groups| - 1]) + [Text(groups[|groups| - 1])]
  }

  function FileOf(d: Document): string
    requires Valid(d)
  {
    Join(Texts(d.front) + [Text(d.last) + TailText(d.tail)], ";")
  }

  /** Statement text: anything but comments and the four blanks. */
  predicate Shows(c: Chunk) { c.Literal? || (c.Char? && c.c !in {' ', '\t', '\r', '\n'}) }

  predicate Shown(cs: seq<Chunk>) { exists i :: 0 <= i < |cs| && Shows(cs[i]) }

  function Kept(groups: seq<seq<Chunk>>): seq<string>
    requires forall i :: 0 <= i < |groups| ==> ValidChunks(groups[i])
  {
    if groups == [] then []
    else
      var g := groups[|groups| - 1];
      Kept(groups[..|groups| - 1]) + if Shown(g) then [Trim(Text(g))] else []
  }

  /** What a document means: its statements, trimmed, where they show anything but comments and blanks. */
  function Meaning(d: Document): Result<seq<string>, SplitError>
    requires Valid(d)
  {
    if d.tail.OpenBlock? then Failure(UnterminatedBlockComment)
    else if d.tail.OpenQuote? then Failure(UnterminatedQuote)
    else
      var all := Kept(d.front) + if Shown(d.last) then [Trim(Text(d.last) + TailText(d.tail))] else [];
      if all == [] then Failure(NoStatements) else Success(all)
  }

  // ---------------------------------------------------------------- reading one stretch

  /** No semicolon of `s` ends a statement when it is read from mode `m`. */
  predicate CutFree(m: Mode, s: string) {
    forall k: nat :: k < |s| ==> !(s[k] == ';' && Outside(Run(m, s[..k])))
  }

  /** Every character of `s` is read inside a quote or comment. */
  predicate Quiet(m: Mode, s: string) { forall k: nat :: k < |s| ==> !Outside(Run(m, s[..k])) }

  lemma CutFreeConcat(m: Mode, a: string, b: string)
    requires CutFree(m, a) && CutFree(Run(m, a), b)
    ensures CutFree(m, a + b)
  {
    hide Run;
    forall k: nat | k < |a + b| ensures !((a + b)[k] == ';' && Outside(Run(m, (a + b)[..k]))) {
      if k < |a| {
        assert (a + b)[..k] == a[..k];
      } else {
        assert (a + b)[..k] == a + b[..k - |a|];
        RunConcat(m, a, b[..k - |a|]);
      }
    }
  }

  lemma QuietConcat(m: Mode, a: string, b: string)
    requires Quiet(m, a) && Quiet(Run(m, a), b)
    ensures Quiet(m, a + b)
  {
    hide Run;
    forall k: nat | k < |a + b| ensures !Outside(Run(m, (a + b)[..k])) {
      if k < |a| {
        assert (a + b)[..k] == a[..k];
      } else {
        assert (a + b)[..k] == a + b[..k - |a|];
        RunConcat(m, a, b[..k - |a|]);
      }
    }
  }

  lemma NoCutMore(t: string, s: string)
    requires NoCut(t) && CutFree(Run(Plain, t), s)
    ensures NoCut(t + s)
  {
    hide Run;
    assert CutFree(Plain, t) by {
      forall k: nat | k < |t| ensures !(t[k] == ';' && Outside(Run(Plain, t[..k]))) { assert !Cut(t, k); }
    }
    CutFreeConcat(Plain, t, s);
    forall k: nat | k < |t + s| ensures !Cut(t + s, k) {}
  }

  lemma RunOne(m: Mode, c: char)
    ensures Run(m, [c]) == Next(m, c)
  {
    assert [c][..0] == "";
  }

  lemma RunTwo(m: Mode, c: char, d: char)
    ensures Run(m, [c, d]) == Next(Next(m, c), d)
  {
    assert [c, d][..1] == [c];
    RunOne(m, c);
  }

  // What is read quietly adds no token.
  lemma {:induction false} QuietTokens(t: string, s: string)
    requires Quiet(Run(Plain, t), s)
    ensures HasToken(t + s) <==> HasToken(t)
  {
    hide Run, HasToken, Visible;
    if s == "" {
      assert t + s == t;
    } else {
      var n := |s| - 1;
      var u := t + s[..n];
      forall k: nat | k < n ensures !Outside(Run(Run(Plain, t), s[..n][..k])) { assert s[..n][..k] == s[..k]; }
      QuietTokens(t, s[..n]);
      RunConcat(Plain, t, s[..n]);
      TokenSnoc(u, s[n]);
      assert u + [s[n]] == t + s;
      NotVisible(u, s[n]);
    }
  }

  lemma NotVisible(u: string, c: char)
    requires !Outside(Run(Plain, u))
    ensures !Visible(u + [c], |u|)
  {
    assert (u + [c])[..|u|] == u;
  }

  lemma TokensStay(t: string, s: string)
    requires HasToken(t) && !Outside(Run(Plain, t))
    ensures HasToken(t + s)
  {
    hide Run, HasToken, Visible;
    TokenPrefix(t, s);
  }

  // ---------------------------------------------------------------- the three kinds of inside

  function QuoteOf(q: char): Quote
    requires IsQuote(q)
  {
    if q == '\'' then Single else if q == '"' then Double else Backtick
  }

  // Reading one or two characters that stay inside the quotes.
  lemma UnitStays(q: char, unit: string)
    requires IsQuote(q) && 1 <= |unit| <= 2
    requires unit[0] == q ==> |unit| == 2 && unit[1] == q
    requires unit[0] == '\\' && q != '`' ==> |unit| == 2
    requires |unit| == 2 ==> unit[0] == q || (unit[0] == '\\' && q != '`')
    ensures var m := Quoted(QuoteOf(q)); Run(m, unit) == m && CutFree(m, unit)
  {
    var m := Quoted(QuoteOf(q));
    if |unit| == 1 {
      assert unit == [unit[0]] && unit[..0] == "";
      RunOne(m, unit[0]);
    } else {
      assert unit == [unit[0], unit[1]] && unit[..1] == [unit[0]] && unit[..0] == "";
      RunTwo(m, unit[0], unit[1]);
      RunOne(m, unit[0]);
    }
  }

  lemma {:induction false} InsideStays(q: char, body: string)
    requires IsQuote(q) && Inside(q, body)
    ensures var m := Quoted(QuoteOf(q)); Run(m, body) == m && CutFree(m, body)
    decreases |body|
  {
    hide Run, CutFree;
    var m := Quoted(QuoteOf(q));
    if body == "" {
      NothingRead(m);
    } else {
      var n := if body[0] == q || (body[0] == '\\' && q != '`') then 2 else 1;
      UnitStays(q, body[..n]);
      InsideStays(q, body[n..]);
      assert body == body[..n] + body[n..];
      RunConcat(m, body[..n], body[n..]);
      CutFreeConcat(m, body[..n], body[n..]);
    }
  }

  lemma NothingRead(m: Mode)
    ensures Run(m, "") == m && CutFree(m, "") && Quiet(m, "")
  {
  }

  lemma {:induction false} LineStays(body: string)
    requires '\n' !in body
    ensures Run(Line, body) == Line && Quiet(Line, body)
  {
    hide Quiet, Outside;
    if body == "" {
      NothingRead(Line);
    } else {
      var n := |body| - 1;
      assert body == body[..n] + [body[n]];
      LineStays(body[..n]);
      BlockIsInside();
      QuietSnoc(Line, body[..n], body[n]);
    }
  }

  lemma {:induction false} BlockStays(body: string)
    requires !HasCloser(body)
    ensures Run(Block, body) == if body != "" && body[|body| - 1] == '*' then BlockStar else Block
    ensures Quiet(Block, body)
  {
    hide HasCloser, Quiet, Outside;
    if body == "" {
      NothingRead(Block);
    } else {
      var n := |body| - 1;
      assert body == body[..n] + [body[n]];
      CloserStays(body[..n], [body[n]]);
      CloserNew(body[..n], body[n]);
      BlockStays(body[..n]);
      BlockIsInside();
      QuietSnoc(Block, body[..n], body[n]);
    }
  }

  lemma BlockIsInside()
    ensures !Outside(Block) && !Outside(BlockStar) && !Outside(Line)
  {
  }

  lemma QuietSnoc(m: Mode, s: string, c: char)
    requires Quiet(m, s) && !Outside(Run(m, s))
    ensures Quiet(m, s + [c])
  {
    hide Run;
    forall k: nat | k < |s| + 1 ensures !Outside(Run(m, (s + [c])[..k])) {
      assert (s + [c])[..k] == s[..k];
    }
  }

  // ---------------------------------------------------------------- one chunk after a text

  lemma FromOutsideNext(m: Mode, c: char)
    requires Outside(m) && !Pairs(m, c)
    ensures Next(m, c) == FromOutside(c)
  {
  }

  /** The mode a chunk leaves the reader in. */
  function After(c: Chunk): Mode
    requires ValidChunk(c)
  {
    match c
    case Char(c) => if c == '-' then Dash else if c == '/' then Slash else Plain
    case Literal(q, _) => Closing(QuoteOf(q))
    case _ => Plain
  }

  ghost predicate Reads(t: string, s: string, m: Mode, shows: bool) {
    && NoCut(t + s) && Run(Plain, t + s) == m && (HasToken(t + s) <==> HasToken(t) || shows)
  }

  predicate Ready(t: string, s: string) {
    NoCut(t) && Outside(Run(Plain, t)) && (s != "" ==> !Pairs(Run(Plain, t), s[0]))
  }

  lemma CharReads(t: string, c: char)
    requires Ready(t, [c]) && ValidChunk(Char(c))
    ensures Reads(t, [c], After(Char(c)), Shows(Char(c)))
  {
    hide Run, HasToken;
    FromOutsideNext(Run(Plain, t), c);
    GrowPiece(t, c);
    TokenSnoc(t, c);
    assert (t + [c])[..|t|] == t;
  }

  // The opening quote and the inside; with the closing quote it is a value.
  lemma OpenReads(t: string, q: char, body: string)
    requires IsQuote(q) && Inside(q, body) && Ready(t, [q])
    ensures Reads(t, [q] + body, Quoted(QuoteOf(q)), true)
  {
    hide Run, HasToken, NoCut, Visible, CutFree;
    FromOutsideNext(Run(Plain, t), q);
    GrowPiece(t, q);
    TokenSnoc(t, q);
    QuoteShows(t, q);
    InsideStays(q, body);
    var u := t + [q];
    assert t + ([q] + body) == u + body;
    RunConcat(Plain, u, body);
    NoCutMore(u, body);
    TokensStay(u, body);
  }

  lemma QuoteShows(t: string, q: char)
    requires IsQuote(q) && Ready(t, [q])
    ensures Visible(t + [q], |t|)
  {
    assert (t + [q])[..|t|] == t;
  }

  lemma LiteralReads(t: string, q: char, body: string)
    requires IsQuote(q) && Inside(q, body) && Ready(t, [q])
    ensures Reads(t, Render(Literal(q, body)), Closing(QuoteOf(q)), true)
  {
    hide Run, HasToken, NoCut, Visible, Inside;
    OpenReads(t, q, body);
    var u := t + ([q] + body);
    assert t + Render(Literal(q, body)) == u + [q];
    GrowPiece(u, q);
    TokensStay(u, [q]);
  }

  // The opener of a comment: nothing shows, and the reader is in the comment.
  lemma HashOpens(t: string)
    requires Ready(t, "#")
    ensures Reads(t, "#", Line, false)
  {
    hide Run, HasToken;
    FromOutsideNext(Run(Plain, t), '#');
    GrowPiece(t, '#');
    TokenSnoc(t, '#');
    assert t + ['#'] == t + "#" && (t + "#")[..|t|] == t;
  }

  lemma PairOpens(t: string, c: char, d: char)
    requires Ready(t, [c, d]) && Opens(c, d)
    ensures Reads(t, [c, d], if c == '-' then Line else Block, false)
  {
    hide Run, HasToken;
    FromOutsideNext(Run(Plain, t), c);
    TokenPair(t, c, d);
    GrowPiece(t, c);
    GrowPiece(t + [c], d);
    assert t + [c] + [d] == t + [c, d];
  }

  lemma OpenerReads(t: string, open: string)
    requires (open == "#" || open == "--" || open == "/*") && Ready(t, open)
    ensures Reads(t, open, if open == "/*" then Block else Line, false)
  {
    if open == "#" {
      HashOpens(t);
    } else if open == "--" {
      PairOpens(t, '-', '-');
    } else {
      PairOpens(t, '/', '*');
    }
  }

  // The rest of a comment, whatever it holds.
  lemma QuietReads(t: string, open: string, rest: string)
    requires (open == "#" || open == "--" || open == "/*") && Ready(t, open)
    requires Quiet(if open == "/*" then Block else Line, rest)
    ensures Reads(t, open + rest, Run(if open == "/*" then Block else Line, rest), false)
  {
    hide Run, HasToken, NoCut, Outside;
    OpenerReads(t, open);
    var u := t + open;
    assert t + (open + rest) == u + rest;
    RunConcat(Plain, u, rest);
    QuietTokens(u, rest);
    QuietIsCutFree(Run(Plain, u), rest);
    NoCutMore(u, rest);
  }

  lemma QuietIsCutFree(m: Mode, s: string)
    requires Quiet(m, s)
    ensures CutFree(m, s)
  {
  }

  lemma LineCloses(body: string)
    requires '\n' !in body
    ensures Run(Line, body + "\n") == Plain && Quiet(Line, body + "\n")
  {
    LineStays(body);
    assert "\n"[..0] == "";
    RunConcat(Line, body, "\n");
    RunOne(Line, '\n');
    QuietConcat(Line, body, "\n");
  }

  lemma BlockCloses(body: string)
    requires !HasCloser(body)
    ensures Run(Block, body + "*/") == Plain && Quiet(Block, body + "*/")
  {
    BlockStays(body);
    var m := Run(Block, body);
    RunConcat(Block, body, "*/");
    assert "*/" == ['*', '/'] && "*/"[..0] == "" && "*/"[..1] == "*";
    RunTwo(m, '*', '/');
    RunOne(m, '*');
    QuietConcat(Block, body, "*/");
  }

  lemma ChunkReads(t: string, c: Chunk)
    requires ValidChunk(c) && Ready(t, Render(c))
    ensures Reads(t, Render(c), After(c), Shows(c))
  {
    hide Run, HasToken, NoCut, Quiet, Inside, HasCloser, Outside, Reads;
    match c
    case Char(x) => CharReads(t, x);
    case Literal(q, body) => LiteralReads(t, q, body);
    case LineComment(open, body) =>
      LineCloses(body);
      QuietReads(t, open, body + "\n");
      assert open + (body + "\n") == Render(c);
    case BlockComment(body) =>
      BlockCloses(body);
      QuietReads(t, "/*", body + "*/");
      assert "/*" + (body + "*/") == Render(c);
  }

  // ---------------------------------------------------------------- a whole statement

  lemma SeparateIsReady(c: Chunk, s: string)
    requires ValidChunk(c) && Separate(c, s)
    ensures Outside(After(c)) && (s != "" ==> !Pairs(After(c), s[0]))
  {
  }

  lemma FrontValid(cs: seq<Chunk>)
    requires cs != [] && ValidChunks(cs)
    ensures ValidChunks(cs[..|cs| - 1])
    ensures |cs| > 1 ==> Separate(cs[|cs| - 2], Render(cs[|cs| - 1]))
  {
    hide Render, Separate, ValidChunk;
    var front := cs[..|cs| - 1];
    forall i | 0 <= i < |front| - 1 ensures Separate(front[i], Render(front[i + 1])) {
      assert front[i] == cs[i] && front[i + 1] == cs[i + 1];
    }
  }

  lemma {:induction false} ChunksRead(cs: seq<Chunk>)
    requires ValidChunks(cs)
    ensures NoCut(Text(cs)) && Run(Plain, Text(cs)) == (if cs == [] then Plain else After(cs[|cs| - 1]))
    ensures HasToken(Text(cs)) <==> Shown(cs)
  {
    hide Run, HasToken, NoCut, Render, Shows, After, Separate, Outside, Pairs;
    if cs == [] {
      NothingCut();
    } else {
      var n := |cs| - 1;
      FrontValid(cs);
      ChunksRead(cs[..n]);
      var t := Text(cs[..n]);
      if n == 0 { PlainIsReady(Render(cs[n])); } else { SeparateIsReady(cs[n - 1], Render(cs[n])); }
      ChunkReads(t, cs[n]);
      assert cs == cs[..n] + [cs[n]];
      assert Shown(cs) <==> Shown(cs[..n]) || Shows(cs[n]);
    }
  }

  lemma NothingCut()
    ensures NoCut("") && Run(Plain, "") == Plain && !HasToken("")
  {
  }

  lemma PlainIsReady(s: string)
    ensures Outside(Plain) && (s != "" ==> !Pairs(Plain, s[0]))
  {
  }

  lemma TextReady(cs: seq<Chunk>, s: string)
    requires ValidChunks(cs) && (cs != [] ==> Separate(cs[|cs| - 1], s))
    ensures Ready(Text(cs), s)
  {
    hide Run, HasToken, NoCut, Render, Separate, Outside, Pairs;
    ChunksRead(cs);
    if cs == [] { PlainIsReady(s); } else { SeparateIsReady(cs[|cs| - 1], s); }
  }

  /** How a file's last piece reads. */
  ghost predicate LastRead(cs: seq<Chunk>, tail: Tail)
    requires ValidChunks(cs)
  {
    var g := Text(cs) + TailText(tail);
    var m := Run(Plain, g);
    && NoCut(g) && (m.Block? || m.BlockStar? <==> tail.OpenBlock?) && (m.Quoted? || m.Escaped? <==> tail.OpenQuote?)
    && (tail.Nothing? || tail.OpenLine? ==> (HasToken(g) <==> Shown(cs)))
  }

  lemma LastReads(cs: seq<Chunk>, tail: Tail)
    requires ValidChunks(cs) && ValidTail(tail) && (cs != [] ==> Separate(cs[|cs| - 1], TailText(tail)))
    ensures LastRead(cs, tail)
  {
    hide Inside, HasCloser, Separate, LastRead, ValidChunks;
    match tail
    case Nothing => EndsHere(cs);
    case OpenLine(open, body) => EndsInLine(cs, open, body);
    case OpenBlock(body) => EndsInBlock(cs, body);
    case OpenQuote(q, body, escaping) => EndsInQuote(cs, q, body, escaping);
  }

  lemma EndsHere(cs: seq<Chunk>)
    requires ValidChunks(cs)
    ensures LastRead(cs, Nothing)
  {
    hide Run, HasToken, NoCut, Shown, Text, ValidChunks;
    ChunksRead(cs);
    assert Text(cs) + "" == Text(cs);
  }

  lemma EndsInLine(cs: seq<Chunk>, open: string, body: string)
    requires ValidChunks(cs) && ValidTail(OpenLine(open, body)) && (cs != [] ==> Separate(cs[|cs| - 1], open + body))
    ensures LastRead(cs, OpenLine(open, body))
  {
    hide Run, HasToken, NoCut, Quiet, Separate, Shown, Text, ValidChunks, Pairs, Outside;
    LineStays(body);
    ChunksRead(cs);
    TextReady(cs, open + body);
    QuietReads(Text(cs), open, body);
  }

  lemma EndsInBlock(cs: seq<Chunk>, body: string)
    requires ValidChunks(cs) && !HasCloser(body) && (cs != [] ==> Separate(cs[|cs| - 1], "/*" + body))
    ensures LastRead(cs, OpenBlock(body))
  {
    hide Run, HasToken, NoCut, Quiet, HasCloser, Separate, Shown, Text, ValidChunks, Pairs, Outside;
    BlockStays(body);
    TextReady(cs, "/*" + body);
    QuietReads(Text(cs), "/*", body);
  }

  lemma EndsInQuote(cs: seq<Chunk>, q: char, body: string, escaping: bool)
    requires ValidChunks(cs) && ValidTail(OpenQuote(q, body, escaping))
    requires cs != [] ==> Separate(cs[|cs| - 1], TailText(OpenQuote(q, body, escaping)))
    ensures LastRead(cs, OpenQuote(q, body, escaping))
  {
    hide Run, HasToken, NoCut, Inside, Separate, Shown, Text, ValidChunks, Pairs;
    var t, tail := Text(cs), OpenQuote(q, body, escaping);
    TextReady(cs, TailText(tail));
    OpenReads(t, q, body);
    var u := t + ([q] + body);
    if escaping {
      GrowPiece(u, '\\');
      assert u + ['\\'] == t + TailText(tail);
    } else {
      assert u == t + TailText(tail);
    }
  }

  // ---------------------------------------------------------------- a whole file

  lemma {:induction false} FrontReads(groups: seq<seq<Chunk>>, g: string)
    requires forall i :: 0 <= i < |groups| ==> ValidChunks(groups[i])
    requires NoCut(g)
    ensures Segments(Join(Texts(groups) + [g], ";")) == Texts(groups) + [g]
    ensures Run(Plain, Join(Texts(groups) + [g], ";")) == Run(Plain, g)
  {
    hide Run, Segments, NoCut, ValidChunks, Text, Outside;
    if groups == [] {
      assert Texts(groups) + [g] == [g];
      JoinOne(g);
      NoCutSegments(g);
    } else {
      var n := |groups| - 1;
      var h := Text(groups[n]);
      ChunksRead(groups[n]);
      FrontReads(groups[..n], h);
      var a := Join(Texts(groups[..n]) + [h], ";");
      assert Texts(groups) + [g] == (Texts(groups[..n]) + [h]) + [g];
      JoinSplit(Texts(groups[..n]) + [h], [g]);
      JoinOne(g);
      GroupEndsOutside(groups[n]);
      SegmentsConcat(a, g);
      NoCutSegments(g);
      AfterCut(a, g);
    }
  }

  lemma GroupEndsOutside(cs: seq<Chunk>)
    requires ValidChunks(cs)
    ensures Outside(Run(Plain, Text(cs)))
  {
    hide Run, Text;
    ChunksRead(cs);
  }

  lemma AfterCut(a: string, b: string)
    requires Outside(Run(Plain, a))
    ensures Run(Plain, a + ";" + b) == Run(Plain, b)
  {
    hide Run;
    CutHere(a);
    RunConcat(Plain, a + ";", b);
  }

  lemma {:induction false} KeptReads(groups: seq<seq<Chunk>>)
    requires forall i :: 0 <= i < |groups| ==> ValidChunks(groups[i])
    ensures Statements(Texts(groups)) == Kept(groups)
  {
    hide HasToken, Trim, ValidChunks, Text, Shown;
    if groups != [] {
      var n := |groups| - 1;
      KeptReads(groups[..n]);
      ChunksRead(groups[n]);
      assert Texts(groups)[..n] == Texts(groups[..n]);
    }
  }

  /** The splitter returns what the document means, whatever the document. */
  lemma SplitsByMeaning(d: Document)
    requires Valid(d)
    ensures SplitSpec(FileOf(d)) == Meaning(d)
  {
    hide Run, Segments, Statements, HasToken, Trim, ValidChunks, Text, Shown, NoCut, ValidTail, Separate, Kept, Join;
    var g := Text(d.last) + TailText(d.tail);
    LastReads(d.last, d.tail);
    assert LastRead(d.last, d.tail);
    FrontReads(d.front, g);
    StatementsSnoc(Texts(d.front), g);
    OnePiece(g);
    KeptReads(d.front);
  }

  // ---------------------------------------------------------------- every text is a document

  lemma {:induction false} InsideMore(q: char, body: string, unit: string)
    requires Inside(q, body) && Inside(q, unit)
    ensures Inside(q, body + unit)
    decreases |body|
  {
    if body == "" {
      assert body + unit == unit;
    } else {
      var n := if body[0] == q || (body[0] == '\\' && q != '`') then 2 else 1;
      InsideMore(q, body[n..], unit);
      assert (body + unit)[n..] == body[n..] + unit;
    }
  }

  lemma OneInside(q: char, unit: string)
    requires 1 <= |unit| <= 2
    requires unit[0] == q ==> |unit| == 2 && unit[1] == q
    requires unit[0] == '\\' && q != '`' ==> |unit| == 2
    requires |unit| == 2 ==> unit[0] == q || (unit[0] == '\\' && q != '`')
    ensures Inside(q, unit)
  {
    assert Inside(q, unit[|unit|..]);
  }

  lemma ChunkMore(cs: seq<Chunk>, c: Chunk)
    requires ValidChunks(cs) && ValidChunk(c) && (cs != [] ==> Separate(cs[|cs| - 1], Render(c)))
    ensures ValidChunks(cs + [c]) && Text(cs + [c]) == Text(cs) + Render(c)
  {
    hide Separate, Render, ValidChunk;
    var more := cs + [c];
    assert more[..|cs|] == cs;
    forall i | 0 <= i < |more| - 1 ensures Separate(more[i], Render(more[i + 1])) {
      if i < |cs| - 1 { assert more[i] == cs[i] && more[i + 1] == cs[i + 1]; }
    }
  }

  lemma ChunkLess(cs: seq<Chunk>)
    requires ValidChunks(cs) && cs != []
    ensures var n := |cs| - 1;
            && ValidChunks(cs[..n]) && Text(cs) == Text(cs[..n]) + Render(cs[n])
            && (n > 0 ==> Separate(cs[n - 1], Render(cs[n])))
  {
    FrontValid(cs);
  }

  // The last piece of a text, one character longer.
  lemma GrowLast(cs: seq<Chunk>, tail: Tail, c: char) returns (cs': seq<Chunk>, tail': Tail)
    requires ValidChunks(cs) && ValidTail(tail) && (cs != [] ==> Separate(cs[|cs| - 1], TailText(tail)))
    requires !(tail.Nothing? && c == ';')
    ensures ValidChunks(cs') && ValidTail(tail') && (cs' != [] ==> Separate(cs'[|cs'| - 1], TailText(tail')))
    ensures Text(cs') + TailText(tail') == Text(cs) + TailText(tail) + [c]
  {
    hide Text, ValidChunks, Inside, HasCloser, Separate;
    match tail
    case Nothing => cs', tail' := GrowPlain(cs, c);
    case OpenLine(open, body) => cs', tail' := GrowLine(cs, open, body, c);
    case OpenBlock(body) => cs', tail' := GrowBlock(cs, body, c);
    case OpenQuote(q, body, escaping) => cs', tail' := GrowQuote(cs, q, body, escaping, c);
  }

  lemma GrowPlain(cs: seq<Chunk>, c: char) returns (cs': seq<Chunk>, tail': Tail)
    requires ValidChunks(cs) && c != ';'
    ensures ValidChunks(cs') && ValidTail(tail') && (cs' != [] ==> Separate(cs'[|cs'| - 1], TailText(tail')))
    ensures Text(cs') + TailText(tail') == Text(cs) + [c]
  {
    hide Text, ValidChunks, HasCloser;
    cs', tail' := cs, Nothing;
    if cs != [] && !Separate(cs[|cs| - 1], [c]) {
      var x := cs[|cs| - 1];
      cs' := cs[..|cs| - 1];
      ChunkLess(cs);
      assert ValidChunk(x) by { LastValid(cs); }
      if x == Char('-') {
        tail' := OpenLine("--", "");
      } else if x == Char('/') {
        tail' := OpenBlock("");
        assert !HasCloser("") by { EmptyOpen(); }
      } else {
        tail' := OpenQuote(x.q, x.body + [c, c], false);
        OneInside(c, [c, c]);
        InsideMore(c, x.body, [c, c]);
        assert Render(x) + [c] == TailText(tail');
      }
    } else if c == '#' {
      tail' := OpenLine("#", "");
    } else if IsQuote(c) {
      tail' := OpenQuote(c, "", false);
    } else {
      ChunkMore(cs, Char(c));
      cs' := cs + [Char(c)];
    }
  }

  lemma LastValid(cs: seq<Chunk>)
    requires ValidChunks(cs) && cs != []
    ensures ValidChunk(cs[|cs| - 1])
  {
  }

  lemma EmptyOpen()
    ensures !HasCloser("")
  {
  }

  lemma GrowLine(cs: seq<Chunk>, open: string, body: string, c: char) returns (cs': seq<Chunk>, tail': Tail)
    requires ValidChunks(cs) && ValidTail(OpenLine(open, body)) && (cs != [] ==> Separate(cs[|cs| - 1], open + body))
    ensures ValidChunks(cs') && ValidTail(tail') && (cs' != [] ==> Separate(cs'[|cs'| - 1], TailText(tail')))
    ensures Text(cs') + TailText(tail') == Text(cs) + (open + body) + [c]
  {
    hide Text, ValidChunks;
    cs', tail' := cs, Nothing;
    if c == '\n' {
      ChunkMore(cs, LineComment(open, body));
      cs' := cs + [LineComment(open, body)];
    } else {
      tail' := OpenLine(open, body + [c]);
    }
  }

  lemma CloserStays(a: string, b: string)
    requires !HasCloser(a + b)
    ensures !HasCloser(a)
  {
    forall i | 0 <= i < |a| - 1 ensures !(a[i] == '*' && a[i + 1] == '/') {
      assert (a + b)[i] == a[i] && (a + b)[i + 1] == a[i + 1];
    }
  }

  lemma CloserNew(body: string, c: char)
    requires !HasCloser(body)
    ensures HasCloser(body + [c]) <==> c == '/' && body != "" && body[|body| - 1] == '*'
  {
    var more := body + [c];
    if body != "" { assert more[|body| - 1] == body[|body| - 1] && more[|body|] == c; }
    forall i | 0 <= i < |body| - 1 ensures !(more[i] == '*' && more[i + 1] == '/') {
      assert more[i] == body[i] && more[i + 1] == body[i + 1];
    }
  }

  lemma GrowBlock(cs: seq<Chunk>, body: string, c: char) returns (cs': seq<Chunk>, tail': Tail)
    requires ValidChunks(cs) && !HasCloser(body) && (cs != [] ==> Separate(cs[|cs| - 1], "/*" + body))
    ensures ValidChunks(cs') && ValidTail(tail') && (cs' != [] ==> Separate(cs'[|cs'| - 1], TailText(tail')))
    ensures Text(cs') + TailText(tail') == Text(cs) + ("/*" + body) + [c]
  {
    hide Text, ValidChunks;
    cs', tail' := cs, Nothing;
    var n := |body| - 1;
    hide HasCloser;
    if c == '/' && body != "" && body[n] == '*' {
      var inner := body[..n];
      assert inner + "*" == body;
      CloserStays(inner, "*");
      assert Render(BlockComment(inner)) == "/*" + body + [c];
      ChunkMore(cs, BlockComment(inner));
      cs' := cs + [BlockComment(inner)];
    } else {
      tail' := OpenBlock(body + [c]);
      CloserNew(body, c);
    }
  }

  lemma SameStart(cs: seq<Chunk>, s: string, t: string)
    requires (cs != [] ==> Separate(cs[|cs| - 1], s)) && s != "" && t != "" && t[0] == s[0]
    ensures cs != [] ==> Separate(cs[|cs| - 1], t)
  {
  }

  lemma TailGrows(cs: seq<Chunk>, q: char, body: string, escaping: bool, more: Tail, c: char)
    requires ValidChunks(cs) && more.OpenQuote? && more.q == q
    requires TailText(more) == TailText(OpenQuote(q, body, escaping)) + [c]
    requires cs != [] ==> Separate(cs[|cs| - 1], TailText(OpenQuote(q, body, escaping)))
    ensures cs != [] ==> Separate(cs[|cs| - 1], TailText(more))
    ensures Text(cs) + TailText(more) == Text(cs) + TailText(OpenQuote(q, body, escaping)) + [c]
  {
    hide Text, ValidChunks, Separate;
    SameStart(cs, TailText(OpenQuote(q, body, escaping)), TailText(more));
  }

  lemma GrowQuote(cs: seq<Chunk>, q: char, body: string, escaping: bool, c: char)
    returns (cs': seq<Chunk>, tail': Tail)
    requires ValidChunks(cs) && ValidTail(OpenQuote(q, body, escaping))
    requires cs != [] ==> Separate(cs[|cs| - 1], TailText(OpenQuote(q, body, escaping)))
    ensures ValidChunks(cs') && ValidTail(tail') && (cs' != [] ==> Separate(cs'[|cs'| - 1], TailText(tail')))
    ensures Text(cs') + TailText(tail') == Text(cs) + TailText(OpenQuote(q, body, escaping)) + [c]
  {
    hide Text, ValidChunks, Inside, Separate;
    cs' := cs;
    if escaping {
      OneInside(q, ['\\', c]);
      InsideMore(q, body, ['\\', c]);
      tail' := OpenQuote(q, body + ['\\', c], false);
      assert TailText(tail') == TailText(OpenQuote(q, body, true)) + [c];
      TailGrows(cs, q, body, escaping, tail', c);
    } else if c == '\\' && q != '`' {
      tail' := OpenQuote(q, body, true);
      assert TailText(tail') == TailText(OpenQuote(q, body, false)) + [c];
      TailGrows(cs, q, body, escaping, tail', c);
    } else if c == q {
      tail' := Nothing;
      cs' := CloseQuote(cs, q, body);
    } else {
      OneInside(q, [c]);
      InsideMore(q, body, [c]);
      tail' := OpenQuote(q, body + [c], false);
      assert TailText(tail') == TailText(OpenQuote(q, body, false)) + [c];
      TailGrows(cs, q, body, escaping, tail', c);
    }
  }

  lemma CloseQuote(cs: seq<Chunk>, q: char, body: string) returns (cs': seq<Chunk>)
    requires ValidChunks(cs) && ValidTail(OpenQuote(q, body, false))
    requires cs != [] ==> Separate(cs[|cs| - 1], TailText(OpenQuote(q, body, false)))
    ensures ValidChunks(cs') && cs' != [] && Separate(cs'[|cs'| - 1], "")
    ensures Text(cs') + "" == Text(cs) + TailText(OpenQuote(q, body, false)) + [q]
  {
    hide Text, ValidChunks, Inside;
    var x := Literal(q, body);
    assert Render(x) == TailText(OpenQuote(q, body, false)) + [q];
    SameStart(cs, TailText(OpenQuote(q, body, false)), Render(x));
    ChunkMore(cs, x);
    cs' := cs + [x];
  }

  /** Every text is a document. */
  lemma {:induction false} EveryText(s: string) returns (d: Document)
    ensures Valid(d) && FileOf(d) == s
  {
    hide ValidChunks, Text, Separate, ValidTail, Join;
    if s == "" {
      d := Document([], [], Nothing);
      EmptyDocument();
    } else {
      var n := |s| - 1;
      var e := EveryText(s[..n]);
      assert s == s[..n] + [s[n]];
      var g := Text(e.last) + TailText(e.tail);
      JoinLast(Texts(e.front), g, s[n]);
      if e.tail.Nothing? && s[n] == ';' {
        assert g == Text(e.last);
        d := Document(e.front + [e.last], [], Nothing);
        NewStatement(e);
      } else {
        var cs, tail := GrowLast(e.last, e.tail, s[n]);
        d := Document(e.front, cs, tail);
      }
    }
  }

  lemma EmptyDocument()
    ensures Valid(Document([], [], Nothing)) && FileOf(Document([], [], Nothing)) == ""
  {
    EmptyIsValid();
    assert Texts([]) + [""] == [""];
    JoinOne("");
  }

  lemma JoinLast(ts: seq<string>, g: string, c: char)
    ensures Join(ts + [g + [c]], ";") == Join(ts + [g], ";") + [c]
  {
    if ts == [] {
      assert ts + [g] == [g] && ts + [g + [c]] == [g + [c]];
    } else {
      assert (ts + [g])[..|ts|] == ts && (ts + [g + [c]])[..|ts|] == ts;
    }
  }

  lemma NewStatement(e: Document)
    requires Valid(e) && e.tail.Nothing?
    ensures var d := Document(e.front + [e.last], [], Nothing); Valid(d) && FileOf(d) == FileOf(e) + ";"
  {
    hide ValidChunks, Separate, ValidTail;
    var d := Document(e.front + [e.last], [], Nothing);
    EmptyIsValid();
    assert d.front[..|e.front|] == e.front;
    var ts := Texts(e.front) + [Text(e.last)];
    assert Text(e.last) + "" == Text(e.last) && Texts(d.front) == ts;
    assert (ts + [""])[..|ts|] == ts;
  }

  lemma EmptyIsValid()
    ensures ValidChunks([]) && Text([]) + "" == ""
  {
  }

  /** So the grammar decides every input: each text is a document, and splits into what it means. */
  lemma GrammarDecides(s: string)
    ensures exists d :: Valid(d) && FileOf(d) == s && SplitSpec(s) == Meaning(d)
  {
    hide Valid, FileOf, Meaning, SplitSpec;
    var d := EveryText(s);
    SplitsByMeaning(d);
  }

  // ---------------------------------------------------------------- what that means for values

  /** Plain statement text, character by character. */
  function Chars(s: string): (cs: seq<Chunk>)
    ensures |cs| == |s| && forall i :: 0 <= i < |s| ==> cs[i] == Char(s[i])
  {
    if s == "" then [] else Chars(s[..|s| - 1]) + [Char(s[|s| - 1])]
  }

  /** `v` with its quotes and backslashes escaped by a backslash. */
  function Escape(v: string, q: char): string {
    if v == "" then ""
    else (if v[0] == q || v[0] == '\\' then ['\\', v[0]] else [v[0]]) + Escape(v[1..], q)
  }

  /** `v` with its quotes doubled, and its backslashes too where a backslash escapes. */
  function DoubleUp(v: string, q: char): string {
    if v == "" then ""
    else (if v[0] == q || (v[0] == '\\' && q != '`') then [v[0], v[0]] else [v[0]]) + DoubleUp(v[1..], q)
  }

  lemma {:induction false} EscapeInside(v: string, q: char)
    requires q != '`' && q != '\\'
    ensures Inside(q, Escape(v, q))
  {
    if v != "" {
      EscapeInside(v[1..], q);
      var unit := if v[0] == q || v[0] == '\\' then ['\\', v[0]] else [v[0]];
      OneInside(q, unit);
      InsideMore(q, unit, Escape(v[1..], q));
    }
  }

  lemma {:induction false} DoubleInside(v: string, q: char)
    requires q != '\\'
    ensures Inside(q, DoubleUp(v, q))
  {
    if v != "" {
      DoubleInside(v[1..], q);
      var unit := if v[0] == q || (v[0] == '\\' && q != '`') then [v[0], v[0]] else [v[0]];
      OneInside(q, unit);
      InsideMore(q, unit, DoubleUp(v[1..], q));
    }
  }

  /** Text without semicolons, quotes and comment openers. */
  predicate PlainText(s: string) {
    && (forall i :: 0 <= i < |s| ==> s[i] != ';' && s[i] != '#' && !IsQuote(s[i]))
    && (forall i :: 0 <= i < |s| - 1 ==> !(s[i] == '-' && s[i + 1] == '-') && !(s[i] == '/' && s[i + 1] == '*'))
  }

  lemma {:induction false} CharsText(s: string)
    requires PlainText(s)
    ensures ValidChunks(Chars(s)) && Text(Chars(s)) == s
  {
    hide ValidChunks, Text, PlainText;
    if s == "" {
      EmptyIsValid();
      assert Text([]) + "" == Text([]);
    } else {
      var n := |s| - 1;
      PlainFront(s);
      CharsText(s[..n]);
      assert s == s[..n] + [s[n]];
      ChunkMore(Chars(s[..n]), Char(s[n]));
    }
  }

  lemma PlainFront(s: string)
    requires PlainText(s) && s != ""
    ensures var n := |s| - 1;
            && PlainText(s[..n]) && ValidChunk(Char(s[n]))
            && (n > 0 ==> Separate(Char(s[..n][n - 1]), Render(Char(s[n]))))
  {
  }

  lemma {:induction false} TextConcat(a: seq<Chunk>, b: seq<Chunk>)
    requires ValidChunks(a) && ValidChunks(b)
    requires a != [] && b != [] ==> Separate(a[|a| - 1], Render(b[0]))
    ensures ValidChunks(a + b) && Text(a + b) == Text(a) + Text(b)
  {
    hide Render, Separate, ValidChunk, Text;
    if b == [] {
      assert a + b == a;
      EmptyIsValid();
      assert Text(b) == "";
    } else {
      var n := |b| - 1;
      ChunkLess(b);
      TextConcat(a, b[..n]);
      assert a + b == (a + b[..n]) + [b[n]];
      assert (a + b[..n]) != [] && n == 0 ==> (a + b[..n])[|a| - 1] == a[|a| - 1];
      ChunkMore(a + b[..n], b[n]);
    }
  }

  lemma LonePiece(cs: seq<Chunk>, tail: Tail)
    requires Valid(Document([], cs, tail))
    ensures FileOf(Document([], cs, tail)) == Text(cs) + TailText(tail)
  {
    hide ValidChunks, Text, ValidTail, Separate, TailText;
    var g := Text(cs) + TailText(tail);
    assert Texts([]) + [g] == [g];
    JoinOne(g);
  }

  /** A file of one or two pieces that show something: the second follows a semicolon. */
  lemma OneShown(cs: seq<Chunk>)
    requires ValidChunks(cs) && Shown(cs) && Trimmed(Text(cs))
    ensures SplitSpec(Text(cs)) == Success([Text(cs)])
  {
    hide ValidChunks, Text, Shown, Separate, FileOf;
    assert Text(cs) + "" == Text(cs);
    LastJoins(cs);
    LonePiece(cs, Nothing);
    SplitsByMeaning(Document([], cs, Nothing));
    TrimOf("", Text(cs), "");
    assert "" + Text(cs) + "" == Text(cs);
    assert Kept([]) + [Trim(Text(cs))] == [Text(cs)];
  }

  lemma LastJoins(cs: seq<Chunk>)
    requires ValidChunks(cs)
    ensures Valid(Document([], cs, Nothing))
  {
  }

  lemma TwoPieces(cs: seq<Chunk>, ds: seq<Chunk>)
    requires ValidChunks(cs) && ValidChunks(ds)
    ensures Valid(Document([cs], ds, Nothing))
    ensures FileOf(Document([cs], ds, Nothing)) == Text(cs) + ";" + Text(ds)
  {
    hide ValidChunks, Text, Separate;
    LastJoins(ds);
    assert [cs][..0] == [];
    assert Texts([cs]) == [Text(cs)] && Text(ds) + "" == Text(ds);
    JoinSplit([Text(cs)], [Text(ds)]);
    JoinOne(Text(cs));
    JoinOne(Text(ds));
  }

  lemma KeptOne(cs: seq<Chunk>)
    requires ValidChunks(cs) && Shown(cs) && Trimmed(Text(cs))
    ensures Kept([cs]) == [Text(cs)] && Trim(Text(cs)) == Text(cs)
  {
    hide ValidChunks, Text, Shown;
    assert [cs][..0] == [];
    TrimOf("", Text(cs), "");
    assert "" + Text(cs) + "" == Text(cs);
  }

  lemma TwoShown(cs: seq<Chunk>, ds: seq<Chunk>)
    requires ValidChunks(cs) && Shown(cs) && Trimmed(Text(cs))
    requires ValidChunks(ds) && Shown(ds) && Trimmed(Text(ds))
    ensures SplitSpec(Text(cs) + ";" + Text(ds)) == Success([Text(cs), Text(ds)])
  {
    hide ValidChunks, Text, Shown, Valid, FileOf, SplitSpec, Kept, Trim, Trimmed;
    TwoPieces(cs, ds);
    SplitsByMeaning(Document([cs], ds, Nothing));
    KeptOne(cs);
    KeptOne(ds);
    assert Text(ds) + "" == Text(ds);
    assert [Text(cs)] + [Text(ds)] == [Text(cs), Text(ds)];
  }

  /** Plain text and a quoted value, whatever the value holds, are one statement. */
  lemma QuotedIsOneStatement(p: string, q: char, body: string)
    requires PlainText(p) && (p != "" ==> !Space(p[0])) && IsQuote(q) && Inside(q, body)
    ensures SplitSpec(p + [q] + body + [q]) == Success([p + [q] + body + [q]])
  {
    hide ValidChunks, Text, Inside, PlainText;
    var cs := Chars(p) + [Literal(q, body)];
    CharsText(p);
    ChunkMore(Chars(p), Literal(q, body));
    assert Text(cs) == p + [q] + body + [q];
    assert Shows(cs[|p|]);
    assert Text(cs)[0] == if p == "" then q else p[0];
    OneShown(cs);
  }

  /** So for every value: escaped by backslashes, in single or double quotes. */
  lemma EscapedValue(p: string, v: string, q: char)
    requires PlainText(p) && (p != "" ==> !Space(p[0])) && (q == '\'' || q == '"')
    ensures SplitSpec(p + [q] + Escape(v, q) + [q]) == Success([p + [q] + Escape(v, q) + [q]])
  {
    hide *;
    EscapeInside(v, q);
    assert IsQuote(q) by { QuotesAre(q); }
    QuotedIsOneStatement(p, q, Escape(v, q));
  }

  lemma QuotesAre(q: char)
    requires q == '\'' || q == '"' || q == '`'
    ensures IsQuote(q)
  {
  }

  /** And with its quotes doubled, in any of the three; between backticks a backslash is a character
      like any other. */
  lemma DoubledValue(p: string, v: string, q: char)
    requires PlainText(p) && (p != "" ==> !Space(p[0])) && (q == '\'' || q == '"' || q == '`')
    ensures SplitSpec(p + [q] + DoubleUp(v, q) + [q]) == Success([p + [q] + DoubleUp(v, q) + [q]])
  {
    hide *;
    DoubleInside(v, q);
    assert IsQuote(q) by { QuotesAre(q); }
    QuotedIsOneStatement(p, q, DoubleUp(v, q));
  }

  /** A quote that is not closed is an error, whatever was quoted. */
  lemma OpenValue(p: string, v: string, q: char)
    requires PlainText(p) && (q == '\'' || q == '"' || q == '`')
    ensures SplitSpec(p + [q] + DoubleUp(v, q)) == Failure(UnterminatedQuote)
  {
    hide ValidChunks, Text, Inside, PlainText, Separate, FileOf, DoubleUp;
    var tail := OpenQuote(q, DoubleUp(v, q), false);
    CharsText(p);
    DoubleInside(v, q);
    OpenerSeparate(Chars(p), TailText(tail));
    LonePiece(Chars(p), tail);
    SplitsByMeaning(Document([], Chars(p), tail));
    assert p + TailText(tail) == p + [q] + DoubleUp(v, q);
  }

  lemma OpenerSeparate(cs: seq<Chunk>, s: string)
    requires (cs != [] ==> cs[|cs| - 1].Char?) && (s != "" ==> IsQuote(s[0]) || s[0] == '/')
    ensures cs != [] ==> Separate(cs[|cs| - 1], s)
  {
  }

  /** What a comment holds - semicolons, quotes, anything but its own end - is passed over: it neither
      ends the statement around it nor opens a quote. */
  lemma CommentIsPassedOver(p: string, c: Chunk, r: string, t: string)
    requires PlainText(p) && PlainText(r) && PlainText(t) && Trimmed(p) && Trimmed(t) && Trimmed(r)
    requires p[|p| - 1] != '-' && ValidChunk(c) && (c.LineComment? || c.BlockComment?)
    ensures SplitSpec(p + Render(c) + r + ";" + t) == Success([p + Render(c) + r, t])
  {
    hide ValidChunks, Text, PlainText, HasCloser;
    var cs := Chars(p) + [c];
    CharsText(p);
    CharsText(r);
    CharsText(t);
    ChunkMore(Chars(p), c);
    TextConcat(cs, Chars(r));
    ShowsIn(cs + Chars(r), p, 0);
    ShowsIn(Chars(t), t, 0);
    EndsTrimmed(p, Render(c), r);
    TwoShown(cs + Chars(r), Chars(t));
  }

  lemma ShowsIn(cs: seq<Chunk>, s: string, i: nat)
    requires i < |s| && !Space(s[i]) && i < |cs| && cs[i] == Char(s[i])
    ensures Shown(cs)
  {
    assert Shows(cs[i]);
  }

  lemma EndsTrimmed(p: string, c: string, r: string)
    requires Trimmed(p) && Trimmed(r)
    ensures Trimmed(p + c + r) && !Space(p[0])
  {
    assert (p + c + r)[0] == p[0] && (p + c + r)[|p + c + r| - 1] == r[|r| - 1];
  }

  /** A block comment that is not closed is an error. */
  lemma OpenComment(p: string, body: string)
    requires PlainText(p) && !HasCloser(body)
    ensures SplitSpec(p + "/*" + body) == Failure(UnterminatedBlockComment)
  {
    hide ValidChunks, Text, PlainText, Separate, FileOf, HasCloser;
    CharsText(p);
    OpenerSeparate(Chars(p), "/*" + body);
    LonePiece(Chars(p), OpenBlock(body));
    SplitsByMeaning(Document([], Chars(p), OpenBlock(body)));
    assert p + ("/*" + body) == p + "/*" + body;
  }

  // ---------------------------------------------------------------- white space

  /** The code points that trimming removes. */
  const WHITE_SPACE := {
    0x9, 0xA, 0xB, 0xC, 0xD, 0x20, 0x85, 0xA0, 0x1680, 0x2000, 0x2001, 0x2002, 0x2003, 0x2004, 0x2005, 0x2006, 0x2007,
    0x2008, 0x2009, 0x200A, 0x2028, 0x2029, 0x202F, 0x205F, 0x3000}

  predicate White(c: char) { c as int in WHITE_SPACE }

  lemma SpaceIsWhite(c: char)
    ensures Space(c) <==> White(c)
  {
  }

  /** Trimming takes the white space from both ends and nothing else. */
  lemma TrimIs(left: string, t: string, right: string)
    requires forall c :: c in left || c in right ==> White(c)
    requires t != "" ==> !White(t[0]) && !White(t[|t| - 1])
    ensures Trim(left + t + right) == t
  {
    hide White, Space;
    forall c ensures Space(c) <==> White(c) { SpaceIsWhite(c); }
    if t != "" {
      TrimOf(left, t, right);
    } else {
      assert left + t + right == left + right && right + "" == right && left + right + "" == left + right;
      TrimSkipsLeft(left + right, "");
    }
  }
}
