/** The migration splitter: cuts a MySQL migration file into statements.
  *
  * The source walks the text once, skipping over two-character openers and closers.  The
  * reference definition here reads one character at a time and never looks ahead; the method
  * is proved to compute the same thing, and the splitting laws are proved of the reference.
  */
module Splitter {
  import opened Wrappers

  datatype Quote = Single | Double | Backtick

  // Dash, Slash, BlockStar and Closing are the modes after a character whose meaning depends
  // on the next one: `-` of `--`, `/` of `/*`, `*` of `*/`, and a quote that may be doubled.
  datatype Mode =
    | Plain | Dash | Slash
    | Line
    | Block | BlockStar
    | Quoted(q: Quote) | Escaped(q: Quote) | Closing(q: Quote)

  datatype SplitError = UnterminatedBlockComment | UnterminatedQuote | NoStatements

  function QuoteChar(q: Quote): char {
    match q case Single => '\'' case Double => '"' case Backtick => '`'
  }

  predicate Outside(m: Mode) { m.Plain? || m.Dash? || m.Slash? || m.Closing? }

  function FromOutside(c: char): Mode {
    if c == '#' then Line
    else if c == '-' then Dash
    else if c == '/' then Slash
    else if c == '\'' then Quoted(Single)
    else if c == '"' then Quoted(Double)
    else if c == '`' then Quoted(Backtick)
    else Plain
  }

  function Next(m: Mode, c: char): Mode {
    match m
    case Plain => FromOutside(c)
    case Dash => if c == '-' then Line else FromOutside(c)
    case Slash => if c == '*' then Block else FromOutside(c)
    case Line => if c == '\n' then Plain else Line
    case Block => if c == '*' then BlockStar else Block
    case BlockStar => if c == '/' then Plain else if c == '*' then BlockStar else Block
    case Quoted(q) =>
      if c == '\\' && q != Backtick then Escaped(q) else if c == QuoteChar(q) then Closing(q) else Quoted(q)
    case Escaped(q) => Quoted(q)
    case Closing(q) => if c == QuoteChar(q) then Quoted(q) else FromOutside(c)
  }

  /** The mode after reading all of `s`, starting in mode `m`. */
  function Run(m: Mode, s: string): Mode {
    if s == "" then m else Next(Run(m, s[..|s| - 1]), s[|s| - 1])
  }

  /** The semicolon at `k` ends a statement: it is outside quotes and comments. */
  predicate Cut(s: string, k: nat) requires k < |s| {
    s[k] == ';' && Outside(Run(Plain, s[..k]))
  }

  /** The pieces of `s` between its cuts, with the cutting semicolons removed. */
  function Segments(s: string): (gs: seq<string>)
    ensures |gs| > 0
  {
    if s == "" then [""]
    else
      var n := |s| - 1;
      var gs := Segments(s[..n]);
      if Cut(s, n) then gs + [""] else gs[..|gs| - 1] + [gs[|gs| - 1] + [s[n]]]
  }

  predicate Blank(c: char) { c == ' ' || c == '\t' || c == '\r' || c == '\n' }

  /** Unicode White_Space, the set that the source's trimming removes. */
  predicate Space(c: char) {
    var v := c as int;
    9 <= v <= 13 || v == 32 || v == 0x85 || v == 0xA0 || v == 0x1680 || 0x2000 <= v <= 0x200A
    || v == 0x2028 || v == 0x2029 || v == 0x202F || v == 0x205F || v == 0x3000
  }

  /** Characters `c`, `d` in a row outside quotes and comments open a two-character comment. */
  predicate Opens(c: char, d: char) { (c == '-' && d == '-') || (c == '/' && d == '*') }

  // `c` is read together with the character before it.
  predicate Pairs(m: Mode, c: char) {
    (m.Dash? && c == '-') || (m.Slash? && c == '*') || (m.Closing? && c == QuoteChar(m.q))
  }

  /** The character at `i` is statement text: not in a comment, not part of a comment opener,
      not inside a quoted value (its opening quote counts) and not one of the four blanks. */
  predicate Visible(g: string, i: nat) requires i < |g| {
    var m := Run(Plain, g[..i]);
    && Outside(m)
    && !Blank(g[i]) && g[i] != '#'
    && !Pairs(m, g[i])
    && !(i + 1 < |g| && Opens(g[i], g[i + 1]))
  }

  predicate HasToken(g: string) { exists i: nat :: i < |g| && Visible(g, i) }

  function TrimLeft(s: string): string {
    if s != "" && Space(s[0]) then TrimLeft(s[1..]) else s
  }

  function TrimRight(s: string): string {
    if s != "" && Space(s[|s| - 1]) then TrimRight(s[..|s| - 1]) else s
  }

  function Trim(s: string): string { TrimRight(TrimLeft(s)) }

  function Statements(gs: seq<string>): seq<string> {
    if gs == [] then []
    else
      var g := gs[|gs| - 1];
      Statements(gs[..|gs| - 1]) + if HasToken(g) then [Trim(g)] else []
  }

  function SplitSpec(s: string): Result<seq<string>, SplitError> {
    var m := Run(Plain, s);
    if m.Block? || m.BlockStar? then Failure(UnterminatedBlockComment)
    else if m.Quoted? || m.Escaped? then Failure(UnterminatedQuote)
    else
      var statements := Statements(Segments(s));
      if statements == [] then Failure(NoStatements) else Success(statements)
  }

  // ---------------------------------------------------------------- the source's loop

  datatype State = InPlain | InQuote(q: Quote) | InLine | InBlock

  // The loop state at `index` says what the reference mode is, given that the two-character
  // sequence it just passed was consumed whole.
  ghost predicate Agrees(st: State, escaped: bool, m: Mode, s: string, index: nat) requires index <= |s| {
    var more := index < |s|;
    match st
    case InPlain => !escaped && Outside(m) && (more ==> !Pairs(m, s[index]))
    case InQuote(q) => m == if escaped then Escaped(q) else Quoted(q)
    case InLine => !escaped && m == Line
    case InBlock => !escaped && (m == Block || (m == BlockStar && (more ==> s[index] != '/')))
  }

  lemma ExtendRun(s: string, k: nat)
    requires k < |s|
    ensures Run(Plain, s[..k + 1]) == Next(Run(Plain, s[..k]), s[k])
  {
    assert s[..k + 1][..k] == s[..k];
  }

  lemma ExtendSegments(s: string, k: nat)
    requires k < |s|
    ensures Segments(s[..k + 1]) ==
            var gs := Segments(s[..k]);
            if Cut(s, k) then gs + [""] else gs[..|gs| - 1] + [gs[|gs| - 1] + [s[k]]]
  {
    assert s[..k + 1][..k] == s[..k];
  }

  lemma VisiblePrefix(g: string, h: string, i: nat)
    requires i < |g|
    requires i + 1 == |g| && h != "" ==> !Pairs(Run(Plain, g), h[0])
    ensures Visible(g + h, i) == Visible(g, i)
  {
    assert (g + h)[..i] == g[..i];
  }

  lemma TokenPrefix(g: string, h: string)
    requires HasToken(g)
    requires h != "" ==> !Pairs(Run(Plain, g), h[0])
    ensures HasToken(g + h)
  {
    var i: nat :| i < |g| && Visible(g, i);
    VisiblePrefix(g, h, i);
  }

  // Appending one character that does not complete a comment opener.
  lemma TokenSnoc(g: string, c: char)
    requires !Pairs(Run(Plain, g), c)
    ensures HasToken(g + [c]) <==> HasToken(g) || Visible(g + [c], |g|)
  {
    var gc := g + [c];
    if HasToken(g) { TokenPrefix(g, [c]); }
    if HasToken(gc) && !Visible(gc, |g|) {
      var i: nat :| i < |gc| && Visible(gc, i);
      VisiblePrefix(g, [c], i);
    }
  }

  // Appending a comment opener or a doubled quote adds no token.
  lemma TokenPair(g: string, c: char, d: char)
    requires !Pairs(Run(Plain, g), c) && Pairs(Next(Run(Plain, g), c), d)
    ensures HasToken(g + [c, d]) <==> HasToken(g)
  {
    hide Run;
    var h := g + [c, d];
    assert h[..|g|] == g && h[..|g| + 1] == g + [c];
    ExtendRun(h, |g|);
    assert !Visible(h, |g|) && !Visible(h, |g| + 1);
    if HasToken(g) { TokenPrefix(g, [c, d]); }
    if HasToken(h) {
      var i: nat :| i < |h| && Visible(h, i);
      VisiblePrefix(g, [c, d], i);
    }
  }

  // What the loop knows at `index`: `cuts` are the finished pieces.
  ghost predicate LoopInv(s: string, st: State, escaped: bool, hasToken: bool, start: nat, index: nat,
                          cuts: seq<string>) {
    && start <= index <= |s|
    && Run(Plain, s[..index]) == Run(Plain, s[start..index])
    && Agrees(st, escaped, Run(Plain, s[start..index]), s, index)
    && Segments(s[..index]) == cuts + [s[start..index]]
    && hasToken == HasToken(s[start..index])
  }

  lemma SliceRun(s: string, start: nat, index: nat)
    requires start <= index < |s|
    ensures Run(Plain, s[start..index + 1]) == Next(Run(Plain, s[start..index]), s[index])
  {
    assert s[start..index + 1][..index - start] == s[start..index];
  }

  lemma SliceSegments(s: string, start: nat, index: nat, cuts: seq<string>)
    requires start <= index < |s|
    requires Run(Plain, s[..index]) == Run(Plain, s[start..index])
    requires Segments(s[..index]) == cuts + [s[start..index]]
    ensures Segments(s[..index + 1]) ==
            if s[index] == ';' && Outside(Run(Plain, s[start..index]))
            then cuts + [s[start..index]] + [s[index + 1..index + 1]]
            else cuts + [s[start..index + 1]]
  {
    var gs := Segments(s[..index]);
    ExtendSegments(s, index);
    assert gs[..|gs| - 1] == cuts && gs[|gs| - 1] == s[start..index];
    assert s[index + 1..index + 1] == "";
    assert s[start..index + 1] == s[start..index] + [s[index]];
  }

  lemma SliceToken(s: string, start: nat, index: nat)
    requires start <= index < |s|
    requires !Pairs(Run(Plain, s[start..index]), s[index])
    ensures HasToken(s[start..index + 1]) <==>
            HasToken(s[start..index])
            || (Outside(Run(Plain, s[start..index])) && !Blank(s[index]) && s[index] != '#')
  {
    var g := s[start..index];
    assert s[start..index + 1] == g + [s[index]] && (g + [s[index]])[..|g|] == g;
    TokenSnoc(g, s[index]);
  }

  lemma EmptyPiece()
    ensures Run(Plain, "") == Plain && Segments("") == [""] && !HasToken("") && Statements([]) == []
  {
  }

  // One character read on its own: what becomes of the modes, the pieces and the token flag.
  lemma StepOne(s: string, start: nat, index: nat, cuts: seq<string>)
    requires start <= index < |s|
    requires Run(Plain, s[..index]) == Run(Plain, s[start..index])
    requires Segments(s[..index]) == cuts + [s[start..index]]
    requires !Pairs(Run(Plain, s[start..index]), s[index])
    ensures var m := Run(Plain, s[start..index]);
            && Run(Plain, s[..index + 1]) == Next(m, s[index]) == Run(Plain, s[start..index + 1])
            && Segments(s[..index + 1]) ==
               (if s[index] == ';' && Outside(m) then cuts + [s[start..index]] + [s[index + 1..index + 1]]
                else cuts + [s[start..index + 1]])
            && (HasToken(s[start..index + 1]) <==>
                HasToken(s[start..index]) || (Outside(m) && !Blank(s[index]) && s[index] != '#'))
  {
    ExtendRun(s, index);
    SliceRun(s, start, index);
    SliceSegments(s, start, index, cuts);
    SliceToken(s, start, index);
  }

  // Two characters read together.
  lemma StepPair(s: string, start: nat, index: nat, cuts: seq<string>)
    requires start <= index && index + 1 < |s|
    requires Run(Plain, s[..index]) == Run(Plain, s[start..index])
    requires Segments(s[..index]) == cuts + [s[start..index]]
    requires !Pairs(Run(Plain, s[start..index]), s[index])
    requires Pairs(Next(Run(Plain, s[start..index]), s[index]), s[index + 1])
    ensures var m := Next(Next(Run(Plain, s[start..index]), s[index]), s[index + 1]);
            && Run(Plain, s[..index + 2]) == m == Run(Plain, s[start..index + 2])
            && Segments(s[..index + 2]) == cuts + [s[start..index + 2]]
            && (HasToken(s[start..index + 2]) <==> HasToken(s[start..index]))
  {
    hide Run, Segments, HasToken;
    ExtendRun(s, index);
    ExtendRun(s, index + 1);
    SliceRun(s, start, index);
    SliceRun(s, start, index + 1);
    SliceSegments(s, start, index, cuts);
    SliceSegments(s, start, index + 1, cuts);
    assert s[start..index + 2] == s[start..index] + [s[index], s[index + 1]];
    TokenPair(s[start..index], s[index], s[index + 1]);
  }

  method SplitStatements(contents: string) returns (r: Result<seq<string>, SplitError>)
    ensures r == SplitSpec(contents)
  {
    hide Run, Segments, HasToken, Statements;
    var state, escaped, hasToken, start := InPlain, false, false, 0;
    var statements: seq<string> := [];
    ghost var cuts: seq<string> := [];
    var index := 0;
    assert contents[..0] == contents[0..0] == "";
    EmptyPiece();
    while index < |contents|
      invariant LoopInv(contents, state, escaped, hasToken, start, index, cuts)
      invariant statements == Statements(cuts)
    {
      var current := contents[index];
      var next := if index + 1 < |contents| then contents[index + 1] else '\0';
      ghost var m := Run(Plain, contents[start..index]);
      ghost var pair := index + 1 < |contents| && Pairs(Next(m, current), next);
      StepOne(contents, start, index, cuts);
      if pair { StepPair(contents, start, index, cuts); }
      if state == InLine {
        if current == '\n' { state := InPlain; }
        index := index + 1;
      } else if state == InBlock {
        if current == '*' && next == '/' {
          StepOne(contents, start, index + 1, cuts);
          index := index + 1;
          state := InPlain;
        }
        index := index + 1;
      } else if state.InQuote? {
        var quote := QuoteChar(state.q);
        if escaped {
          escaped := false;
        } else if current == '\\' && state.q != Backtick {
          escaped := true;
        } else if current == quote {
          if next == quote { index := index + 1; } else { state := InPlain; }
        }
        index := index + 1;
      } else if current == '#' {
        state := InLine;
        index := index + 1;
      } else if current == '-' && next == '-' {
        state := InLine;
        index := index + 2;
      } else if current == '/' && next == '*' {
        state := InBlock;
        index := index + 2;
      } else {
        if current == '\'' {
          state, hasToken := InQuote(Single), true;
        } else if current == '"' {
          state, hasToken := InQuote(Double), true;
        } else if current == '`' {
          state, hasToken := InQuote(Backtick), true;
        } else if current == ';' {
          statements := AppendStatement(contents, start, index, hasToken, statements);
          StatementsSnoc(cuts, contents[start..index]);
          cuts := cuts + [contents[start..index]];
          hasToken := false;
          start := index + 1;
          assert contents[start..start] == "";
        } else if current != ' ' && current != '\t' && current != '\r' && current != '\n' {
          hasToken := true;
        }
        index := index + 1;
      }
    }
    assert contents[..index] == contents;
    if state == InBlock { return Failure(UnterminatedBlockComment); }
    if state.InQuote? || escaped { return Failure(UnterminatedQuote); }
    statements := AppendStatement(contents, start, index, hasToken, statements);
    StatementsSnoc(cuts, contents[start..index]);
    if |statements| == 0 { return Failure(NoStatements); }
    return Success(statements);
  }

  // The source's closure: keep the piece that ends at `end` if it holds a token.
  method AppendStatement(contents: string, start: nat, end: nat, hasToken: bool, statements: seq<string>)
    returns (r: seq<string>)
    requires start <= end <= |contents| && hasToken == HasToken(contents[start..end])
    ensures r == statements + Statements([contents[start..end]])
  {
    assert [contents[start..end]][..0] == [];
    r := if hasToken then statements + [Trim(contents[start..end])] else statements;
  }

  lemma StatementsSnoc(gs: seq<string>, g: string)
    ensures Statements(gs + [g]) == Statements(gs) + Statements([g])
  {
    assert (gs + [g])[..|gs|] == gs && [g][..0] == [];
  }
}
