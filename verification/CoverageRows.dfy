/** Rows of a Go coverage profile: `path:line.col,line.col statements count`. */
module CoverageRows {
  import opened Kube
  import opened Text

  datatype Position = Position(line: nat, column: nat)
  datatype Block = Block(path: string, start: Position, end: Position, statements: nat, executed: bool)

  const MAX_INT := 0x7FFF_FFFF_FFFF_FFFF   // strconv.Atoi
  const WORD := 0x1_0000_0000_0000_0000    // strconv.ParseUint with 64 bits

  /** Strictly earlier in the file. */
  ghost predicate Precedes(a: Position, b: Position) {
    if a.line == b.line then a.column < b.column else a.line < b.line
  }

  predicate AtOrBefore(a: Position, b: Position)
    ensures AtOrBefore(a, b) <==> !Precedes(b, a)
  {
    a.line < b.line || (a.line == b.line && a.column <= b.column)
  }

  // ---------- Numbers ----------

  function Value(s: string): nat
    requires Digits(s)
  {
    var low := s[|s| - 1] as int - '0' as int;
    if |s| == 1 then low else Value(s[..|s| - 1]) * 10 + low
  }

  lemma ValueOfDecimal(n: nat)
    ensures Value(Decimal(n)) == n
  {
    if n >= 10 {
      var s := Decimal(n);
      assert s[..|s| - 1] == Decimal(n / 10);
    }
  }

  // ---------- Splitting ----------

  /** The text before and after the first separator. */
  function Cut(s: string, sep: char): Option<(string, string)> {
    if sep in s then Some((s[..IndexOf(s, sep)], s[IndexOf(s, sep) + 1..])) else None
  }

  lemma CutJoined(a: string, x: string, sep: char)
    requires sep !in a
    ensures Cut(a + [sep] + x, sep) == Some((a, x))
  {
    var s := a + [sep] + x;
    FirstSeparator(a, x, sep);
    assert s[|a|] == sep && s[..|a|] == a && s[|a| + 1..] == x;
  }

  function LastIndexOf(s: string, ch: char): (i: nat)
    requires ch in s
    ensures i < |s| && s[i] == ch && ch !in s[i + 1..]
  {
    if s[|s| - 1] == ch then |s| - 1
    else
      assert s == s[..|s| - 1] + [s[|s| - 1]];
      LastIndexOf(s[..|s| - 1], ch)
  }

  lemma {:induction false} LastSeparator(a: string, x: string, sep: char)
    requires sep !in x
    ensures LastIndexOf(a + [sep] + x, sep) == |a|
    decreases |x|
  {
    var s := a + [sep] + x;
    assert s[|a|] == sep;
    if x == "" {
      assert s[|s| - 1] == sep;
    } else {
      LastSeparator(a, x[..|x| - 1], sep);
      assert s[|s| - 1] == x[|x| - 1];
      assert s[..|s| - 1] == a + [sep] + x[..|x| - 1];
    }
  }

  // ---------- Parsing ----------

  /** parsePosition on `line.column`: both fit an int and are at least one. */
  function ParsePosition(s: string): Option<Position> {
    match Cut(s, '.')
    case None => None
    case Some((line, column)) =>
      if Digits(line) && Digits(column) && 1 <= Value(line) <= MAX_INT && 1 <= Value(column) <= MAX_INT
      then Some(Position(Value(line), Value(column))) else None
  }

  function ParseCount(s: string): Option<nat> {
    if Digits(s) && Value(s) < WORD then Some(Value(s)) else None
  }

  /** The part after the path; it holds no colon, so the path ends at the last one. */
  function ParseTail(path: string, tail: string): Option<Block> {
    match Cut(tail, ',')
    case None => None
    case Some((start, rest)) =>
      match Cut(rest, ' ')
      case None => None
      case Some((end, counts)) =>
        match Cut(counts, ' ')
        case None => None
        case Some((statements, executions)) =>
          Assemble(path, ParsePosition(start), ParsePosition(end), ParseCount(statements), ParseCount(executions))
  }

  function Assemble(path: string, start: Option<Position>, end: Option<Position>, statements: Option<nat>,
                    executions: Option<nat>): Option<Block> {
    if start.Some? && end.Some? && statements.Some? && executions.Some? && AtOrBefore(start.value, end.value)
    then Some(Block(path, start.value, end.value, statements.value, executions.value > 0)) else None
  }

  function ParseBlock(line: string): Option<Block> {
    if ':' !in line then None
    else
      var i := LastIndexOf(line, ':');
      if i == 0 || '\n' in line[..i] then None else ParseTail(line[..i], line[i + 1..])
  }

  // ---------- Printing ----------

  function ShowPosition(p: Position): string { Decimal(p.line) + "." + Decimal(p.column) }

  function ShowRange(b: Block): string { ShowPosition(b.start) + "," + ShowPosition(b.end) }

  /** blockKey. */
  function BlockKey(b: Block): string { b.path + ":" + ShowRange(b) }

  function ShowRow(b: Block, executions: nat): string {
    BlockKey(b) + " " + Decimal(b.statements) + " " + Decimal(executions)
  }

  /** A block as the parser can return it. */
  ghost predicate ValidBlock(b: Block) {
    && b.path != "" && '\n' !in b.path && b.statements < WORD && !Precedes(b.end, b.start)
    && 1 <= b.start.line <= MAX_INT && 1 <= b.start.column <= MAX_INT && 1 <= b.end.line <= MAX_INT
    && 1 <= b.end.column <= MAX_INT
  }

  lemma NoSeparator(n: nat)
    ensures forall ch :: ch in {'.', ',', ' ', ':'} ==> ch !in Decimal(n)
  {
    var s := Decimal(n);
    assert forall i :: 0 <= i < |s| ==> '0' <= s[i] <= '9';
  }

  lemma PositionsHaveNo(p: Position)
    ensures ',' !in ShowPosition(p) && ' ' !in ShowPosition(p) && ':' !in ShowPosition(p)
  {
    NoSeparator(p.line);
    NoSeparator(p.column);
  }

  lemma PositionRoundTrip(p: Position)
    requires 1 <= p.line <= MAX_INT && 1 <= p.column <= MAX_INT
    ensures ParsePosition(ShowPosition(p)) == Some(p)
  {
    NoSeparator(p.line);
    CutJoined(Decimal(p.line), Decimal(p.column), '.');
    ValueOfDecimal(p.line);
    ValueOfDecimal(p.column);
  }

  lemma PathEndsAtLastColon(path: string, tail: string)
    requires path != "" && '\n' !in path && ':' !in tail
    ensures ParseBlock(path + ":" + tail) == ParseTail(path, tail)
  {
    var line := path + ":" + tail;
    LastSeparator(path, tail, ':');
    assert line[|path|] == ':' && line[..|path|] == path && line[|path| + 1..] == tail;
  }

  function ShowTail(b: Block, executions: nat): string {
    ShowPosition(b.start) + "," + (ShowPosition(b.end) + " " + (Decimal(b.statements) + " " + Decimal(executions)))
  }

  lemma RowIsPathAndTail(b: Block, executions: nat)
    ensures ShowRow(b, executions) == b.path + ":" + ShowTail(b, executions)
  {
  }

  /** Parsing a printed row gives back the block, whatever characters its path has. */
  lemma RowRoundTrip(b: Block, executions: nat)
    requires ValidBlock(b) && executions < WORD && b.executed == (executions > 0)
    ensures ParseBlock(ShowRow(b, executions)) == Some(b)
  {
    PositionsHaveNo(b.start);
    PositionsHaveNo(b.end);
    NoSeparator(b.statements);
    NoSeparator(executions);
    var tail := ShowTail(b, executions);
    assert ':' !in tail;
    RowIsPathAndTail(b, executions);
    PathEndsAtLastColon(b.path, tail);
    TailRoundTrip(b, executions);
  }

  lemma TailParts(path: string, start: string, end: string, statements: string, executions: string)
    requires ',' !in start && ' ' !in end && ' ' !in statements
    ensures ParseTail(path, start + "," + (end + " " + (statements + " " + executions))) ==
            Assemble(path, ParsePosition(start), ParsePosition(end), ParseCount(statements), ParseCount(executions))
  {
    var counts := statements + " " + executions;
    var rest := end + " " + counts;
    CutJoined(start, rest, ',');
    CutJoined(end, counts, ' ');
    CutJoined(statements, executions, ' ');
  }

  lemma TailRoundTrip(b: Block, executions: nat)
    requires ValidBlock(b) && executions < WORD && b.executed == (executions > 0)
    ensures ParseTail(b.path, ShowTail(b, executions)) == Some(b)
  {
    PositionsHaveNo(b.start);
    PositionsHaveNo(b.end);
    NoSeparator(b.statements);
    TailParts(b.path, ShowPosition(b.start), ShowPosition(b.end), Decimal(b.statements), Decimal(executions));
    PositionRoundTrip(b.start);
    PositionRoundTrip(b.end);
    ValueOfDecimal(b.statements);
    ValueOfDecimal(executions);
  }

  lemma LastSplitUnique(a: string, x: string, b: string, y: string, sep: char)
    requires sep !in x && sep !in y && a + [sep] + x == b + [sep] + y
    ensures a == b && x == y
  {
    LastSeparator(a, x, sep);
    LastSeparator(b, y, sep);
    var s := a + [sep] + x;
    assert a == s[..|a|] && b == s[..|b|] && x == s[|a| + 1..] && y == s[|b| + 1..];
  }

  /** The key names the block: path and range. */
  lemma KeyInjective(a: Block, b: Block)
    requires BlockKey(a) == BlockKey(b)
    ensures a.path == b.path && a.start == b.start && a.end == b.end
  {
    PositionsHaveNo(a.start); PositionsHaveNo(a.end);
    PositionsHaveNo(b.start); PositionsHaveNo(b.end);
    LastSplitUnique(a.path, ShowRange(a), b.path, ShowRange(b), ':');
    SplitUnique(ShowPosition(a.start), ShowPosition(a.end), ShowPosition(b.start), ShowPosition(b.end), ',');
    ShowInjective(a.start, b.start);
    ShowInjective(a.end, b.end);
  }

  /** What a key string names. */
  datatype Id = Id(path: string, start: Position, end: Position)

  function IdOf(b: Block): Id { Id(b.path, b.start, b.end) }

  /** Rows share a key string exactly when they are the same block. */
  lemma KeyExactly(a: Block, b: Block)
    ensures BlockKey(a) == BlockKey(b) <==> IdOf(a) == IdOf(b)
  {
    if BlockKey(a) == BlockKey(b) { KeyInjective(a, b); }
  }

  lemma ShowInjective(p: Position, q: Position)
    requires ShowPosition(p) == ShowPosition(q)
    ensures p == q
  {
    NoSeparator(p.line);
    NoSeparator(q.line);
    SplitUnique(Decimal(p.line), Decimal(p.column), Decimal(q.line), Decimal(q.column), '.');
    ValueOfDecimal(p.line); ValueOfDecimal(q.line);
    ValueOfDecimal(p.column); ValueOfDecimal(q.column);
  }

  /** Whatever parses is valid, so the round trip covers every block of a profile. */
  lemma ParsedIsValid(line: string)
    ensures ParseBlock(line).Some? ==> ValidBlock(ParseBlock(line).value)
  {
  }
}
