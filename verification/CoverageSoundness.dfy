/** What a pass of the coverage gate means, and exactly when it means it. */
module CoverageSoundness {
  import opened CoverageRows
  import opened CoverageGate

  /** Some row of the profile executed every counted block that has statements. */
  ghost predicate AllRan(rows: seq<Block>, baseline: seq<Block>, inv: Inventory) {
    forall b :: b in baseline && b.statements > 0 && Counts(b, inv) ==> Ran(rows, IdOf(b))
  }

  /** For this baseline a pass always means execution. */
  ghost predicate Sound(baseline: seq<Block>, inv: Inventory) {
    forall rows :: Passes(rows, baseline, inv) ==> AllRan(rows, baseline, inv)
  }

  /** `c` can stand in for `b`: both count, and trimming the module prefix makes them one. */
  ghost predicate Clash(b: Block, c: Block, inv: Inventory) {
    && IdOf(b) != IdOf(c) && IdOf(Local(b)) == IdOf(Local(c))
    && b.statements > 0 && Counts(b, inv) && Counts(c, inv)
  }

  ghost predicate Clashing(baseline: seq<Block>, inv: Inventory) {
    exists b, c :: b in baseline && c in baseline && Clash(b, c, inv)
  }

  /** The statements of the counted blocks of the baseline. */
  ghost function CountedWeights(baseline: seq<Block>, inv: Inventory): map<Id, nat> {
    Weights(Unite(Scope(baseline, inv)))
  }

  ghost function Masked(m: map<Id, nat>, ids: set<Id>): map<Id, nat> {
    map k | k in m :: if k in ids then m[k] else 0
  }

  /** These blocks together have a positive multiple of 2^64 statements. */
  ghost predicate WrapsAt(m: map<Id, nat>, ids: set<Id>) {
    Sum(Masked(m, ids)) > 0 && Wrap(Sum(Masked(m, ids))) == 0
  }

  ghost predicate Wrapping(baseline: seq<Block>, inv: Inventory) {
    exists ids :: WrapsAt(CountedWeights(baseline, inv), ids)
  }

  // ---------- The parts of the condition in practice ----------

  /** A baseline with fewer than 2^64 counted statements cannot wrap. */
  lemma SmallTotalNeverWraps(baseline: seq<Block>, inv: Inventory)
    requires Sum(CountedWeights(baseline, inv)) < WORD
    ensures !Wrapping(baseline, inv)
  {
    forall ids ensures !WrapsAt(CountedWeights(baseline, inv), ids) {
      SumMonotone(Masked(CountedWeights(baseline, inv), ids), CountedWeights(baseline, inv));
    }
  }

  ghost predicate Prefixed(path: string) {
    |MODULE + "/"| <= |path| && path[..|MODULE + "/"|] == MODULE + "/"
  }

  /** Nor can blocks clash whose paths all carry the module prefix, as the compiler writes them. */
  lemma PrefixedNeverClashes(baseline: seq<Block>, inv: Inventory)
    requires forall i :: 0 <= i < |baseline| ==> Prefixed(baseline[i].path)
    ensures !Clashing(baseline, inv)
  {
    var n := |MODULE + "/"|;
    forall b, c | b in baseline && c in baseline && IdOf(Local(b)) == IdOf(Local(c)) ensures IdOf(b) == IdOf(c) {
      assert b.path == b.path[..n] + b.path[n..] && c.path == c.path[..n] + c.path[n..];
    }
  }

  // ---------- What a row says of the baseline ----------

  lemma LocalIds(b: Block, c: Block)
    requires IdOf(b) == IdOf(c)
    ensures IdOf(Local(b)) == IdOf(Local(c))
  {
  }

  /** Whether a block counts depends on where it is only. */
  lemma CountsById(b: Block, c: Block, inv: Inventory)
    requires IdOf(b) == IdOf(c)
    ensures Counts(b, inv) <==> Counts(c, inv)
  {
    forall i | 0 <= i < |inv.functions|
      ensures Inside(Local(b), inv.functions[i]) <==> Inside(Local(c), inv.functions[i])
    {
    }
  }

  lemma BlockOf(rows: seq<Block>, baseline: seq<Block>, r: Block) returns (b: Block)
    requires SchemaOk(rows, baseline) && r in rows
    ensures b in baseline && IdOf(b) == IdOf(r) && b.statements == r.statements
  {
    var i :| 0 <= i < |rows| && rows[i] == r;
    assert Matched(rows[i], baseline);
    var n :| 0 <= n < |baseline| && IdOf(baseline[n]) == IdOf(r) && baseline[n].statements == r.statements;
    b := baseline[n];
  }

  lemma RowOf(rows: seq<Block>, baseline: seq<Block>, b: Block) returns (r: Block)
    requires SchemaOk(rows, baseline) && b in baseline
    ensures r in rows && IdOf(r) == IdOf(b) && r.statements == b.statements
  {
    var n :| 0 <= n < |baseline| && baseline[n] == b;
    assert HasRow(rows, IdOf(baseline[n]));
    var i :| 0 <= i < |rows| && IdOf(rows[i]) == IdOf(b);
    r := rows[i];
    var c := BlockOf(rows, baseline, r);
  }

  /** A block in scope comes from a counted row. */
  lemma OriginOf(rows: seq<Block>, inv: Inventory, s: Block) returns (r: Block)
    requires s in Scope(rows, inv)
    ensures r in rows && Counts(r, inv) && s == Local(r)
  {
    ScopeIsExact(rows, inv);
    var selected := Scope(rows, inv);
    var i :| 0 <= i < |selected| && selected[i] == s;
    assert FromRow(selected[i], rows, inv);
    var j :| 0 <= j < |rows| && s == Local(rows[j]) && Counts(rows[j], inv);
    r := rows[j];
  }

  lemma InScope(rows: seq<Block>, inv: Inventory, r: Block)
    requires r in rows && Counts(r, inv)
    ensures Local(r) in Scope(rows, inv) && HasRow(Scope(rows, inv), IdOf(Local(r)))
    ensures r.executed ==> Ran(Scope(rows, inv), IdOf(Local(r)))
  {
    ScopeIsExact(rows, inv);
    var selected := Scope(rows, inv);
    var i :| 0 <= i < |rows| && rows[i] == r;
    assert Local(rows[i]) in selected;
    var j :| 0 <= j < |selected| && selected[j] == Local(r);
  }

  // ---------- A pass means execution ----------

  /** Rows of one local block agree on its statements, unless two blocks clash. */
  lemma StatementsAgree(rows: seq<Block>, baseline: seq<Block>, inv: Inventory, q: Block, r: Block)
    requires SchemaOk(rows, baseline) && !Clashing(baseline, inv)
    requires q in rows && r in rows && Counts(q, inv) && Counts(r, inv) && IdOf(Local(q)) == IdOf(Local(r))
    ensures q.statements == r.statements && (q.statements > 0 ==> IdOf(q) == IdOf(r))
  {
    var b := BlockOf(rows, baseline, q);
    var c := BlockOf(rows, baseline, r);
    assert Counts(b, inv) && Counts(c, inv);
    assert !Clash(b, c, inv) && !Clash(c, b, inv);
    if IdOf(b) == IdOf(c) { SameStatements(baseline, b, c); }
  }

  lemma SameStatements(baseline: seq<Block>, b: Block, c: Block)
    requires Consistent(baseline) && b in baseline && c in baseline && IdOf(b) == IdOf(c)
    ensures b.statements == c.statements
  {
    var i :| 0 <= i < |baseline| && baseline[i] == b;
    var j :| 0 <= j < |baseline| && baseline[j] == c;
  }

  lemma ScopeStaysConsistent(rows: seq<Block>, baseline: seq<Block>, inv: Inventory)
    requires SchemaOk(rows, baseline) && !Clashing(baseline, inv)
    ensures Consistent(Scope(rows, inv))
  {
    var selected := Scope(rows, inv);
    forall i, j | 0 <= i < |selected| && 0 <= j < |selected| && IdOf(selected[i]) == IdOf(selected[j])
      ensures selected[i].statements == selected[j].statements
    {
      var q := OriginOf(rows, inv, selected[i]);
      var r := OriginOf(rows, inv, selected[j]);
      StatementsAgree(rows, baseline, inv, q, r);
    }
  }

  /** The statements of a united entry are those of any row in scope, if all rows agree. */
  lemma EntryStatements(selected: seq<Block>, s: Block)
    requires Consistent(selected) && s in selected
    ensures IdOf(s) in Unite(selected) && Unite(selected)[IdOf(s)].statements == s.statements
  {
    UniteIsUnion(selected);
    var k := IdOf(s);
    var j :| 0 <= j < |selected| && selected[j] == s;
    assert HasRow(selected, k);
    var i :| 0 <= i < |selected| && IdOf(selected[i]) == k && Unite(selected)[k].statements == selected[i].statements;
  }

  /** A profile with a good schema has the baseline's counted blocks, with their statements. */
  lemma WeightsMatch(rows: seq<Block>, baseline: seq<Block>, inv: Inventory)
    requires SchemaOk(rows, baseline) && !Clashing(baseline, inv)
    ensures Weights(Unite(Scope(rows, inv))) == CountedWeights(baseline, inv)
  {
    MatchesItself(baseline);
    ScopeStaysConsistent(rows, baseline, inv);
    ScopeStaysConsistent(baseline, baseline, inv);
    var mine, theirs := Unite(Scope(rows, inv)), Unite(Scope(baseline, inv));
    forall k ensures SameStatementsAt(mine, theirs, k) {
      if k in mine { EntryIsCounted(rows, baseline, inv, k); }
      else if k in theirs { CountedIsEntry(rows, baseline, inv, k); }
    }
    WeightsEqual(mine, theirs);
  }

  ghost predicate SameStatementsAt(u: Unique, v: Unique, k: Id) {
    (k in u <==> k in v) && (k in u && k in v ==> u[k].statements == v[k].statements)
  }

  lemma WeightsEqual(u: Unique, v: Unique)
    requires forall k :: SameStatementsAt(u, v, k)
    ensures Weights(u) == Weights(v)
  {
    forall k ensures k in Weights(u) <==> k in Weights(v)
             ensures k in Weights(u) && k in Weights(v) ==> Weights(u)[k] == Weights(v)[k]
    {
      assert SameStatementsAt(u, v, k);
    }
  }

  lemma EntryIsCounted(rows: seq<Block>, baseline: seq<Block>, inv: Inventory, k: Id)
    requires SchemaOk(rows, baseline) && k in Unite(Scope(rows, inv))
    requires Consistent(Scope(rows, inv)) && Consistent(Scope(baseline, inv))
    ensures SameStatementsAt(Unite(Scope(rows, inv)), Unite(Scope(baseline, inv)), k)
  {
    var s := EntryOf(Scope(rows, inv), k);
    var r := OriginOf(rows, inv, s);
    var b := BlockOf(rows, baseline, r);
    LocalIds(r, b);
    CountsById(r, b, inv);
    InScope(baseline, inv, b);
    EntryStatements(Scope(rows, inv), s);
    EntryStatements(Scope(baseline, inv), Local(b));
  }

  lemma CountedIsEntry(rows: seq<Block>, baseline: seq<Block>, inv: Inventory, k: Id)
    requires SchemaOk(rows, baseline) && k in Unite(Scope(baseline, inv))
    ensures k in Unite(Scope(rows, inv))
  {
    var s := EntryOf(Scope(baseline, inv), k);
    var b := OriginOf(baseline, inv, s);
    var r := RowOf(rows, baseline, b);
    LocalIds(r, b);
    CountsById(r, b, inv);
    InScope(rows, inv, r);
    UniteIsUnion(Scope(rows, inv));
  }

  lemma EntryOf(selected: seq<Block>, k: Id) returns (s: Block)
    requires k in Unite(selected)
    ensures s in selected && IdOf(s) == k
  {
    UniteIsUnion(selected);
    assert HasRow(selected, k);
    var i :| 0 <= i < |selected| && IdOf(selected[i]) == k;
    s := selected[i];
  }

  ghost function Unrun(u: Unique): set<Id> {
    set k | k in u && !u[k].executed
  }

  lemma MissedIsMasked(u: Unique)
    ensures Missed(u) == Masked(Weights(u), Unrun(u))
  {
  }

  /** The block behind a passing profile ran: the entry it was united into was executed, and
      only its own rows were united into that entry. */
  lemma PassedBlockRan(rows: seq<Block>, baseline: seq<Block>, inv: Inventory, b: Block)
    requires Passes(rows, baseline, inv) && !Clashing(baseline, inv) && !Wrapping(baseline, inv)
    requires b in baseline && b.statements > 0 && Counts(b, inv)
    ensures Ran(rows, IdOf(b))
  {
    var selected := Scope(rows, inv);
    var u := Unite(selected);
    var r := RowOf(rows, baseline, b);
    var k := IdOf(Local(r));
    InScope(rows, inv, r);
    ScopeStaysConsistent(rows, baseline, inv);
    EntryStatements(selected, Local(r));
    NothingMissed(rows, baseline, inv);
    UniteIsUnion(selected);
    assert Missed(u)[k] == 0 && Ran(selected, k);
    var i :| 0 <= i < |selected| && IdOf(selected[i]) == k && selected[i].executed;
    var q := OriginOf(rows, inv, selected[i]);
    StatementsAgree(rows, baseline, inv, q, r);
    RowRan(rows, q);
  }

  lemma RowRan(rows: seq<Block>, q: Block)
    requires q in rows && q.executed
    ensures Ran(rows, IdOf(q))
  {
    var i :| 0 <= i < |rows| && rows[i] == q;
  }

  lemma NothingMissed(rows: seq<Block>, baseline: seq<Block>, inv: Inventory)
    requires Passes(rows, baseline, inv) && !Clashing(baseline, inv) && !Wrapping(baseline, inv)
    ensures var u := Unite(Scope(rows, inv)); forall k :: k in u ==> Missed(u)[k] == 0
  {
    var u := Unite(Scope(rows, inv));
    WeightsMatch(rows, baseline, inv);
    MissedIsMasked(u);
    assert !WrapsAt(CountedWeights(baseline, inv), Unrun(u));
    SumZero(Missed(u));
  }

  // ---------- And only then ----------

  /** A profile with its runs changed: exactly the blocks outside `idle` were executed. */
  ghost function Marked(rows: seq<Block>, idle: set<Id>): seq<Block> {
    seq(|rows|, i requires 0 <= i < |rows| => rows[i].(executed := IdOf(rows[i]) !in idle))
  }

  /** Two profiles that differ in what was executed only. */
  ghost predicate SameButRuns(a: seq<Block>, b: seq<Block>) {
    |a| == |b| && forall i :: 0 <= i < |a| ==> a[i].(executed := false) == b[i].(executed := false)
  }

  lemma {:induction false} ScopeSameButRuns(a: seq<Block>, b: seq<Block>, inv: Inventory)
    requires SameButRuns(a, b)
    ensures SameButRuns(Scope(a, inv), Scope(b, inv))
    decreases |a|
  {
    if a != [] {
      var n := |a| - 1;
      ScopeSameButRuns(a[..n], b[..n], inv);
      CountsIgnoresRuns(a[n], b[n], inv);
    }
  }

  lemma CountsIgnoresRuns(a: Block, b: Block, inv: Inventory)
    requires a.(executed := false) == b.(executed := false)
    ensures Counts(a, inv) <==> Counts(b, inv)
    ensures Local(a).(executed := false) == Local(b).(executed := false)
  {
    assert IdOf(a) == IdOf(b) && a == b.(executed := a.executed);
    CountsById(a, b, inv);
  }

  lemma {:induction false} UniteSameButRuns(a: seq<Block>, b: seq<Block>)
    requires SameButRuns(a, b)
    ensures Weights(Unite(a)) == Weights(Unite(b))
    decreases |a|
  {
    if a != [] {
      var n := |a| - 1;
      UniteSameButRuns(a[..n], b[..n]);
      AbsorbSameWeights(Unite(a[..n]), Unite(b[..n]), a[n], b[n]);
    }
  }

  lemma AbsorbSameWeights(u: Unique, v: Unique, a: Block, b: Block)
    requires Weights(u) == Weights(v) && a.(executed := false) == b.(executed := false)
    ensures Weights(Absorb(u, a)) == Weights(Absorb(v, b))
  {
    assert IdOf(a) == IdOf(b) && a.statements == b.statements;
    assert Weights(Absorb(u, a)) == Weights(u)[IdOf(a) := a.statements];
    assert Weights(Absorb(v, b)) == Weights(v)[IdOf(b) := b.statements];
  }

  lemma FoundSameButRuns(functions: seq<Function>, a: seq<Block>, b: seq<Block>)
    requires SameButRuns(a, b) && AllFound(functions, a)
    ensures AllFound(functions, b)
  {
    forall i | 0 <= i < |functions| && functions[i].classification == BUSINESS ensures Found(functions[i], b) {
      assert Found(functions[i], a);
      var n :| 0 <= n < |a| && Inside(a[n], functions[i]);
      assert Inside(b[n], functions[i]);
    }
  }

  /** The schema does not look at what was executed. */
  lemma MarkedMatches(rows: seq<Block>, baseline: seq<Block>, idle: set<Id>)
    requires SchemaOk(rows, baseline)
    ensures SchemaOk(Marked(rows, idle), baseline)
  {
    var marked := Marked(rows, idle);
    forall i | 0 <= i < |marked| ensures Matched(marked[i], baseline) {
      assert Matched(rows[i], baseline) && IdOf(marked[i]) == IdOf(rows[i])
          && marked[i].statements == rows[i].statements;
    }
    forall i | 0 <= i < |baseline| ensures HasRow(marked, IdOf(baseline[i])) {
      assert HasRow(rows, IdOf(baseline[i]));
      var n :| 0 <= n < |rows| && IdOf(rows[n]) == IdOf(baseline[i]);
      assert IdOf(marked[n]) == IdOf(rows[n]);
    }
  }

  lemma MatchesItself(baseline: seq<Block>)
    requires Consistent(baseline)
    ensures SchemaOk(baseline, baseline)
  {
    forall i | 0 <= i < |baseline| ensures Matched(baseline[i], baseline) && HasRow(baseline, IdOf(baseline[i])) {
    }
  }

  /** If a profile passes, the same profile with other runs does whenever the wrapped sum of
      what it missed is zero. */
  lemma MarkedPasses(rows: seq<Block>, baseline: seq<Block>, inv: Inventory, idle: set<Id>)
    requires Passes(rows, baseline, inv)
    requires Wrap(Sum(Missed(Unite(Scope(Marked(rows, idle), inv))))) == 0
    ensures Passes(Marked(rows, idle), baseline, inv)
  {
    MarkedMatches(rows, baseline, idle);
    MarkedWeights(rows, inv, idle);
    ScopeSameButRuns(rows, Marked(rows, idle), inv);
    FoundSameButRuns(inv.functions, Scope(rows, inv), Scope(Marked(rows, idle), inv));
  }

  lemma MarkedWeights(rows: seq<Block>, inv: Inventory, idle: set<Id>)
    ensures Weights(Unite(Scope(Marked(rows, idle), inv))) == Weights(Unite(Scope(rows, inv)))
  {
    ScopeSameButRuns(rows, Marked(rows, idle), inv);
    UniteSameButRuns(Scope(rows, inv), Scope(Marked(rows, idle), inv));
  }

  lemma IdleDidNotRun(rows: seq<Block>, idle: set<Id>, k: Id)
    requires k in idle
    ensures !Ran(Marked(rows, idle), k)
  {
  }

  /** A block that clashes may never run, and the gate passes all the same: take any profile
      that passes and let all of its blocks run but this one. */
  lemma ClashMisleads(rows: seq<Block>, baseline: seq<Block>, inv: Inventory, b: Block, c: Block)
    requires Passes(rows, baseline, inv) && b in baseline && c in baseline && Clash(b, c, inv)
    ensures Passes(Marked(rows, {IdOf(b)}), baseline, inv) && !AllRan(Marked(rows, {IdOf(b)}), baseline, inv)
  {
    var idle := {IdOf(b)};
    var u := Unite(Scope(Marked(rows, idle), inv));
    var r := RowOf(rows, baseline, c);
    forall k | k in u ensures u[k].executed { StandInRan(rows, inv, b, c, r, k); }
    SumZero(Missed(u));
    MarkedPasses(rows, baseline, inv, idle);
    IdleDidNotRun(rows, idle, IdOf(b));
  }

  lemma StandInRan(rows: seq<Block>, inv: Inventory, b: Block, c: Block, r: Block, k: Id)
    requires Clash(b, c, inv) && r in rows && IdOf(r) == IdOf(c)
    requires k in Unite(Scope(Marked(rows, {IdOf(b)}), inv))
    ensures Unite(Scope(Marked(rows, {IdOf(b)}), inv))[k].executed
  {
    var idle := {IdOf(b)};
    var marked := Marked(rows, idle);
    UniteIsUnion(Scope(marked, inv));
    if k == IdOf(Local(c)) {
      var q := MarkedRow(rows, idle, r);
      CountsById(q, c, inv);
      LocalIds(q, c);
      InScope(marked, inv, q);
    } else {
      var s := EntryOf(Scope(marked, inv), k);
      var q := OriginOf(marked, inv, s);
      if IdOf(q) == IdOf(b) { LocalIds(q, b); }
      MarkedRan(rows, idle, q);
      InScope(marked, inv, q);
    }
  }

  /** A row in the marked profile. */
  lemma MarkedRow(rows: seq<Block>, idle: set<Id>, r: Block) returns (q: Block)
    requires r in rows
    ensures q in Marked(rows, idle) && q == r.(executed := IdOf(r) !in idle)
  {
    var i :| 0 <= i < |rows| && rows[i] == r;
    q := Marked(rows, idle)[i];
  }

  lemma MarkedRan(rows: seq<Block>, idle: set<Id>, q: Block)
    requires q in Marked(rows, idle)
    ensures q.executed <==> IdOf(q) !in idle
  {
    var marked := Marked(rows, idle);
    var i :| 0 <= i < |marked| && marked[i] == q;
  }

  /** The blocks behind a set of local blocks. */
  ghost function Behind(rows: seq<Block>, ids: set<Id>): set<Id> {
    set i | 0 <= i < |rows| && IdOf(Local(rows[i])) in ids :: IdOf(rows[i])
  }

  /** With those idle, exactly those local blocks are left unexecuted. */
  lemma BehindIsUnrun(rows: seq<Block>, inv: Inventory, ids: set<Id>)
    ensures var u := Unite(Scope(Marked(rows, Behind(rows, ids)), inv));
            forall k :: k in u ==> (u[k].executed <==> k !in ids)
  {
    var idle := Behind(rows, ids);
    var marked := Marked(rows, idle);
    var selected := Scope(marked, inv);
    var u := Unite(selected);
    UniteIsUnion(selected);
    forall k | k in u ensures u[k].executed <==> k !in ids {
      var s := EntryOf(selected, k);
      var r := OriginOf(marked, inv, s);
      BehindExactly(rows, ids, r);
      MarkedRan(rows, idle, r);
      InScope(marked, inv, r);
      if Ran(selected, k) {
        var i :| 0 <= i < |selected| && IdOf(selected[i]) == k && selected[i].executed;
        var q := OriginOf(marked, inv, selected[i]);
        BehindExactly(rows, ids, q);
        MarkedRan(rows, idle, q);
      }
    }
  }

  lemma BehindExactly(rows: seq<Block>, ids: set<Id>, r: Block)
    requires r in Marked(rows, Behind(rows, ids))
    ensures IdOf(r) in Behind(rows, ids) <==> IdOf(Local(r)) in ids
  {
    var marked := Marked(rows, Behind(rows, ids));
    var i :| 0 <= i < |marked| && marked[i] == r;
    LocalIds(r, rows[i]);
    if IdOf(r) in Behind(rows, ids) {
      var j :| 0 <= j < |rows| && IdOf(Local(rows[j])) in ids && IdOf(rows[j]) == IdOf(r);
      LocalIds(r, rows[j]);
    }
  }

  /** Blocks whose statements wrap may never run, and the gate passes all the same. */
  lemma WrapMisleads(rows: seq<Block>, baseline: seq<Block>, inv: Inventory, ids: set<Id>)
    requires Passes(rows, baseline, inv) && !Clashing(baseline, inv)
    requires WrapsAt(CountedWeights(baseline, inv), ids)
    ensures var marked := Marked(rows, Behind(rows, ids));
            Passes(marked, baseline, inv) && !AllRan(marked, baseline, inv)
  {
    var marked := Marked(rows, Behind(rows, ids));
    var u := Unite(Scope(marked, inv));
    BehindIsMissed(rows, baseline, inv, ids);
    MarkedPasses(rows, baseline, inv, Behind(rows, ids));
    SumZero(Missed(u));
    var k :| k in Missed(u) && Missed(u)[k] != 0;
    BehindIsUnrun(rows, inv, ids);
    IdleWitness(rows, baseline, inv, ids, k);
  }

  lemma BehindIsMissed(rows: seq<Block>, baseline: seq<Block>, inv: Inventory, ids: set<Id>)
    requires SchemaOk(rows, baseline) && !Clashing(baseline, inv)
    ensures var u := Unite(Scope(Marked(rows, Behind(rows, ids)), inv));
            Missed(u) == Masked(CountedWeights(baseline, inv), ids)
  {
    BehindIsUnrun(rows, inv, ids);
    MarkedWeights(rows, inv, Behind(rows, ids));
    WeightsMatch(rows, baseline, inv);
    MissedOf(Unite(Scope(Marked(rows, Behind(rows, ids)), inv)), ids);
  }

  lemma MissedOf(u: Unique, ids: set<Id>)
    requires forall k :: k in u ==> (u[k].executed <==> k !in ids)
    ensures Missed(u) == Masked(Weights(u), ids)
  {
  }

  /** A local block left unexecuted stands for a baseline block that never ran. */
  lemma IdleWitness(rows: seq<Block>, baseline: seq<Block>, inv: Inventory, ids: set<Id>, k: Id)
    requires SchemaOk(rows, baseline)
    requires var u := Unite(Scope(Marked(rows, Behind(rows, ids)), inv));
             k in u && u[k].statements > 0 && k in ids
    ensures !AllRan(Marked(rows, Behind(rows, ids)), baseline, inv)
  {
    var idle := Behind(rows, ids);
    var marked := Marked(rows, idle);
    var selected := Scope(marked, inv);
    UniteIsUnion(selected);
    assert CountedIn(selected, k, Unite(selected)[k].statements);
    var i :| 0 <= i < |selected| && IdOf(selected[i]) == k && Unite(selected)[k].statements == selected[i].statements;
    var r := OriginOf(marked, inv, selected[i]);
    BehindExactly(rows, ids, r);
    IdleDidNotRun(rows, idle, IdOf(r));
    MarkedMatches(rows, baseline, idle);
    var b := BlockOf(marked, baseline, r);
    CountsById(r, b, inv);
    assert b in baseline && b.statements > 0 && Counts(b, inv) && IdOf(b) == IdOf(r);
  }

  /** Some profile passes with this baseline. */
  ghost predicate Passable(baseline: seq<Block>, inv: Inventory) {
    exists rows :: Passes(rows, baseline, inv)
  }

  /** A pass means that every counted block ran, for every profile, exactly when no two counted
      blocks clash and no set of them wraps; both can be read off the baseline. A baseline with
      which no profile passes promises nothing. */
  lemma SoundExactly(baseline: seq<Block>, inv: Inventory)
    ensures Sound(baseline, inv) <==> (Passable(baseline, inv) ==> !Clashing(baseline, inv) && !Wrapping(baseline, inv))
  {
    if Passable(baseline, inv) {
      var rows :| Passes(rows, baseline, inv);
      if Clashing(baseline, inv) {
        var b, c :| b in baseline && c in baseline && Clash(b, c, inv);
        ClashMisleads(rows, baseline, inv, b, c);
      } else if Wrapping(baseline, inv) {
        var ids :| WrapsAt(CountedWeights(baseline, inv), ids);
        WrapMisleads(rows, baseline, inv, ids);
      } else {
        NeitherMisleads(baseline, inv);
      }
    }
  }

  lemma NeitherMisleads(baseline: seq<Block>, inv: Inventory)
    requires !Clashing(baseline, inv) && !Wrapping(baseline, inv)
    ensures Sound(baseline, inv)
  {
    forall rows | Passes(rows, baseline, inv) ensures AllRan(rows, baseline, inv) {
      forall b | b in baseline && b.statements > 0 && Counts(b, inv) ensures Ran(rows, IdOf(b)) {
        PassedBlockRan(rows, baseline, inv, b);
      }
    }
  }

  /** The other way round the gate needs no such condition: a profile of the right schema in
      which every counted block ran, with all functions found and statements to count, passes. */
  lemma FullProfilePasses(rows: seq<Block>, baseline: seq<Block>, inv: Inventory)
    requires SchemaOk(rows, baseline) && AllRan(rows, baseline, inv)
    ensures Passes(rows, baseline, inv) <==>
            AllFound(inv.functions, Scope(rows, inv)) && Wrap(Sum(Weights(Unite(Scope(rows, inv))))) != 0
  {
    var selected := Scope(rows, inv);
    var u := Unite(selected);
    UniteIsUnion(selected);
    forall k | k in u ensures Missed(u)[k] == 0 {
      if u[k].statements > 0 { EntryRan(rows, baseline, inv, k); }
    }
    SumZero(Missed(u));
  }

  lemma EntryRan(rows: seq<Block>, baseline: seq<Block>, inv: Inventory, k: Id)
    requires SchemaOk(rows, baseline) && AllRan(rows, baseline, inv)
    requires k in Unite(Scope(rows, inv)) && Unite(Scope(rows, inv))[k].statements > 0
    ensures Ran(Scope(rows, inv), k)
  {
    var selected := Scope(rows, inv);
    UniteIsUnion(selected);
    assert CountedIn(selected, k, Unite(selected)[k].statements);
    var i :| 0 <= i < |selected| && IdOf(selected[i]) == k && Unite(selected)[k].statements == selected[i].statements;
    var r := OriginOf(rows, inv, selected[i]);
    var b := BlockOf(rows, baseline, r);
    CountsById(r, b, inv);
    assert Ran(rows, IdOf(b));
    var j :| 0 <= j < |rows| && IdOf(rows[j]) == IdOf(b) && rows[j].executed;
    LocalIds(r, rows[j]);
    CountsById(r, rows[j], inv);
    InScope(rows, inv, rows[j]);
  }

  /** Which business functions are found depends on the schema only. */
  lemma FoundMatches(rows: seq<Block>, baseline: seq<Block>, inv: Inventory)
    requires SchemaOk(rows, baseline)
    ensures AllFound(inv.functions, Scope(rows, inv)) <==> AllFound(inv.functions, Scope(baseline, inv))
  {
    forall i | 0 <= i < |inv.functions|
      ensures Found(inv.functions[i], Scope(rows, inv)) <==> Found(inv.functions[i], Scope(baseline, inv))
    {
      FoundEither(rows, baseline, inv, inv.functions[i]);
    }
  }

  lemma FoundEither(rows: seq<Block>, baseline: seq<Block>, inv: Inventory, f: Function)
    requires SchemaOk(rows, baseline)
    ensures Found(f, Scope(rows, inv)) <==> Found(f, Scope(baseline, inv))
  {
    var mine, theirs := Scope(rows, inv), Scope(baseline, inv);
    if Found(f, mine) {
      var i :| 0 <= i < |mine| && Inside(mine[i], f);
      var r := OriginOf(rows, inv, mine[i]);
      var b := BlockOf(rows, baseline, r);
      FoundAt(baseline, inv, f, r, b);
    }
    if Found(f, theirs) {
      var i :| 0 <= i < |theirs| && Inside(theirs[i], f);
      var b := OriginOf(baseline, inv, theirs[i]);
      var r := RowOf(rows, baseline, b);
      FoundAt(rows, inv, f, b, r);
    }
  }

  lemma FoundAt(rows: seq<Block>, inv: Inventory, f: Function, r: Block, b: Block)
    requires b in rows && Counts(r, inv) && IdOf(r) == IdOf(b) && Inside(Local(r), f)
    ensures Found(f, Scope(rows, inv))
  {
    CountsById(r, b, inv);
    InScope(rows, inv, b);
    var selected := Scope(rows, inv);
    var i :| 0 <= i < |selected| && selected[i] == Local(b);
    assert Inside(selected[i], f);
  }

  /** Unless blocks clash, a baseline can be passed with exactly when it is consistent, every
      business function has a counted block in it, and its counted statements do not add up to
      a multiple of 2^64. */
  lemma PassableExactly(baseline: seq<Block>, inv: Inventory)
    requires !Clashing(baseline, inv)
    ensures Passable(baseline, inv) <==>
            && Consistent(baseline) && AllFound(inv.functions, Scope(baseline, inv))
            && Wrap(Sum(CountedWeights(baseline, inv))) != 0
  {
    if Passable(baseline, inv) {
      var rows :| Passes(rows, baseline, inv);
      FoundMatches(rows, baseline, inv);
      WeightsMatch(rows, baseline, inv);
    }
    if Consistent(baseline) {
      var rows := Marked(baseline, {});
      MatchesItself(baseline);
      MarkedMatches(baseline, baseline, {});
      FoundMatches(rows, baseline, inv);
      MarkedWeights(baseline, inv, {});
      AllMarkedRan(baseline, inv);
      FullProfilePasses(rows, baseline, inv);
    }
  }

  lemma AllMarkedRan(baseline: seq<Block>, inv: Inventory)
    ensures AllRan(Marked(baseline, {}), baseline, inv)
  {
    var rows := Marked(baseline, {});
    forall b | b in baseline ensures Ran(rows, IdOf(b)) {
      var q := MarkedRow(baseline, {}, b);
      RowRan(rows, q);
    }
  }

  // ---------- Instances ----------

  /** A block that never ran, and one of the same local path that did. */
  function NeverRan(path: string, at: Position): Block { Block(MODULE + "/" + path, at, at, 1, false) }
  function DidRun(path: string, at: Position): Block { Block(path, at, at, 1, true) }

  lemma MixedLocals(path: string, at: Position)
    requires TrimModule(path) == path
    ensures Local(NeverRan(path, at)) == DidRun(path, at).(executed := false)
    ensures Local(DidRun(path, at)) == DidRun(path, at) && NeverRan(path, at).path != path
  {
    var prefix := MODULE + "/";
    var long := prefix + path;
    assert long[..|prefix|] == prefix && long[|prefix|..] == path;
    assert |long| > |path|;
  }

  /** Where two files trim to the same path: this profile passes with itself as baseline,
      although its first block never ran. */
  lemma MixedPathsMislead(path: string, at: Position)
    requires TrimModule(path) == path
    ensures var rows := [NeverRan(path, at), DidRun(path, at)];
            Passes(rows, rows, Inventory([], {path})) && !Ran(rows, IdOf(NeverRan(path, at)))
  {
    var a, b, inv := NeverRan(path, at), DidRun(path, at), Inventory([], {path});
    MixedLocals(path, at);
    ScopeOfTwo(a, b, inv);
    MixedUnion(b);
    TwoAreConsistent(a, b);
    MatchesItself([a, b]);
  }

  lemma TwoAreConsistent(a: Block, b: Block)
    requires IdOf(a) != IdOf(b) && !a.executed
    ensures Consistent([a, b]) && !Ran([a, b], IdOf(a))
  {
    var rows := [a, b];
    assert forall i :: 0 <= i < |rows| ==> rows[i] == if i == 0 then a else b;
  }

  lemma UniteOneMore(rows: seq<Block>, b: Block)
    ensures Unite(rows + [b]) == Absorb(Unite(rows), b)
  {
    assert (rows + [b])[..|rows|] == rows;
  }

  lemma ScopeOneMore(rows: seq<Block>, b: Block, inv: Inventory)
    ensures Scope(rows + [b], inv) == Scope(rows, inv) + if Counts(b, inv) then [Local(b)] else []
  {
    assert (rows + [b])[..|rows|] == rows;
  }

  lemma ScopeOfTwo(a: Block, b: Block, inv: Inventory)
    requires Counts(a, inv) && Counts(b, inv)
    ensures Scope([a, b], inv) == [Local(a), Local(b)]
  {
    ScopeOneMore([], a, inv);
    ScopeOneMore([a], b, inv);
    assert [] + [a] == [a] && [a] + [b] == [a, b];
  }

  lemma UniteTwo(a: Block, b: Block)
    ensures Unite([a, b]) == Absorb(Absorb(map[], a), b)
  {
    UniteOneMore([], a);
    UniteOneMore([a], b);
    assert [] + [a] == [a] && [a] + [b] == [a, b];
  }

  lemma MixedUnion(b: Block)
    requires b.executed && b.statements == 1
    ensures GoodSummary(Unite([b.(executed := false), b]))
  {
    UniteTwo(b.(executed := false), b);
    var u: Unique := map[IdOf(b) := b];
    assert Unite([b.(executed := false), b]) == u;
    SumRemove(Weights(u), IdOf(b));
    assert Weights(u) - {IdOf(b)} == map[];
    SumZero(Missed(u));
  }

  function Idle(path: string, at: Position): Block { Block(path, at, at, WORD / 2, false) }

  /** Where the sum wraps: two blocks that never ran, of 2^63 statements each, beside one that
      did. This profile passes with itself as baseline. */
  lemma WrappedSumMisleads(path: string, p: Position, q: Position, at: Position)
    requires TrimModule(path) == path && p != q && p != at && q != at
    ensures var rows := [Idle(path, p), Idle(path, q), DidRun(path, at)];
            && Passes(rows, rows, Inventory([], {path}))
            && !Ran(rows, IdOf(Idle(path, p))) && !Ran(rows, IdOf(Idle(path, q)))
  {
    var a, b, c, inv := Idle(path, p), Idle(path, q), DidRun(path, at), Inventory([], {path});
    var rows := [a, b, c];
    ScopeOfTwo(a, b, inv);
    ScopeOneMore([a, b], c, inv);
    assert [a, b] + [c] == rows;
    WrappedUnion(a, b, c);
    ThreeAreConsistent(a, b, c);
    MatchesItself(rows);
  }

  lemma ThreeAreConsistent(a: Block, b: Block, c: Block)
    requires IdOf(a) != IdOf(b) && IdOf(b) != IdOf(c) && IdOf(a) != IdOf(c)
    requires !a.executed && !b.executed
    ensures Consistent([a, b, c]) && !Ran([a, b, c], IdOf(a)) && !Ran([a, b, c], IdOf(b))
  {
    var rows := [a, b, c];
    assert forall i :: 0 <= i < |rows| ==> rows[i] == if i == 0 then a else if i == 1 then b else c;
  }

  lemma WrappedUnion(a: Block, b: Block, c: Block)
    requires IdOf(a) != IdOf(b) && IdOf(b) != IdOf(c) && IdOf(a) != IdOf(c)
    requires !a.executed && !b.executed && c.executed
    requires a.statements == WORD / 2 && b.statements == WORD / 2 && c.statements == 1
    ensures GoodSummary(Unite([a, b, c]))
  {
    UniteTwo(a, b);
    UniteOneMore([a, b], c);
    assert [a, b] + [c] == [a, b, c];
    var u: Unique := map[IdOf(a) := a, IdOf(b) := b, IdOf(c) := c];
    assert Unite([a, b, c]) == u;
    SumOfThree(Weights(u), IdOf(a), IdOf(b), IdOf(c));
    SumOfThree(Missed(u), IdOf(a), IdOf(b), IdOf(c));
    HalvesWrap();
  }

  lemma HalvesWrap()
    ensures Wrap(WORD / 2 + WORD / 2 + 1) == 1 && Wrap(WORD / 2 + WORD / 2 + 0) == 0
  {
  }

  lemma SumOfThree(m: map<Id, nat>, a: Id, b: Id, c: Id)
    requires m.Keys == {a, b, c} && a != b && b != c && a != c
    ensures Sum(m) == m[a] + m[b] + m[c]
  {
    SumRemove(m, a);
    SumRemove(m - {a}, b);
    SumRemove(m - {a} - {b}, c);
    assert m - {a} - {b} - {c} == map[];
  }

  // ---------- Order and repetition ----------

  /** The same rows, in any order and any number of times. */
  ghost predicate SameRows(a: seq<Block>, b: seq<Block>) {
    forall x :: x in a <==> x in b
  }

  lemma SameRowsHave(a: seq<Block>, b: seq<Block>, k: Id)
    requires SameRows(a, b)
    ensures HasRow(a, k) ==> HasRow(b, k)
    ensures Ran(a, k) ==> Ran(b, k)
  {
    if HasRow(a, k) {
      var i :| 0 <= i < |a| && IdOf(a[i]) == k;
      assert a[i] in b;
    }
    if Ran(a, k) {
      var i :| 0 <= i < |a| && IdOf(a[i]) == k && a[i].executed;
      assert a[i] in b;
    }
  }

  lemma SchemaIgnoresOrder(rows: seq<Block>, baseline: seq<Block>, rows': seq<Block>, baseline': seq<Block>)
    requires SameRows(rows, rows') && SameRows(baseline, baseline') && SchemaOk(rows, baseline)
    ensures SchemaOk(rows', baseline')
  {
    forall i, j | 0 <= i < |baseline'| && 0 <= j < |baseline'| && IdOf(baseline'[i]) == IdOf(baseline'[j])
      ensures baseline'[i].statements == baseline'[j].statements
    {
      assert baseline'[i] in baseline && baseline'[j] in baseline;
      SameStatements(baseline, baseline'[i], baseline'[j]);
    }
    forall i | 0 <= i < |rows'| ensures Matched(rows'[i], baseline') {
      assert rows'[i] in rows;
      var b := BlockOf(rows, baseline, rows'[i]);
      assert b in baseline';
    }
    forall i | 0 <= i < |baseline'| ensures HasRow(rows', IdOf(baseline'[i])) {
      assert baseline'[i] in baseline;
      var r := RowOf(rows, baseline, baseline'[i]);
      assert r in rows';
    }
  }

  lemma ScopeIgnoresOrder(rows: seq<Block>, rows': seq<Block>, inv: Inventory)
    requires SameRows(rows, rows')
    ensures SameRows(Scope(rows, inv), Scope(rows', inv))
  {
    forall s ensures s in Scope(rows, inv) <==> s in Scope(rows', inv) {
      if s in Scope(rows, inv) {
        var r := OriginOf(rows, inv, s);
        InScope(rows', inv, r);
      }
      if s in Scope(rows', inv) {
        var r := OriginOf(rows', inv, s);
        InScope(rows, inv, r);
      }
    }
  }

  lemma UnionIgnoresOrder(a: seq<Block>, b: seq<Block>)
    requires SameRows(a, b) && Consistent(a) && Consistent(b)
    ensures Weights(Unite(a)) == Weights(Unite(b)) && Missed(Unite(a)) == Missed(Unite(b))
  {
    forall k ensures SameStatementsAt(Unite(a), Unite(b), k)
             ensures k in Unite(a) && k in Unite(b) ==> Unite(a)[k].executed == Unite(b)[k].executed
    {
      EntryIgnoresOrder(a, b, k);
    }
    WeightsEqual(Unite(a), Unite(b));
    assert Unrun(Unite(a)) == Unrun(Unite(b));
    MissedIsMasked(Unite(a));
    MissedIsMasked(Unite(b));
  }

  lemma EntryIgnoresOrder(a: seq<Block>, b: seq<Block>, k: Id)
    requires SameRows(a, b) && Consistent(a) && Consistent(b)
    ensures SameStatementsAt(Unite(a), Unite(b), k)
    ensures k in Unite(a) && k in Unite(b) ==> Unite(a)[k].executed == Unite(b)[k].executed
  {
    UniteIsUnion(a);
    UniteIsUnion(b);
    SameRowsHave(a, b, k);
    SameRowsHave(b, a, k);
    if k in Unite(a) {
      var s := EntryOf(a, k);
      EntryStatements(a, s);
      EntryStatements(b, s);
    }
  }

  lemma FoundIgnoresOrder(functions: seq<Function>, a: seq<Block>, b: seq<Block>)
    requires SameRows(a, b) && AllFound(functions, a)
    ensures AllFound(functions, b)
  {
    forall i | 0 <= i < |functions| && functions[i].classification == BUSINESS ensures Found(functions[i], b) {
      assert Found(functions[i], a);
      var n :| 0 <= n < |a| && Inside(a[n], functions[i]);
      assert a[n] in b;
    }
  }

  /** Unless blocks clash, the verdict depends on which rows there are, not on their order or
      repetition. */
  lemma VerdictIgnoresOrder(rows: seq<Block>, baseline: seq<Block>, rows': seq<Block>, baseline': seq<Block>,
                            inv: Inventory)
    requires SameRows(rows, rows') && SameRows(baseline, baseline') && !Clashing(baseline, inv)
    ensures Passes(rows, baseline, inv) <==> Passes(rows', baseline', inv)
  {
    if SchemaOk(rows, baseline) || SchemaOk(rows', baseline') {
      if SchemaOk(rows, baseline) { SchemaIgnoresOrder(rows, baseline, rows', baseline'); }
      else { SchemaIgnoresOrder(rows', baseline', rows, baseline); }
      ClashIgnoresOrder(baseline, baseline', inv);
      ScopeIgnoresOrder(rows, rows', inv);
      ScopeStaysConsistent(rows, baseline, inv);
      ScopeStaysConsistent(rows', baseline', inv);
      UnionIgnoresOrder(Scope(rows, inv), Scope(rows', inv));
      FoundEitherWay(inv.functions, Scope(rows, inv), Scope(rows', inv));
    }
  }

  lemma ClashIgnoresOrder(baseline: seq<Block>, baseline': seq<Block>, inv: Inventory)
    requires SameRows(baseline, baseline') && !Clashing(baseline, inv)
    ensures !Clashing(baseline', inv)
  {
    forall b, c | b in baseline' && c in baseline' ensures !Clash(b, c, inv) {
      assert b in baseline && c in baseline;
    }
  }

  lemma FoundEitherWay(functions: seq<Function>, a: seq<Block>, b: seq<Block>)
    requires SameRows(a, b)
    ensures AllFound(functions, a) <==> AllFound(functions, b)
  {
    if AllFound(functions, a) { FoundIgnoresOrder(functions, a, b); }
    if AllFound(functions, b) { FoundIgnoresOrder(functions, b, a); }
  }
}
