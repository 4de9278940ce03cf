/** The coverage gate: its pass must mean that every block which counts was executed. */
module CoverageGate {
  import opened CoverageRows

  const MODULE := "github.com/jordigilh/kubernaut-operator"
  const BUSINESS := "business"

  datatype Function = Function(path: string, start: Position, end: Position, classification: string)

  /** The handwritten files and the functions in them. */
  datatype Inventory = Inventory(functions: seq<Function>, handwritten: set<string>)

  /** The block is in the function's file and reaches beyond it on neither side. */
  ghost predicate Inside(b: Block, f: Function) {
    b.path == f.path && !Precedes(b.start, f.start) && !Precedes(f.end, b.end)
  }

  predicate Contains(f: Function, b: Block)
    ensures Contains(f, b) <==> Inside(b, f)
  {
    f.path == b.path && AtOrBefore(f.start, b.start) && AtOrBefore(b.end, f.end)
  }

  // ---------- Sums over a map ----------

  ghost function Sum(m: map<Id, nat>): nat {
    if m == map[] then 0
    else
      var k :| k in m;
      m[k] + Sum(m - {k})
  }

  lemma {:induction false} SumRemove(m: map<Id, nat>, k: Id)
    requires k in m
    ensures Sum(m) == m[k] + Sum(m - {k})
    decreases |m|
  {
    var j :| j in m && Sum(m) == m[j] + Sum(m - {j});
    if j != k {
      assert k in m - {j} && j in m - {k};
      SumRemove(m - {j}, k);
      SumRemove(m - {k}, j);
      assert m - {j} - {k} == m - {k} - {j};
    }
  }

  lemma {:induction false} SumZero(m: map<Id, nat>)
    ensures Sum(m) == 0 <==> forall k :: k in m ==> m[k] == 0
    decreases |m|
  {
    if m != map[] {
      var k :| k in m;
      SumRemove(m, k);
      SumZero(m - {k});
      assert forall j :: j in m ==> j == k || j in m - {k};
    }
  }

  lemma {:induction false} SumMonotone(m: map<Id, nat>, n: map<Id, nat>)
    requires m.Keys == n.Keys && forall k :: k in m ==> m[k] <= n[k]
    ensures Sum(m) <= Sum(n)
    decreases |m|
  {
    if m != map[] {
      var k :| k in m;
      SumRemove(m, k);
      SumRemove(n, k);
      SumMonotone(m - {k}, n - {k});
    } else {
      assert n == map[];
    }
  }

  // ---------- Union of rows ----------

  /** Keyed by what the key string names; KeyExactly shows that this loses nothing. */
  type Unique = map<Id, Block>

  ghost predicate HasRow(rows: seq<Block>, key: Id) {
    exists i :: 0 <= i < |rows| && IdOf(rows[i]) == key
  }

  ghost predicate Ran(rows: seq<Block>, key: Id) {
    exists i :: 0 <= i < |rows| && IdOf(rows[i]) == key && rows[i].executed
  }

  /** One entry per key, executed if any row is, otherwise as the last row says. */
  ghost predicate UnionOf(u: Unique, rows: seq<Block>) {
    && (forall k :: k in u <==> HasRow(rows, k))
    && (forall k :: k in u ==> (u[k].executed <==> Ran(rows, k)))
    && (forall k :: k in u ==> CountedIn(rows, k, u[k].statements))
  }

  lemma RowsNext(rows: seq<Block>, n: nat, k: Id)
    requires n < |rows|
    ensures HasRow(rows[..n + 1], k) <==> HasRow(rows[..n], k) || k == IdOf(rows[n])
    ensures Ran(rows[..n + 1], k) <==> Ran(rows[..n], k) || (k == IdOf(rows[n]) && rows[n].executed)
  {
    var done, more := rows[..n], rows[..n + 1];
    assert more == done + [rows[n]] && more[n] == rows[n];
    if HasRow(done, k) { var i :| 0 <= i < n && IdOf(done[i]) == k; assert more[i] == done[i]; }
    if Ran(done, k) { var i :| 0 <= i < n && IdOf(done[i]) == k && done[i].executed; assert more[i] == done[i]; }
  }

  ghost predicate CountedIn(rows: seq<Block>, k: Id, statements: nat) {
    exists i :: 0 <= i < |rows| && IdOf(rows[i]) == k && statements == rows[i].statements
  }

  lemma CountedNext(rows: seq<Block>, n: nat, k: Id, statements: nat)
    requires n < |rows|
    requires CountedIn(rows[..n], k, statements) || (k == IdOf(rows[n]) && statements == rows[n].statements)
    ensures CountedIn(rows[..n + 1], k, statements)
  {
    var done, more := rows[..n], rows[..n + 1];
    assert more[n] == rows[n];
    if CountedIn(done, k, statements) {
      var i :| 0 <= i < n && IdOf(done[i]) == k && statements == done[i].statements;
      assert more[i] == done[i];
    }
  }

  function Absorb(u: Unique, b: Block): Unique {
    u[IdOf(b) := b.(executed := b.executed || (IdOf(b) in u && u[IdOf(b)].executed))]
  }

  lemma UnionNext(u: Unique, rows: seq<Block>, n: nat)
    requires n < |rows| && UnionOf(u, rows[..n])
    ensures UnionOf(Absorb(u, rows[n]), rows[..n + 1])
  {
    var next := Absorb(u, rows[n]);
    forall k ensures k in next <==> HasRow(rows[..n + 1], k)
             ensures k in next ==> (next[k].executed <==> Ran(rows[..n + 1], k))
             ensures k in next ==> CountedIn(rows[..n + 1], k, next[k].statements)
    {
      RowsNext(rows, n, k);
      RanHasRow(rows[..n], k);
      if k in next { CountedNext(rows, n, k, next[k].statements); }
    }
  }

  lemma RanHasRow(rows: seq<Block>, k: Id)
    ensures Ran(rows, k) ==> HasRow(rows, k)
  {
  }

  /** unionBlocks as a value: later rows are absorbed into what earlier ones left. */
  ghost function Unite(rows: seq<Block>): Unique
    decreases |rows|
  {
    if rows == [] then map[] else Absorb(Unite(rows[..|rows| - 1]), rows[|rows| - 1])
  }

  lemma {:induction false} UniteIsUnion(rows: seq<Block>)
    ensures UnionOf(Unite(rows), rows)
    decreases |rows|
  {
    if rows != [] {
      var n := |rows| - 1;
      UniteIsUnion(rows[..n]);
      UnionNext(Unite(rows[..n]), rows, n);
      assert rows[..n + 1] == rows;
    }
  }

  method UnionBlocks(rows: seq<Block>) returns (u: Unique)
    ensures u == Unite(rows) && UnionOf(u, rows)
  {
    u := map[];
    for i := 0 to |rows|
      invariant u == Unite(rows[..i])
    {
      assert rows[..i + 1][..i] == rows[..i];
      u := Absorb(u, rows[i]);
    }
    assert rows[..|rows|] == rows;
    UniteIsUnion(rows);
  }

  // ---------- Summary ----------

  ghost function Weights(u: Unique): map<Id, nat> { map k | k in u :: u[k].statements }
  ghost function Missed(u: Unique): map<Id, nat> { map k | k in u :: if u[k].executed then 0 else u[k].statements }

  datatype Summary = Summary(statements: nat, missed: nat)

  lemma SumWithout(u: Unique, k: Id)
    requires k in u
    ensures Sum(Weights(u)) == u[k].statements + Sum(Weights(u - {k}))
    ensures Sum(Missed(u)) == (if u[k].executed then 0 else u[k].statements) + Sum(Missed(u - {k}))
  {
    SumRemove(Weights(u), k);
    SumRemove(Missed(u), k);
    assert Weights(u) - {k} == Weights(u - {k}) && Missed(u) - {k} == Missed(u - {k});
  }

  function Wrap(n: nat): nat { n % WORD }

  /** `total` and `missed` account for the entries no longer in `rest`. */
  ghost predicate Tallied(u: Unique, rest: Unique, total: nat, missed: nat) {
    total + Sum(Weights(rest)) == Sum(Weights(u)) && missed + Sum(Missed(rest)) == Sum(Missed(u))
  }

  lemma TallyNext(u: Unique, rest: Unique, k: Id, total: nat, missed: nat)
    requires k in rest && Tallied(u, rest, total, missed)
    ensures Tallied(u, rest - {k}, total + rest[k].statements,
                    missed + if rest[k].executed then 0 else rest[k].statements)
  {
    SumWithout(rest, k);
  }

  /** uint64 addition keeps the wrapped value of the true total. */
  method AddWrapped(sum: nat, b: nat, ghost total: nat) returns (r: nat)
    requires sum == Wrap(total)
    ensures r == Wrap(total + b)
  {
    r := Wrap(sum + b);
  }

  method AddBlock(s: Summary, b: Block, ghost total: nat, ghost totalMissed: nat) returns (r: Summary)
    requires s == Summary(Wrap(total), Wrap(totalMissed))
    ensures r == Summary(Wrap(total + b.statements), Wrap(totalMissed + if b.executed then 0 else b.statements))
  {
    var statements := AddWrapped(s.statements, b.statements, total);
    var missed := s.missed;
    if !b.executed { missed := AddWrapped(s.missed, b.statements, totalMissed); }
    r := Summary(statements, missed);
  }

  /** summarize, in 64-bit unsigned arithmetic and in any map order. */
  method Summarize(u: Unique) returns (s: Summary)
    ensures s == Summary(Wrap(Sum(Weights(u))), Wrap(Sum(Missed(u))))
  {
    s := Summary(0, 0);
    var rest := u;
    ghost var total: nat, missed: nat := 0, 0;
    while rest != map[]
      invariant s == Summary(Wrap(total), Wrap(missed)) && Tallied(u, rest, total, missed)
      decreases rest.Keys
    {
      var k :| k in rest;
      s, total, missed := SummarizeNext(s, rest, k, u, total, missed);
      rest := rest - {k};
    }
    AllTallied(u, total, missed);
  }

  method SummarizeNext(s: Summary, rest: Unique, k: Id, ghost u: Unique, ghost total: nat, ghost missed: nat)
    returns (r: Summary, ghost more: nat, ghost more': nat)
    requires k in rest && s == Summary(Wrap(total), Wrap(missed)) && Tallied(u, rest, total, missed)
    ensures r == Summary(Wrap(more), Wrap(more')) && Tallied(u, rest - {k}, more, more')
  {
    TallyNext(u, rest, k, total, missed);
    r := AddBlock(s, rest[k], total, missed);
    more, more' := total + rest[k].statements, missed + if rest[k].executed then 0 else rest[k].statements;
  }

  lemma AllTallied(u: Unique, total: nat, missed: nat)
    requires Tallied(u, map[], total, missed)
    ensures total == Sum(Weights(u)) && missed == Sum(Missed(u))
  {
    assert Weights(map[]) == map[] && Missed(map[]) == map[];
  }

  // ---------- Schema ----------

  /** Rows for one block agree on its number of statements. */
  ghost predicate Consistent(rows: seq<Block>) {
    forall i, j :: 0 <= i < |rows| && 0 <= j < |rows| && IdOf(rows[i]) == IdOf(rows[j]) ==>
      rows[i].statements == rows[j].statements
  }

  ghost predicate Matched(b: Block, rows: seq<Block>) {
    exists i :: 0 <= i < |rows| && IdOf(rows[i]) == IdOf(b) && rows[i].statements == b.statements
  }

  /** The profile has exactly the baseline's blocks, with the same statement counts. */
  ghost predicate SchemaOk(rows: seq<Block>, baseline: seq<Block>) {
    && Consistent(baseline)
    && (forall i :: 0 <= i < |rows| ==> Matched(rows[i], baseline))
    && (forall i :: 0 <= i < |baseline| ==> HasRow(rows, IdOf(baseline[i])))
  }

  ghost predicate CountsOf(expected: map<Id, nat>, rows: seq<Block>) {
    && (forall k :: k in expected <==> HasRow(rows, k))
    && (forall i :: 0 <= i < |rows| ==> IdOf(rows[i]) in expected && expected[IdOf(rows[i])] == rows[i].statements)
  }

  method CountBaseline(baseline: seq<Block>) returns (ok: bool, expected: map<Id, nat>)
    ensures ok <==> Consistent(baseline)
    ensures ok ==> CountsOf(expected, baseline)
  {
    expected := map[];
    for i := 0 to |baseline|
      invariant CountsOf(expected, baseline[..i])
    {
      var b := baseline[i];
      var more := baseline[..i + 1];
      assert more == baseline[..i] + [b] && more[i] == b;
      if IdOf(b) in expected && expected[IdOf(b)] != b.statements {
        var j :| 0 <= j < i && IdOf(baseline[..i][j]) == IdOf(b);
        assert baseline[j].statements != baseline[i].statements;
        return false, expected;
      }
      AllRowsNext(baseline, i);
      expected := expected[IdOf(b) := b.statements];
    }
    assert baseline[..|baseline|] == baseline;
    ok := true;
  }

  lemma AllRowsNext(rows: seq<Block>, n: nat)
    requires n < |rows|
    ensures forall k :: HasRow(rows[..n + 1], k) <==> HasRow(rows[..n], k) || k == IdOf(rows[n])
  {
    forall k ensures HasRow(rows[..n + 1], k) <==> HasRow(rows[..n], k) || k == IdOf(rows[n]) { RowsNext(rows, n, k); }
  }

  /** validateSchema. */
  method ValidateSchema(rows: seq<Block>, baseline: seq<Block>) returns (ok: bool)
    ensures ok <==> SchemaOk(rows, baseline)
  {
    var expected;
    ok, expected := CountBaseline(baseline);
    if !ok { return; }
    var seen: set<Id> := {};
    for i := 0 to |rows|
      invariant forall k :: k in seen <==> HasRow(rows[..i], k)
      invariant forall j :: 0 <= j < i ==> Matched(rows[j], baseline)
    {
      var id := IdOf(rows[i]);
      if id !in expected || expected[id] != rows[i].statements {
        assert !Matched(rows[i], baseline);
        return false;
      }
      var j :| 0 <= j < |baseline| && IdOf(baseline[j]) == id;
      assert Matched(rows[i], baseline);
      AllRowsNext(rows, i);
      seen := seen + {id};
    }
    assert rows[..|rows|] == rows;
    ok := expected.Keys <= seen;
    if !ok {
      var k :| k in expected.Keys && k !in seen;
      var i :| 0 <= i < |baseline| && IdOf(baseline[i]) == k;
      assert !HasRow(rows, IdOf(baseline[i]));
    }
  }

  // ---------- Scope ----------

  /** The path within the module, as the inventory gives it. */
  function TrimModule(path: string): (r: string)
    ensures if "github.com/jordigilh/kubernaut-operator/" <= path
            then path == "github.com/jordigilh/kubernaut-operator/" + r else r == path
  {
    var prefix := MODULE + "/";
    assert prefix == "github.com/jordigilh/kubernaut-operator/";
    if |prefix| <= |path| && path[..|prefix|] == prefix then path[|prefix|..] else path
  }

  function Local(b: Block): Block { b.(path := TrimModule(b.path)) }

  ghost predicate Exempt(b: Block, functions: seq<Function>) {
    exists i :: 0 <= i < |functions| && functions[i].classification != "business" && Inside(b, functions[i])
  }

  /** A block of a handwritten file outside infrastructure functions. */
  ghost predicate Counts(b: Block, inv: Inventory) {
    Local(b).path in inv.handwritten && !Exempt(Local(b), inv.functions)
  }

  ghost predicate ScopeOf(selected: seq<Block>, rows: seq<Block>, inv: Inventory) {
    && (forall i :: 0 <= i < |rows| && Counts(rows[i], inv) ==> Local(rows[i]) in selected)
    && (forall i :: 0 <= i < |selected| ==> FromRow(selected[i], rows, inv))
  }

  ghost predicate FromRow(b: Block, rows: seq<Block>, inv: Inventory) {
    exists j :: 0 <= j < |rows| && b == Local(rows[j]) && Counts(rows[j], inv)
  }

  /** scopedBlocks as a value. */
  ghost function Scope(rows: seq<Block>, inv: Inventory): seq<Block>
    decreases |rows|
  {
    if rows == [] then []
    else
      var last := rows[|rows| - 1];
      Scope(rows[..|rows| - 1], inv)
      + if Counts(last, inv) then [Local(last)] else []
  }

  lemma {:induction false} ScopeIsExact(rows: seq<Block>, inv: Inventory)
    ensures ScopeOf(Scope(rows, inv), rows, inv)
    decreases |rows|
  {
    if rows != [] {
      var n := |rows| - 1;
      var front, last := rows[..n], rows[n];
      var before, after := Scope(front, inv), Scope(rows, inv);
      ScopeIsExact(front, inv);
      forall i | 0 <= i < |rows| && Counts(rows[i], inv) ensures Local(rows[i]) in after {
        if i < n { assert front[i] == rows[i]; }
      }
      forall i | 0 <= i < |after| ensures FromRow(after[i], rows, inv) {
        if i < |before| {
          assert after[i] == before[i] && FromRow(before[i], front, inv);
          var j :| 0 <= j < |front| && before[i] == Local(front[j]) && Counts(front[j], inv);
          assert rows[j] == front[j];
        }
      }
    }
  }

  method ScopedBlocks(rows: seq<Block>, inv: Inventory)
    returns (selected: seq<Block>)
    ensures selected == Scope(rows, inv)
    ensures ScopeOf(selected, rows, inv)
  {
    selected := [];
    for i := 0 to |rows|
      invariant selected == Scope(rows[..i], inv)
    {
      assert rows[..i + 1][..i] == rows[..i];
      var b := Local(rows[i]);
      if b.path !in inv.handwritten { continue; }
      var excluded := IsExempt(b, inv.functions);
      if !excluded { selected := selected + [b]; }
    }
    assert rows[..|rows|] == rows;
    ScopeIsExact(rows, inv);
  }

  method IsExempt(b: Block, functions: seq<Function>) returns (excluded: bool)
    ensures excluded == Exempt(b, functions)
  {
    for i := 0 to |functions|
      invariant forall j :: 0 <= j < i ==> !(functions[j].classification != BUSINESS && Inside(b, functions[j]))
    {
      if functions[i].classification != BUSINESS && Contains(functions[i], b) { return true; }
    }
    excluded := false;
  }

  ghost predicate Found(f: Function, rows: seq<Block>) {
    exists i :: 0 <= i < |rows| && Inside(rows[i], f)
  }

  method CountMissing(functions: seq<Function>, rows: seq<Block>) returns (missing: nat)
    ensures missing == 0 <==> AllFound(functions, rows)
  {
    missing := 0;
    for i := 0 to |functions|
      invariant missing == 0 <==>
                forall j :: 0 <= j < i && functions[j].classification == BUSINESS ==> Found(functions[j], rows)
    {
      if functions[i].classification != BUSINESS { continue; }
      var found := false;
      for j := 0 to |rows|
        invariant found <==> exists n :: 0 <= n < j && Inside(rows[n], functions[i])
      {
        if Contains(functions[i], rows[j]) { found := true; }
      }
      assert found <==> Found(functions[i], rows);
      if !found { missing := missing + 1; }
    }
  }

  // ---------- The verdict ----------

  ghost predicate AllFound(functions: seq<Function>, selected: seq<Block>) {
    forall i :: 0 <= i < |functions| && functions[i].classification == BUSINESS ==> Found(functions[i], selected)
  }

  ghost predicate GoodSummary(u: Unique) {
    Wrap(Sum(Weights(u))) != 0 && Wrap(Sum(Missed(u))) == 0
  }

  /** The verdict as a property of the two profiles and the inventory. */
  ghost predicate Passes(rows: seq<Block>, baseline: seq<Block>, inv: Inventory) {
    var selected := Scope(rows, inv);
    SchemaOk(rows, baseline) && GoodSummary(Unite(selected)) && AllFound(inv.functions, selected)
  }

  /** run, after the profiles are read. */
  method Gate(rows: seq<Block>, baseline: seq<Block>, inv: Inventory)
    returns (pass: bool)
    ensures pass <==> Passes(rows, baseline, inv)
  {
    var schema := ValidateSchema(rows, baseline);
    if !schema { return false; }
    var scoped := ScopedBlocks(rows, inv);
    var missing := CountMissing(inv.functions, scoped);
    var unique := UnionBlocks(scoped);
    var summary := Summarize(unique);
    pass := !(summary.statements == 0 || summary.missed > 0 || missing > 0);
  }
}
