/** Small facts about strings that several components build keys and paths from. */
module Text {

  const NUL: char := 0 as char

  function IndexOf(s: string, ch: char): (i: nat)
    requires ch in s
    ensures i < |s| && s[i] == ch && ch !in s[..i]
  {
    if s[0] == ch then 0 else 1 + IndexOf(s[1..], ch)
  }

  lemma {:induction false} FirstSeparator(a: string, x: string, sep: char)
    requires sep !in a
    ensures IndexOf(a + [sep] + x, sep) == |a|
    decreases |a|
  {
    var s := a + [sep] + x;
    if a == "" { assert s[0] == sep; }
    else {
      FirstSeparator(a[1..], x, sep);
      assert s[0] == a[0] && s[1..] == a[1..] + [sep] + x;
    }
  }

  /** Text before the first separator, and after it, are determined by the whole. */
  lemma SplitUnique(a: string, x: string, b: string, y: string, sep: char)
    requires sep !in a && sep !in b && a + [sep] + x == b + [sep] + y
    ensures a == b && x == y
  {
    FirstSeparator(a, x, sep);
    FirstSeparator(b, y, sep);
    var s := a + [sep] + x;
    assert a == s[..|a|] && b == s[..|b|] && x == s[|a| + 1..] && y == s[|b| + 1..];
  }

  // ---------- Decimal numbers ----------

  function Digit(d: nat): (ch: char)
    requires d < 10
    ensures '0' <= ch <= '9'
  {
    ('0' as int + d) as char
  }

  predicate Digits(s: string) {
    s != "" && forall i :: 0 <= i < |s| ==> '0' <= s[i] <= '9'
  }

  /** Decimal notation without leading zeros. */
  function Decimal(n: nat): (s: string)
    ensures Digits(s)
  {
    if n < 10 then [Digit(n)] else Decimal(n / 10) + [Digit(n % 10)]
  }

  // ---------- filepath.Base and filepath.Join on slash-separated paths ----------

  function TrimSlashes(p: string): (r: string)
    ensures r <= p && (r != "" ==> r[|r| - 1] != '/')
  {
    if p != "" && p[|p| - 1] == '/' then TrimSlashes(p[..|p| - 1]) else p
  }

  function LastElement(p: string): (r: string)
    ensures '/' !in r && |r| <= |p|
  {
    if p == "" || p[|p| - 1] == '/' then "" else LastElement(p[..|p| - 1]) + [p[|p| - 1]]
  }

  function Base(p: string): string {
    if p == "" then "."
    else
      var last := LastElement(TrimSlashes(p));
      if last == "" then "/" else last
  }

  /** A name that stays a file name when joined below a directory. */
  ghost predicate Ordinary(name: string) {
    name != "" && '/' !in name && name != "." && name != ".."
  }

  /** The directory above a clean absolute path. */
  function Parent(dir: string): string {
    var up := TrimSlashes(dir[..|dir| - |LastElement(dir)|]);
    if up == "" then "/" else up
  }

  /** filepath.Join of a clean absolute directory and a name produced by Base. */
  function Join(dir: string, name: string): string {
    if name == "/" || name == "." then dir
    else if name == ".." then Parent(dir)
    else dir + "/" + name
  }

  ghost predicate CleanDir(dir: string) {
    |dir| > 1 && dir[0] == '/' && dir[|dir| - 1] != '/'
  }

  lemma {:induction false} LastElementOf(dir: string, name: string)
    requires '/' !in name
    ensures LastElement(dir + "/" + name) == name
    decreases |name|
  {
    var p := dir + "/" + name;
    if name == "" {
      assert p[|p| - 1] == '/';
    } else {
      var short := name[..|name| - 1];
      LastElementOf(dir, short);
      assert p[|p| - 1] == name[|name| - 1];
      assert p[..|p| - 1] == dir + "/" + short;
      assert name == short + [name[|name| - 1]];
    }
  }

  /** A joined file keeps its name. */
  lemma BaseOfJoin(dir: string, name: string)
    requires Ordinary(name)
    ensures Base(Join(dir, name)) == name && Join(dir, name) == dir + "/" + name
  {
    var p := dir + "/" + name;
    assert p[|p| - 1] == name[|name| - 1];
    assert name != "/" by { assert "/"[0] == '/'; }
    LastElementOf(dir, name);
  }

  /** Joining yields a file below the directory exactly for ordinary names. */
  lemma JoinStaysBelow(dir: string, path: string)
    requires CleanDir(dir)
    ensures Join(dir, Base(path)) == dir + "/" + Base(path) <==> Ordinary(Base(path))
  {
    var name := Base(path);
    if !Ordinary(name) {
      var p := dir + "/" + name;
      assert |p| > |dir|;
      if name == ".." { assert |Parent(dir)| <= |dir|; }
    } else {
      BaseOfJoin(dir, name);
    }
  }
}
