/** The content hash of a ConfigMap and the rollout annotation made from it. */
module ConfigHash {
  import opened Kube
  import opened Text
  import opened Ordering

  type Data = map<string, string>

  /** An entry is written as key, NUL, value, NUL. */
  function Piece(k: string, v: string): string { k + [NUL] + v + [NUL] }

  function Encode(entries: seq<(string, string)>): string {
    if entries == [] then "" else Piece(entries[0].0, entries[0].1) + Encode(entries[1..])
  }

  function Entries(keys: seq<string>, data: Data): seq<(string, string)>
    requires forall i :: 0 <= i < |keys| ==> keys[i] in data
  {
    seq(|keys|, i requires 0 <= i < |keys| => (keys[i], data[keys[i]]))
  }

  /** The keys in the one order that sorting gives them. */
  ghost predicate KeyOrder(keys: seq<string>, data: Data) {
    StrictlySorted(keys) && Elements(keys) == data.Keys
  }

  ghost predicate Encodes(text: string, data: Data) {
    exists keys ::
      && KeyOrder(keys, data) && (forall i :: 0 <= i < |keys| ==> keys[i] in data)
      && text == Encode(Entries(keys, data))
  }

  lemma Associative(a: string, b: string, c: string)
    ensures a + b + c == a + (b + c)
  {
  }

  lemma {:induction false} EncodeSnoc(entries: seq<(string, string)>, last: (string, string))
    ensures Encode(entries + [last]) == Encode(entries) + Piece(last.0, last.1)
  {
    var all := entries + [last];
    if entries == [] {
      assert all == [last] && all[1..] == [];
      assert Encode(all) == Piece(last.0, last.1) + "";
    } else {
      var e, rest := entries[0], entries[1..];
      assert all[0] == e && all[1..] == rest + [last];
      EncodeSnoc(rest, last);
      Associative(Piece(e.0, e.1), Encode(rest), Piece(last.0, last.1));
    }
  }

  /** The string that ConfigMapDataHash hashes. The keys come out of the map in any order. */
  method EncodeData(data: Data) returns (text: string)
    ensures Encodes(text, data)
  {
    var keys := SortedElements(data.Keys);
    assert forall i :: 0 <= i < |keys| ==> keys[i] in Elements(keys);
    text := "";
    for i := 0 to |keys|
      invariant text == Encode(Entries(keys[..i], data))
    {
      EncodeSnoc(Entries(keys[..i], data), (keys[i], data[keys[i]]));
      assert Entries(keys[..i + 1], data) == Entries(keys[..i], data) + [(keys[i], data[keys[i]])];
      text := text + Piece(keys[i], data[keys[i]]);
    }
    assert keys[..|keys|] == keys;
  }

  /** A map has one encoding, whatever order its keys were visited in. */
  lemma EncodingIsFunctional(s: string, t: string, data: Data)
    requires Encodes(s, data) && Encodes(t, data)
    ensures s == t
  {
    var a :| KeyOrder(a, data) && (forall i :: 0 <= i < |a| ==> a[i] in data) && s == Encode(Entries(a, data));
    var b :| KeyOrder(b, data) && (forall i :: 0 <= i < |b| ==> b[i] in data) && t == Encode(Entries(b, data));
    SortedIsUnique(a, b);
  }

  // ---------- Injectivity ----------

  ghost predicate NulFree(data: Data) {
    forall k :: k in data ==> NUL !in k && NUL !in data[k]
  }

  ghost predicate NulFreeEntries(entries: seq<(string, string)>) {
    forall i :: 0 <= i < |entries| ==> NUL !in entries[i].0 && NUL !in entries[i].1
  }

  lemma {:induction false} EncodeInjective(a: seq<(string, string)>, b: seq<(string, string)>)
    requires NulFreeEntries(a) && NulFreeEntries(b) && Encode(a) == Encode(b)
    ensures a == b
    decreases |a|
  {
    EncodeEmpty(a);
    EncodeEmpty(b);
    if a != [] && b != [] {
      FirstEntry(a[0], Encode(a[1..]), b[0], Encode(b[1..]));
      EncodeInjective(a[1..], b[1..]);
      assert a == [a[0]] + a[1..] && b == [b[0]] + b[1..];
    }
  }

  lemma EncodeEmpty(a: seq<(string, string)>)
    ensures Encode(a) == "" <==> a == []
  {
    if a != [] { assert |Encode(a)| >= |Piece(a[0].0, a[0].1)| > 0; }
  }

  lemma FirstEntry(e: (string, string), rest: string, f: (string, string), more: string)
    requires NUL !in e.0 && NUL !in e.1 && NUL !in f.0 && NUL !in f.1
    requires Piece(e.0, e.1) + rest == Piece(f.0, f.1) + more
    ensures e == f && rest == more
  {
    assert Piece(e.0, e.1) + rest == e.0 + [NUL] + (e.1 + [NUL] + rest);
    assert Piece(f.0, f.1) + more == f.0 + [NUL] + (f.1 + [NUL] + more);
    SplitUnique(e.0, e.1 + [NUL] + rest, f.0, f.1 + [NUL] + more, NUL);
    SplitUnique(e.1, rest, f.1, more, NUL);
  }

  lemma {:induction false} EntriesDetermineData(ka: seq<string>, a: Data, kb: seq<string>, b: Data)
    requires Elements(ka) == a.Keys && Elements(kb) == b.Keys
    requires (forall i :: 0 <= i < |ka| ==> ka[i] in a) && (forall i :: 0 <= i < |kb| ==> kb[i] in b)
    requires Entries(ka, a) == Entries(kb, b)
    ensures a == b
  {
    var ea, eb := Entries(ka, a), Entries(kb, b);
    assert |ka| == |ea| && |kb| == |eb|;
    assert forall i :: 0 <= i < |ka| ==> ea[i] == (ka[i], a[ka[i]]);
    assert forall i :: 0 <= i < |kb| ==> eb[i] == (kb[i], b[kb[i]]);
    assert forall i :: 0 <= i < |ka| ==> ka[i] == kb[i] && a[ka[i]] == b[kb[i]];
    assert ka == kb;
    assert a.Keys == b.Keys;
    forall k | k in a ensures a[k] == b[k] {
      assert k in Elements(ka);
    }
  }

  lemma EntriesAreNulFree(keys: seq<string>, data: Data)
    requires NulFree(data) && forall i :: 0 <= i < |keys| ==> keys[i] in data
    ensures NulFreeEntries(Entries(keys, data))
  {
  }

  /** On NUL-free maps the encoding is injective. */
  lemma {:induction false} SameEncodingSameData(text: string, a: Data, b: Data)
    requires NulFree(a) && NulFree(b) && Encodes(text, a) && Encodes(text, b)
    ensures a == b
  {
    var ka :| KeyOrder(ka, a) && (forall i :: 0 <= i < |ka| ==> ka[i] in a) && text == Encode(Entries(ka, a));
    var kb :| KeyOrder(kb, b) && (forall i :: 0 <= i < |kb| ==> kb[i] in b) && text == Encode(Entries(kb, b));
    EntriesAreNulFree(ka, a);
    EntriesAreNulFree(kb, b);
    EncodeInjective(Entries(ka, a), Entries(kb, b));
    EntriesDetermineData(ka, a, kb, b);
  }

  /** With a NUL inside a value, an entry can pass for two. */
  lemma NulMergesEntries(k: string, v: string, l: string, w: string)
    requires Less(k, l)
    ensures var one, two: Data := map[k := v + [NUL] + l + [NUL] + w], map[k := v, l := w];
            one != two && exists text :: Encodes(text, one) && Encodes(text, two)
  {
    LessIsTotal(k, l);
    var one: Data := map[k := v + [NUL] + l + [NUL] + w];
    var two: Data := map[k := v, l := w];
    assert Elements([k]) == one.Keys && Elements([k, l]) == two.Keys;
    var e1, e2 := Entries([k], one), Entries([k, l], two);
    assert e1 == [(k, v + [NUL] + l + [NUL] + w)] && e2 == [(k, v), (l, w)];
    assert e1[1..] == [] && e2[1..] == [(l, w)] && e2[1..][1..] == [];
    assert Encode(e2[1..]) == Piece(l, w) + "";
    assert Encode(e1) == Piece(k, v + [NUL] + l + [NUL] + w) + "" == Piece(k, v) + Piece(l, w) == Encode(e2);
    assert KeyOrder([k], one) && KeyOrder([k, l], two);
    assert Encodes(Encode(e1), one) && Encodes(Encode(e1), two);
    assert l in two && l !in one;
  }

  // ---------- Exactly when it is not injective ----------

  ghost function Nuls(s: string): nat { multiset(s)[NUL] }

  lemma NulsAdd(a: string, b: string)
    ensures Nuls(a + b) == Nuls(a) + Nuls(b)
  {
  }

  lemma NulsOfPiece(k: string, v: string)
    ensures Nuls(Piece(k, v)) == Nuls(k) + Nuls(v) + 2
  {
    NulsAdd(k, [NUL]);
    NulsAdd(k + [NUL], v);
    NulsAdd(k + [NUL] + v, [NUL]);
  }

  lemma NoNuls(s: string)
    ensures Nuls(s) == 0 <==> NUL !in s
  {
  }

  /** An encoding with at most two NULs is of one NUL-free entry, or of none. */
  lemma {:induction false} FewNuls(entries: seq<(string, string)>)
    ensures Nuls(Encode(entries)) >= 2 * |entries|
    ensures Nuls(Encode(entries)) <= 2 ==> NulFreeEntries(entries)
  {
    if entries != [] {
      var e, rest := entries[0], entries[1..];
      FewNuls(rest);
      NulsOfPiece(e.0, e.1);
      NulsAdd(Piece(e.0, e.1), Encode(rest));
      NoNuls(e.0);
      NoNuls(e.1);
    }
  }

  lemma {:induction false} EndsInNul(entries: seq<(string, string)>)
    requires entries != []
    ensures var text := Encode(entries); text != "" && text[|text| - 1] == NUL
  {
    var rest := entries[1..];
    if rest != [] { EndsInNul(rest); }
  }

  lemma EncodingEndsInNul(text: string, a: Data)
    requires Encodes(text, a) && text != ""
    ensures text[|text| - 1] == NUL
  {
    var ka :| KeyOrder(ka, a) && (forall i :: 0 <= i < |ka| ==> ka[i] in a) && text == Encode(Entries(ka, a));
    EncodeEmpty(Entries(ka, a));
    EndsInNul(Entries(ka, a));
  }

  lemma SingleEntry(k: string, v: string)
    ensures Encodes(Piece(k, v), map[k := v])
  {
    var data: Data := map[k := v];
    var e := Entries([k], data);
    assert e == [(k, v)] && e[1..] == [];
    assert Encode(e) == Piece(k, v) + "";
    assert Elements([k]) == data.Keys;
    assert KeyOrder([k], data);
  }

  lemma {:induction false} FirstNul(s: string) returns (x: string, y: string)
    requires Nuls(s) > 0
    ensures s == x + [NUL] + y && NUL !in x && Nuls(y) == Nuls(s) - 1
  {
    NoNuls(s);
    var rest := s[1..];
    assert s == [s[0]] + rest;
    NulsAdd([s[0]], rest);
    if s[0] == NUL {
      x, y := "", rest;
    } else {
      x, y := FirstNul(rest);
      x := [s[0]] + x;
    }
  }

  /** One text, two single entries: the key may end at the first NUL or at the second. */
  lemma TwoKeys(x: string, y: string, w: string)
    ensures Piece(x, y + [NUL] + w) == Piece(x + [NUL] + y, w) == x + [NUL] + (y + [NUL] + (w + [NUL]))
    ensures var one, two: Data := map[x := y + [NUL] + w], map[x + [NUL] + y := w]; one != two
  {
    var one, two: Data := map[x := y + [NUL] + w], map[x + [NUL] + y := w];
    assert x in one && |x| < |x + [NUL] + y|;
  }

  /** A text with three NULs or more that ends in one is read in two ways as a single entry. */
  lemma TwoReadings(text: string) returns (one: Data, two: Data)
    requires Nuls(text) > 2 && text[|text| - 1] == NUL
    ensures one != two && Encodes(text, one) && Encodes(text, two)
  {
    var x, rest := FirstNul(text);
    var y, z := FirstNul(rest);
    NoNuls(z);
    assert text == (x + [NUL] + (y + [NUL])) + z;
    assert z[|z| - 1] == text[|text| - 1];
    var w := z[..|z| - 1];
    assert z == w + [NUL];
    TwoKeys(x, y, w);
    SingleEntry(x, y + [NUL] + w);
    SingleEntry(x + [NUL] + y, w);
    one, two := map[x := y + [NUL] + w], map[x + [NUL] + y := w];
  }

  /** Another map has the same encoding exactly when the encoding has more than two NULs. */
  lemma CollidesExactly(text: string, a: Data)
    requires Encodes(text, a)
    ensures (exists b :: b != a && Encodes(text, b)) <==> Nuls(text) > 2
  {
    if Nuls(text) > 2 {
      EncodingEndsInNul(text, a);
      var one, two := TwoReadings(text);
      var b := if one == a then two else one;
      assert b != a && Encodes(text, b);
    } else {
      FewNulsIsNulFree(text, a);
      forall b | Encodes(text, b) ensures b == a {
        FewNulsIsNulFree(text, b);
        SameEncodingSameData(text, a, b);
      }
    }
  }

  lemma FewNulsIsNulFree(text: string, a: Data)
    requires Encodes(text, a) && Nuls(text) <= 2
    ensures NulFree(a)
  {
    var ka :| KeyOrder(ka, a) && (forall i :: 0 <= i < |ka| ==> ka[i] in a) && text == Encode(Entries(ka, a));
    var e := Entries(ka, a);
    FewNuls(e);
    forall k | k in a ensures NUL !in k && NUL !in a[k] {
      assert k in Elements(ka);
      var i :| 0 <= i < |ka| && ka[i] == k;
      assert e[i] == (k, a[k]);
    }
  }

  // ---------- The rollout annotation ----------

  const CONFIG_HASH := "kubernaut.ai/configmap-hash"

  ghost predicate Injective(digest: string -> string) {
    forall x, y :: digest(x) == digest(y) ==> x == y
  }

  method ConfigMapDataHash(data: Data, digest: string -> string) returns (hash: string)
    ensures HashOf(hash, data, digest)
  {
    var text := EncodeData(data);
    hash := digest(text);
  }

  ghost predicate HashOf(hash: string, data: Data, digest: string -> string) {
    exists text :: Encodes(text, data) && hash == digest(text)
  }

  /** Equal hashes exactly for equal contents. */
  lemma HashExactly(h: string, a: Data, g: string, b: Data, digest: string -> string)
    requires Injective(digest) && NulFree(a) && NulFree(b) && HashOf(h, a, digest) && HashOf(g, b, digest)
    ensures h == g <==> a == b
  {
    var s :| Encodes(s, a) && h == digest(s);
    var t :| Encodes(t, b) && g == digest(t);
    if a == b { EncodingIsFunctional(s, t, a); }
    if h == g { SameEncodingSameData(s, a, b); }
  }

  /** A component's builder gives its ConfigMap data, nothing, or an error. */
  datatype Built = Configured(data: Data) | Skipped | BuildError

  ghost predicate HashesOf(hashes: map<string, string>, builders: seq<(string, Built)>, n: nat,
                           digest: string -> string)
    requires n <= |builders|
  {
    && (forall i :: 0 <= i < n && builders[i].1.Configured? ==>
          builders[i].0 in hashes && HashOf(hashes[builders[i].0], builders[i].1.data, digest))
    && (forall c :: c in hashes ==> BuiltBefore(builders, n, c))
  }

  ghost predicate BuiltBefore(builders: seq<(string, Built)>, n: nat, component: string)
    requires n <= |builders|
  {
    exists i :: 0 <= i < n && builders[i].0 == component && builders[i].1.Configured?
  }

  ghost predicate DistinctNames(builders: seq<(string, Built)>) {
    forall i, j :: 0 <= i < j < |builders| ==> builders[i].0 != builders[j].0
  }

  function WithHash(hashes: map<string, string>, b: (string, Built), hash: string): map<string, string> {
    if b.1.Configured? then hashes[b.0 := hash] else hashes
  }

  lemma OneMoreHash(hashes: map<string, string>, builders: seq<(string, Built)>, n: nat, hash: string,
                    digest: string -> string)
    requires n < |builders| && DistinctNames(builders)
    requires HashesOf(hashes, builders, n, digest) && !builders[n].1.BuildError?
    requires builders[n].1.Configured? ==> HashOf(hash, builders[n].1.data, digest)
    ensures HashesOf(WithHash(hashes, builders[n], hash), builders, n + 1, digest)
  {
    var next := WithHash(hashes, builders[n], hash);
    forall i | 0 <= i < n + 1 && builders[i].1.Configured?
      ensures builders[i].0 in next && HashOf(next[builders[i].0], builders[i].1.data, digest)
    {
      if i < n { assert builders[i].0 != builders[n].0; }
    }
    forall c | c in next ensures BuiltBefore(builders, n + 1, c) {
      if c in hashes {
        var i :| 0 <= i < n && builders[i].0 == c && builders[i].1.Configured?;
      } else {
        assert builders[n].0 == c;
      }
    }
  }

  method AddHash(hashes: map<string, string>, builders: seq<(string, Built)>, n: nat, digest: string -> string)
    returns (next: map<string, string>)
    requires n < |builders| && DistinctNames(builders) && HashesOf(hashes, builders, n, digest)
    requires !builders[n].1.BuildError?
    ensures HashesOf(next, builders, n + 1, digest)
  {
    var hash := "";
    if builders[n].1.Configured? { hash := ConfigMapDataHash(builders[n].1.data, digest); }
    OneMoreHash(hashes, builders, n, hash, digest);
    next := WithHash(hashes, builders[n], hash);
  }

  /** None of the first `n` builders fails. */
  ghost predicate AllBuild(builders: seq<(string, Built)>, n: nat)
    requires n <= |builders|
  {
    forall i :: 0 <= i < n ==> !builders[i].1.BuildError?
  }

  /** buildConfigMapSet: fails closed on the first builder error. */
  method BuildHashes(builders: seq<(string, Built)>, digest: string -> string) returns (r: Option<map<string, string>>)
    requires DistinctNames(builders)
    ensures r.Some? <==> AllBuild(builders, |builders|)
    ensures r.Some? ==> HashesOf(r.value, builders, |builders|, digest)
  {
    var hashes: map<string, string> := map[];
    for i := 0 to |builders|
      invariant HashesOf(hashes, builders, i, digest) && AllBuild(builders, i)
    {
      if builders[i].1.BuildError? { return None; }
      hashes := AddHash(hashes, builders, i, digest);
    }
    r := Some(hashes);
  }

  // ---------- Joined hashes ----------

  /** A component's configuration: its ConfigMap, and a second one for some components. */
  datatype Content = Content(main: Data, extra: Option<Data>)

  ghost predicate NulFreeContent(c: Content) {
    NulFree(c.main) && (c.extra.Some? ==> NulFree(c.extra.value))
  }

  /** How the hash of a component's configuration is put together. */
  datatype Joint = Single | AgentJoint | ConsoleJoint

  ghost predicate Describes(hash: string, c: Content, joint: Joint, digest: string -> string) {
    exists h, g :: Parts(h, g, c, digest) && hash == JoinHashes(h, g, c, joint) && (joint.Single? ==> c.extra.None?)
  }

  /** The hashes of the two ConfigMaps; the second reads as empty where there is none. */
  ghost predicate Parts(h: string, g: string, c: Content, digest: string -> string) {
    HashOf(h, c.main, digest) && if c.extra.Some? then HashOf(g, c.extra.value, digest) else g == ""
  }

  /** Kubernaut Agent's plus sign comes with its runtime ConfigMap; the console's is always
      there. */
  function JoinHashes(h: string, g: string, c: Content, joint: Joint): string {
    match joint
    case Single => h
    case AgentJoint => if c.extra.Some? then h + "+" + g else h
    case ConsoleJoint => h + "+" + g
  }

  /** Hexadecimal digests of distinct texts. */
  ghost predicate Hexadecimal(digest: string -> string) {
    Injective(digest) && forall x :: digest(x) != "" && '+' !in digest(x)
  }

  lemma PlusSplits(a: string, p: string, b: string, q: string)
    requires '+' !in a && '+' !in b
    ensures a + "+" + p == b + "+" + q <==> a == b && p == q
    ensures a + "+" + p != b
  {
    if a + "+" + p == b + "+" + q { SplitUnique(a, p, b, q, '+'); }
    assert (a + "+" + p)[|a|] == '+';
  }

  lemma PartsAreHex(h: string, g: string, c: Content, digest: string -> string)
    requires Hexadecimal(digest) && Parts(h, g, c, digest)
    ensures '+' !in h && '+' !in g && h != "" && (g == "" <==> c.extra.None?)
  {
    var s :| Encodes(s, c.main) && h == digest(s);
    if c.extra.Some? { var t :| Encodes(t, c.extra.value) && g == digest(t); }
  }

  lemma PartsExactly(h: string, g: string, c: Content, h': string, g': string, c': Content, digest: string -> string)
    requires Hexadecimal(digest) && NulFreeContent(c) && NulFreeContent(c')
    requires Parts(h, g, c, digest) && Parts(h', g', c', digest)
    ensures h == h' && g == g' <==> c == c'
  {
    PartsAreHex(h, g, c, digest);
    PartsAreHex(h', g', c', digest);
    HashExactly(h, c.main, h', c'.main, digest);
    if c.extra.Some? && c'.extra.Some? { HashExactly(g, c.extra.value, g', c'.extra.value, digest); }
  }

  /** A joined hash tells any two configurations of the component apart, also where its second
      ConfigMap appears or disappears. */
  lemma JoinedExactly(hash: string, c: Content, hash': string, c': Content, joint: Joint, digest: string -> string)
    requires Hexadecimal(digest) && NulFreeContent(c) && NulFreeContent(c')
    requires Describes(hash, c, joint, digest) && Describes(hash', c', joint, digest)
    ensures hash == hash' <==> c == c'
  {
    var h, g :| Parts(h, g, c, digest) && hash == JoinHashes(h, g, c, joint) && (joint.Single? ==> c.extra.None?);
    var h', g' :|
      Parts(h', g', c', digest) && hash' == JoinHashes(h', g', c', joint) && (joint.Single? ==> c'.extra.None?);
    PartsExactly(h, g, c, h', g', c', digest);
    PartsAreHex(h, g, c, digest);
    PartsAreHex(h', g', c', digest);
    PlusSplits(h, g, h', g');
    PlusSplits(h', g', h, g);
  }

  const AGENT := "kubernaut-agent"
  const CONSOLE := "console"
  const PROXY := "console-oauth2-proxy"

  /** buildCoreConfigMaps: the runtime ConfigMap's hash joins that of Kubernaut Agent. */
  function JoinAgent(hashes: map<string, string>, runtime: Option<string>): map<string, string> {
    if runtime.Some? && AGENT in hashes then hashes[AGENT := hashes[AGENT] + "+" + runtime.value] else hashes
  }

  /** appendOptionalComponentConfigMaps, with the console enabled. */
  function JoinConsole(hashes: map<string, string>): map<string, string> {
    hashes[CONSOLE := Lookup(hashes, CONSOLE) + "+" + Lookup(hashes, PROXY)] - {PROXY}
  }

  /** The joined hash describes both ConfigMaps of Kubernaut Agent, and no other hash changes. */
  lemma AgentJoinDescribes(hashes: map<string, string>, c: Content, runtime: Option<string>, digest: string -> string)
    requires AGENT in hashes && HashOf(hashes[AGENT], c.main, digest) && (runtime.Some? <==> c.extra.Some?)
    requires runtime.Some? ==> HashOf(runtime.value, c.extra.value, digest)
    ensures var joined := JoinAgent(hashes, runtime);
            && AGENT in joined && Describes(joined[AGENT], c, AgentJoint, digest)
            && joined - {AGENT} == hashes - {AGENT}
  {
    var g := if runtime.Some? then runtime.value else "";
    assert Parts(hashes[AGENT], g, c, digest);
    assert JoinAgent(hashes, runtime)[AGENT] == JoinHashes(hashes[AGENT], g, c, AgentJoint);
  }

  /** The same for the console, whose proxy no longer has a hash of its own. */
  lemma ConsoleJoinDescribes(hashes: map<string, string>, c: Content, digest: string -> string)
    requires CONSOLE in hashes && HashOf(hashes[CONSOLE], c.main, digest) && (PROXY in hashes <==> c.extra.Some?)
    requires PROXY in hashes ==> HashOf(hashes[PROXY], c.extra.value, digest)
    ensures var joined := JoinConsole(hashes);
            && CONSOLE in joined && Describes(joined[CONSOLE], c, ConsoleJoint, digest)
            && joined - {CONSOLE} == hashes - {CONSOLE, PROXY}
  {
    assert |CONSOLE| == 7 && |PROXY| == 20;
    assert Parts(hashes[CONSOLE], Lookup(hashes, PROXY), c, digest);
    assert JoinConsole(hashes)[CONSOLE] == JoinHashes(hashes[CONSOLE], Lookup(hashes, PROXY), c, ConsoleJoint);
  }

  // ---------- Rollout ----------

  /** stampConfigMapHash, on the Pod template's annotations. */
  function Stamp(annotations: map<string, string>, component: string, hashKeys: map<string, string>,
                 hashes: map<string, string>): map<string, string> {
    if component in hashKeys && hashKeys[component] in hashes
    then annotations[CONFIG_HASH := hashes[hashKeys[component]]]
    else annotations
  }

  /** The hashes describe the component's configuration, and hold none where it has none. */
  ghost predicate Tells(hashes: map<string, string>, key: string, c: Option<Content>, joint: Joint,
                        digest: string -> string) {
    && (key in hashes <==> c.Some?)
    && (key in hashes && c.Some? ==> Describes(hashes[key], c.value, joint, digest))
  }

  /** Two passes over the same template: the Pod template changes, and so Pods roll over,
      exactly when the component's configuration changed, appeared or disappeared. A component
      without a hash key never rolls over for its configuration. */
  lemma RolloutExactly(annotations: map<string, string>, component: string, hashKeys: map<string, string>, joint: Joint,
                       before: map<string, string>, earlier: Option<Content>,
                       after: map<string, string>, later: Option<Content>, digest: string -> string)
    requires Hexadecimal(digest) && CONFIG_HASH !in annotations
    requires (earlier.Some? ==> NulFreeContent(earlier.value)) && (later.Some? ==> NulFreeContent(later.value))
    requires component in hashKeys ==>
               && Tells(before, hashKeys[component], earlier, joint, digest)
               && Tells(after, hashKeys[component], later, joint, digest)
    ensures Stamp(annotations, component, hashKeys, before) == Stamp(annotations, component, hashKeys, after) <==>
            component !in hashKeys || earlier == later
  {
    if component in hashKeys {
      var key := hashKeys[component];
      var was, now := Stamp(annotations, component, hashKeys, before), Stamp(annotations, component, hashKeys, after);
      assert CONFIG_HASH in was <==> earlier.Some?;
      assert CONFIG_HASH in now <==> later.Some?;
      if earlier.Some? && later.Some? {
        JoinedExactly(before[key], earlier.value, after[key], later.value, joint, digest);
        assert was[CONFIG_HASH] == before[key] && now[CONFIG_HASH] == after[key];
      }
    }
  }

  /** What buildConfigMapSet recorded tells of each component with one ConfigMap. */
  lemma HashesTell(hashes: map<string, string>, builders: seq<(string, Built)>, i: nat, digest: string -> string)
    requires DistinctNames(builders) && HashesOf(hashes, builders, |builders|, digest)
    requires i < |builders| && !builders[i].1.BuildError?
    ensures var b := builders[i].1;
            Tells(hashes, builders[i].0, if b.Configured? then Some(Content(b.data, None)) else None, Single, digest)
  {
    var key, b := builders[i].0, builders[i].1;
    if b.Configured? {
      assert Parts(hashes[key], "", Content(b.data, None), digest);
      assert hashes[key] == JoinHashes(hashes[key], "", Content(b.data, None), Single);
    } else {
      assert forall j :: 0 <= j < |builders| && builders[j].0 == key ==> j == i;
      assert !BuiltBefore(builders, |builders|, key);
    }
  }
}
