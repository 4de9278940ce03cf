/** Requirements on administrator-owned ConfigMaps and Secrets: collected with
    deduplication, checked against the store, and watched. */
module Precreated {
  import opened Text

  datatype Kind = ConfigMapRef | SecretRef

  function KindName(k: Kind): string { if k.ConfigMapRef? then "ConfigMap" else "Secret" }

  datatype Reference = Reference(kind: Kind, path: string, name: string, required: seq<string>,
                                 pem: seq<string>, json: seq<string>, singleLine: seq<string>)

  /** What some part of the operator will rely on. */
  datatype Requirement =
    | NeedsKey(kind: Kind, name: string, key: string)
    | NeedsPem(name: string, key: string)
    | NeedsJson(name: string, key: string)
    | NeedsSingleLine(name: string, key: string)
    | NeedsPair(name: string)   // a certificate and its private key

  const CERTIFICATE := "tls.crt"
  const PRIVATE_KEY := "tls.key"

  // ---------- Identity of a reference ----------

  function JoinNul(keys: seq<string>): string {
    if keys == [] then "" else if |keys| == 1 then keys[0] else keys[0] + [NUL] + JoinNul(keys[1..])
  }

  function Identity(kind: Kind, name: string, keys: seq<string>): string {
    KindName(kind) + "/" + name + "/" + JoinNul(keys)
  }

  /** Object names have no slash and data keys no NUL, as Kubernetes demands. */
  ghost predicate Plain(name: string, keys: seq<string>) {
    '/' !in name && keys != [] && forall i :: 0 <= i < |keys| ==> NUL !in keys[i]
  }

  lemma {:induction false} JoinedHasNul(keys: seq<string>)
    requires keys != [] && forall i :: 0 <= i < |keys| ==> NUL !in keys[i]
    ensures NUL in JoinNul(keys) <==> |keys| > 1
  {
    if |keys| > 1 { assert JoinNul(keys)[|keys[0]|] == NUL; }
  }

  lemma {:induction false} JoinNulInjective(a: seq<string>, b: seq<string>)
    requires a != [] && b != [] && JoinNul(a) == JoinNul(b)
    requires (forall i :: 0 <= i < |a| ==> NUL !in a[i]) && (forall i :: 0 <= i < |b| ==> NUL !in b[i])
    ensures a == b
    decreases |a|
  {
    JoinedHasNul(a);
    JoinedHasNul(b);
    if |a| > 1 {
      SplitUnique(a[0], JoinNul(a[1..]), b[0], JoinNul(b[1..]), NUL);
      JoinNulInjective(a[1..], b[1..]);
      assert a == [a[0]] + a[1..] && b == [b[0]] + b[1..];
    }
  }

  lemma KindNames(k: Kind, k': Kind)
    ensures '/' !in KindName(k) && (KindName(k) == KindName(k') <==> k == k')
  {
    assert |KindName(ConfigMapRef)| == 9 && |KindName(SecretRef)| == 6;
  }

  lemma TwoSlashes(a: string, b: string, c: string, a': string, b': string, c': string)
    requires '/' !in a && '/' !in b && '/' !in a' && '/' !in b' && a + "/" + b + "/" + c == a' + "/" + b' + "/" + c'
    ensures a == a' && b == b' && c == c'
  {
    var rest, rest' := b + "/" + c, b' + "/" + c';
    assert a + "/" + rest == a + "/" + b + "/" + c && a' + "/" + rest' == a' + "/" + b' + "/" + c';
    SplitUnique(a, rest, a', rest', '/');
    SplitUnique(b, c, b', c', '/');
  }

  lemma IdentityInjective(k: Kind, name: string, keys: seq<string>, k': Kind, name': string, keys': seq<string>)
    requires Plain(name, keys) && Plain(name', keys') && Identity(k, name, keys) == Identity(k', name', keys')
    ensures k == k' && name == name' && keys == keys'
  {
    KindNames(k, k');
    KindNames(k', k);
    TwoSlashes(KindName(k), name, JoinNul(keys), KindName(k'), name', JoinNul(keys'));
    JoinNulInjective(keys, keys');
  }

  /** Outside those names two different references can look the same. */
  lemma SlashedNamesCollide()
    ensures Identity(SecretRef, "a/b", ["c"]) == Identity(SecretRef, "a", ["b/c"])
  {
  }

  // ---------- Carrying a requirement ----------

  ghost predicate CarriedBy(r: Reference, q: Requirement) {
    match q
    case NeedsKey(kind, name, key) => r.kind == kind && r.name == name && key in r.required
    case NeedsPem(name, key) => r.kind.SecretRef? && r.name == name && key in r.required && key in r.pem
    case NeedsJson(name, key) => r.kind.SecretRef? && r.name == name && key in r.required && key in r.json
    case NeedsSingleLine(name, key) => r.kind.SecretRef? && r.name == name && key in r.required && key in r.singleLine
    case NeedsPair(name) =>
      r.kind.SecretRef? && r.name == name && CERTIFICATE in r.required && PRIVATE_KEY in r.required
  }

  ghost predicate Carried(refs: seq<Reference>, q: Requirement) {
    exists i :: 0 <= i < |refs| && CarriedBy(refs[i], q)
  }

  ghost predicate AllCarried(refs: seq<Reference>, qs: set<Requirement>) {
    forall q :: q in qs ==> Carried(refs, q)
  }

  /** Nothing is checked that nobody wanted. */
  ghost predicate Justified(refs: seq<Reference>, qs: set<Requirement>) {
    forall i, q :: 0 <= i < |refs| && CarriedBy(refs[i], q) ==> q in qs
  }

  /** References are only added, and only gain checks. */
  ghost predicate Stronger(later: Reference, r: Reference) {
    && later.kind == r.kind && later.path == r.path && later.name == r.name && later.required == r.required
    && r.pem <= later.pem && r.json <= later.json && r.singleLine <= later.singleLine
  }

  ghost predicate Grown(later: seq<Reference>, refs: seq<Reference>) {
    |refs| <= |later| && forall i :: 0 <= i < |refs| ==> Stronger(later[i], refs[i])
  }

  lemma GrownKeeps(later: seq<Reference>, refs: seq<Reference>, qs: set<Requirement>)
    requires Grown(later, refs) && AllCarried(refs, qs)
    ensures AllCarried(later, qs)
  {
    forall q | q in qs ensures Carried(later, q) {
      var i :| 0 <= i < |refs| && CarriedBy(refs[i], q);
      assert Stronger(later[i], refs[i]);
      assert CarriedBy(later[i], q);
    }
  }

  ghost function KeyNeeds(kind: Kind, name: string, keys: seq<string>): set<Requirement> {
    (set i | 0 <= i < |keys| :: NeedsKey(kind, name, keys[i]))
    + if kind.SecretRef? && CERTIFICATE in keys && PRIVATE_KEY in keys then {NeedsPair(name)} else {}
  }

  /** Some key is asked for, and only such keys are marked as certificates. */
  ghost predicate WellMarked(r: Reference) {
    r.required != [] && forall k :: k in r.pem ==> k in r.required
  }

  ghost predicate Recorded(refs: seq<Reference>, kind: Kind, name: string, keys: seq<string>) {
    exists i :: 0 <= i < |refs| && refs[i].kind == kind && refs[i].name == name && refs[i].required == keys
  }

  class Collector {
    var references: seq<Reference>
    var errors: nat
    var seen: set<string>
    ghost var plain: bool              // every name and key so far was plain
    ghost var wanted: set<Requirement>

    ghost predicate Valid() reads this {
      && (forall id :: id in seen ==> Known(references, id))
      && (forall i :: 0 <= i < |references| ==> references[i].name != "")
      && (plain ==> forall i :: 0 <= i < |references| ==> WellMarked(references[i]))
      && (plain ==> forall i :: 0 <= i < |references| ==> Plain(references[i].name, references[i].required))
      && (plain ==> AllCarried(references, wanted)) && Justified(references, wanted)
    }

    constructor ()
      ensures Valid() && references == [] && errors == 0 && plain && wanted == {}
    {
      references, errors, seen, plain, wanted := [], 0, {}, true, {};
    }

    /** add: a reference whose identity was seen is not repeated. */
    method Add(kind: Kind, path: string, name: string, keys: seq<string>)
      requires Valid()
      modifies this
      ensures Valid() && Grown(references, old(references))
      ensures plain == (old(plain) && (name == "" || Plain(name, keys)))
      ensures errors == old(errors) + if name == "" then 1 else 0
      ensures wanted == old(wanted) + if name == "" then {} else KeyNeeds(kind, name, keys)
      ensures plain && name != "" ==> Recorded(references, kind, name, keys)
      ensures var id := Identity(kind, name, keys);
              if name == "" || id in old(seen) then references == old(references) && seen == old(seen)
              else
                && references == old(references) + [Reference(kind, path, name, keys, [], [], [])]
                && seen == old(seen) + {id}
    {
      if name == "" {
        errors := errors + 1;
        return;
      }
      plain := plain && Plain(name, keys);
      var id := Identity(kind, name, keys);
      if id !in seen { Append(kind, path, name, keys); }
      else if plain { SeenIsRecorded(references, kind, name, keys); }
      if plain { RecordedCarries(references, kind, name, keys); }
      wanted := wanted + KeyNeeds(kind, name, keys);
    }

    method Append(kind: Kind, path: string, name: string, keys: seq<string>)
      requires Valid() && name != "" && Identity(kind, name, keys) !in seen && (plain ==> Plain(name, keys))
      modifies this`references, this`seen, this`wanted
      ensures Valid() && seen == old(seen) + {Identity(kind, name, keys)}
      ensures wanted == old(wanted) + KeyNeeds(kind, name, keys)
      ensures references == old(references) + [Reference(kind, path, name, keys, [], [], [])]
      ensures Recorded(references, kind, name, keys)
    {
      ghost var before := references;
      var r := Reference(kind, path, name, keys, [], [], []);
      references := references + [r];
      assert references[|before|] == r;
      KnownStays(before, references, seen);
      seen := seen + {Identity(kind, name, keys)};
      if plain { GrownKeeps(references, before, wanted); RecordedCarries(references, kind, name, keys); }
      BareCarries(r);
      wanted := wanted + KeyNeeds(kind, name, keys);
    }

    method AddError()
      requires Valid()
      modifies this`errors
      ensures Valid() && errors == old(errors) + 1
    {
      errors := errors + 1;
    }

    /** addPEMSecretReference. */
    method AddPem(path: string, name: string, key: string)
      requires Valid()
      modifies this
      ensures Valid() && Grown(references, old(references))
      ensures plain == (old(plain) && (name == "" || Plain(name, [key])))
      ensures errors == old(errors) + if name == "" then 1 else 0
      ensures wanted == old(wanted) + if name == "" then {} else {NeedsKey(SecretRef, name, key), NeedsPem(name, key)}
    {
      Add(SecretRef, path, name, [key]);
      var i := FindSingle(name, key);
      if i < |references| {
        var r := references[i];
        Strengthen(i, r.(pem := if key in r.pem then r.pem else r.pem + [key]), {NeedsPem(name, key)});
      } else if name != "" {
        wanted := wanted + {NeedsPem(name, key)};
      }
      OneKeyNeed(SecretRef, name, key);
    }

    /** addJSONSecretReference. */
    method AddJson(path: string, name: string, key: string)
      requires Valid()
      modifies this
      ensures Valid() && Grown(references, old(references))
      ensures plain == (old(plain) && (name == "" || Plain(name, [key])))
      ensures errors == old(errors) + if name == "" then 1 else 0
      ensures wanted == old(wanted) + if name == "" then {} else {NeedsKey(SecretRef, name, key), NeedsJson(name, key)}
    {
      Add(SecretRef, path, name, [key]);
      var i := FindSingle(name, key);
      if i < |references| {
        var r := references[i];
        Strengthen(i, r.(json := if key in r.json then r.json else r.json + [key]), {NeedsJson(name, key)});
      } else if name != "" {
        wanted := wanted + {NeedsJson(name, key)};
      }
      OneKeyNeed(SecretRef, name, key);
    }

    /** addNoNewlineSecretKeys: the marks go to the first reference with this very path and
        name. If there is none, because `Add` found the same Secret and keys under another
        path, the requirement is dropped. */
    method AddNoNewline(path: string, name: string, keys: seq<string>)
      requires Valid()
      modifies this
      ensures Valid() && Grown(references, old(references)) && plain == old(plain) && errors == old(errors)
      ensures seen == old(seen)
      ensures if HasPath(old(references), path, name)
              then wanted == old(wanted) + LineNeeds(old(references), path, name, keys)
              else references == old(references) && wanted == old(wanted)
      ensures forall k :: k in keys ==> (MarkedAt(references, path, name, k) <==> HasPath(old(references), path, name))
    {
      var i := 0;
      while i < |references|
        invariant i <= |references|
        invariant forall j :: 0 <= j < i ==> !AtPath(references[j], path, name)
      {
        if AtPath(references[i], path, name) {
          var marks := Union(references[i].singleLine, keys);
          FirstAtPath(references, path, name, i);
          Strengthen(i, references[i].(singleLine := marks), LineNeeds(references, path, name, keys));
          assert AtPath(references[i], path, name) && forall k :: k in keys ==> k in references[i].singleLine;
          return;
        }
        i := i + 1;
      }
    }

    /** The first Secret reference for exactly this key. */
    method FindSingle(name: string, key: string) returns (i: nat)
      requires Valid()
      ensures i <= |references|
      ensures i < |references| ==>
                references[i].kind.SecretRef? && references[i].name == name && references[i].required == [key]
      ensures i == |references| ==> !Recorded(references, SecretRef, name, [key])
    {
      i := 0;
      while i < |references|
        invariant i <= |references|
        invariant forall j :: 0 <= j < i ==>
                    !(references[j].kind.SecretRef? && references[j].name == name && references[j].required == [key])
      {
        var r := references[i];
        if r.kind.SecretRef? && r.name == name && |r.required| == 1 && r.required[0] == key { return; }
        i := i + 1;
      }
    }

    /** Add checks to one reference. */
    method Strengthen(i: nat, r: Reference, ghost qs: set<Requirement>)
      requires Valid() && i < |references| && Stronger(r, references[i])
      requires WellMarked(references[i]) ==> WellMarked(r)
      requires forall q :: q in qs ==> CarriedBy(r, q)
      requires forall q :: CarriedBy(r, q) ==> CarriedBy(references[i], q) || q in qs
      modifies this`references, this`wanted
      ensures Valid() && Grown(references, old(references)) && |references| == |old(references)|
      ensures references == old(references)[i := r] && wanted == old(wanted) + qs
    {
      ghost var before := references;
      references := references[i := r];
      KnownStays(before, references, seen);
      if plain { GrownKeeps(references, before, wanted); }
      assert forall q :: q in qs ==> CarriedBy(references[i], q);
      wanted := wanted + qs;
    }
  }

  predicate AtPath(r: Reference, path: string, name: string) {
    r.kind.SecretRef? && r.path == path && r.name == name
  }

  ghost predicate HasPath(refs: seq<Reference>, path: string, name: string) {
    exists i :: 0 <= i < |refs| && AtPath(refs[i], path, name)
  }

  ghost predicate MarkedAt(refs: seq<Reference>, path: string, name: string, key: string) {
    exists i :: 0 <= i < |refs| && AtPath(refs[i], path, name) && key in refs[i].singleLine
  }

  /** The single-line needs that the first reference at the path can carry. */
  ghost function LineNeeds(refs: seq<Reference>, path: string, name: string, keys: seq<string>): set<Requirement> {
    if refs == [] then {}
    else if AtPath(refs[0], path, name)
    then set i | 0 <= i < |keys| && keys[i] in refs[0].required :: NeedsSingleLine(name, keys[i])
    else LineNeeds(refs[1..], path, name, keys)
  }

  lemma {:induction false} FirstAtPath(refs: seq<Reference>, path: string, name: string, i: nat)
    requires i < |refs| && AtPath(refs[i], path, name) && forall j :: 0 <= j < i ==> !AtPath(refs[j], path, name)
    ensures forall keys :: LineNeeds(refs, path, name, keys) ==
              set n | 0 <= n < |keys| && keys[n] in refs[i].required :: NeedsSingleLine(name, keys[n])
    decreases i
  {
    if i > 0 { FirstAtPath(refs[1..], path, name, i - 1); }
  }

  /** Appending each key that is not there yet. */
  method Union(marks: seq<string>, keys: seq<string>) returns (r: seq<string>)
    ensures marks <= r && forall k :: k in r <==> k in marks || k in keys
  {
    r := marks;
    for i := 0 to |keys|
      invariant marks <= r && forall k :: k in r <==> k in marks || k in keys[..i]
    {
      if keys[i] !in r { r := r + [keys[i]]; }
    }
  }

  lemma OneKeyNeed(kind: Kind, name: string, key: string)
    ensures KeyNeeds(kind, name, [key]) == {NeedsKey(kind, name, key)}
  {
    assert [key][0] == key;
    assert CERTIFICATE[4] == 'c' && PRIVATE_KEY[4] == 'k';
  }

  function IdentityOf(r: Reference): string { Identity(r.kind, r.name, r.required) }

  ghost predicate Known(refs: seq<Reference>, id: string) {
    exists i :: 0 <= i < |refs| && IdentityOf(refs[i]) == id
  }

  lemma KnownStays(before: seq<Reference>, after: seq<Reference>, ids: set<string>)
    requires Grown(after, before) && forall id :: id in ids ==> Known(before, id)
    ensures forall id :: id in ids ==> Known(after, id)
  {
    forall id | id in ids ensures Known(after, id) {
      var i :| 0 <= i < |before| && IdentityOf(before[i]) == id;
      assert Stronger(after[i], before[i]);
      assert IdentityOf(after[i]) == id;
    }
  }

  lemma SeenIsRecorded(refs: seq<Reference>, kind: Kind, name: string, keys: seq<string>)
    requires Known(refs, Identity(kind, name, keys)) && Plain(name, keys)
    requires forall i :: 0 <= i < |refs| ==> Plain(refs[i].name, refs[i].required)
    ensures Recorded(refs, kind, name, keys)
  {
    var i :| 0 <= i < |refs| && IdentityOf(refs[i]) == Identity(kind, name, keys);
    IdentityInjective(refs[i].kind, refs[i].name, refs[i].required, kind, name, keys);
  }

  lemma BareCarries(r: Reference)
    requires r.pem == [] && r.json == [] && r.singleLine == []
    ensures forall q :: CarriedBy(r, q) ==> q in KeyNeeds(r.kind, r.name, r.required)
  {
    forall q | CarriedBy(r, q) ensures q in KeyNeeds(r.kind, r.name, r.required) {
      if !q.NeedsPair? { var i :| 0 <= i < |r.required| && r.required[i] == q.key; }
    }
  }

  lemma RecordedCarries(refs: seq<Reference>, kind: Kind, name: string, keys: seq<string>)
    requires Recorded(refs, kind, name, keys)
    ensures AllCarried(refs, KeyNeeds(kind, name, keys))
  {
    var i :| 0 <= i < |refs| && refs[i].kind == kind && refs[i].name == name && refs[i].required == keys;
    forall q | q in KeyNeeds(kind, name, keys) ensures Carried(refs, q) {
      assert CarriedBy(refs[i], q);
    }
  }

  const BARE := Reference(SecretRef, "first", "s", ["k"], [], [], [])

  /** The loss, on the smallest case: the same Secret and key under two paths, with the
      single-line rule attached to the second. */
  method RepeatedPathLosesSingleLine() returns (c: Collector)
    ensures c.plain && c.errors == 0 && !Carried(c.references, NeedsSingleLine("s", "k"))
  {
    c := CollectTwice();
    BareHasNoLine(c.references);
    c.AddNoNewline("second", "s", ["k"]);
  }

  lemma BareHasNoLine(refs: seq<Reference>)
    requires refs == [BARE]
    ensures !HasPath(refs, "second", "s") && !Carried(refs, NeedsSingleLine("s", "k"))
  {
    PathsDiffer();
  }

  method CollectTwice() returns (c: Collector)
    ensures fresh(c) && c.Valid() && c.plain && c.errors == 0 && c.references == [BARE]
  {
    c := new Collector();
    c.Add(SecretRef, "first", "s", ["k"]);
    assert c.references == [BARE];
    c.Add(SecretRef, "second", "s", ["k"]);
  }

  lemma PathsDiffer()
    ensures "first" != "second"
  {
    assert "first"[0] == 'f' && "second"[0] == 's';
  }
}
