/** Names and values of the audit HMAC key: which Secret and which key in it are meant, how
    random bytes become a value, and which values are acceptable. */
module KeyMaterial {
  import opened Kube
  import opened Text

  const SECRET_NAME := "datastorage-audit-hmac-key"
  const DEFAULT_KEY := "hmacKey"

  // ---------- Key reference ----------

  /** spec.dataStorage.audit.hashKey. */
  datatype HashKeySpec = HashKeySpec(existingSecret: string, secretKey: string)

  datatype Reference = Reference(secretName: string, secretKey: string, generated: bool)

  function ReferenceFor(spec: Option<HashKeySpec>): Reference {
    if spec.None? then Reference(SECRET_NAME, DEFAULT_KEY, true)
    else
      var s := spec.value;
      Reference(if s.existingSecret != "" then s.existingSecret else SECRET_NAME,
                if s.secretKey != "" then s.secretKey else DEFAULT_KEY,
                s.existingSecret == "")
  }

  predicate KeyNameChar(ch: char) {
    'a' <= ch <= 'z' || 'A' <= ch <= 'Z' || '0' <= ch <= '9' || ch in {'.', '_', '-'}
  }

  predicate ValidKeyName(name: string) {
    name != "" && forall i :: 0 <= i < |name| ==> KeyNameChar(name[i])
  }

  predicate LowerAlnum(ch: char) {
    'a' <= ch <= 'z' || '0' <= ch <= '9'
  }

  /** IsDNS1123Subdomain, by the characters and their neighbours. */
  predicate Subdomain(name: string) {
    && 0 < |name| <= 253 && LowerAlnum(name[0]) && LowerAlnum(name[|name| - 1])
    && (forall i :: 0 <= i < |name| ==> LowerAlnum(name[i]) || name[i] in {'-', '.'})
    && (forall i :: 0 < i < |name| - 1 && name[i] == '.' ==> LowerAlnum(name[i - 1]) && LowerAlnum(name[i + 1]))
  }

  predicate ValidReference(ref: Reference) {
    ValidKeyName(ref.secretKey) && Subdomain(ref.secretName)
  }

  /** Only an administrator's Secret switches generation off; what is set is used, and what is
      not has the stable, valid defaults. */
  lemma ReferenceResolves(spec: Option<HashKeySpec>)
    ensures var ref := ReferenceFor(spec);
            && (ref.generated <==> spec.None? || spec.value.existingSecret == "")
            && ref.secretName == (if ref.generated then "datastorage-audit-hmac-key" else spec.value.existingSecret)
            && ref.secretKey == (if spec.None? || spec.value.secretKey == "" then "hmacKey" else spec.value.secretKey)
    ensures ValidReference(ReferenceFor(None))
  {
    DefaultNamesAreValid();
  }

  lemma DefaultNamesAreValid()
    ensures Subdomain(SECRET_NAME) && ValidKeyName(DEFAULT_KEY)
  {
    assert |SECRET_NAME| == 26;
    assert forall i :: 0 <= i < 26 ==> SECRET_NAME[i] != '.' && (LowerAlnum(SECRET_NAME[i]) || SECRET_NAME[i] == '-');
  }

  // ---------- Which names are valid ----------

  ghost predicate Lower(ch: char) { 'a' <= ch <= 'z' }
  ghost predicate Upper(ch: char) { 'A' <= ch <= 'Z' }
  ghost predicate Numeral(ch: char) { '0' <= ch <= '9' }

  /** Letters, digits, dots, underscores and dashes. */
  ghost predicate KeyName(name: string) {
    name != "" && forall i :: 0 <= i < |name| ==>
      var ch := name[i]; Lower(ch) || Upper(ch) || Numeral(ch) || ch == '.' || ch == '_' || ch == '-'
  }

  /** A DNS label: lower-case letters, digits and dashes, with no dash at either end. */
  ghost predicate Label(s: string) {
    && s != "" && s[0] != '-' && s[|s| - 1] != '-'
    && forall i :: 0 <= i < |s| ==> Lower(s[i]) || Numeral(s[i]) || s[i] == '-'
  }

  /** Labels with single dots between them. */
  ghost predicate DottedLabels(s: string)
    decreases |s|
  {
    if '.' !in s then Label(s)
    else var i := IndexOf(s, '.'); Label(s[..i]) && DottedLabels(s[i + 1..])
  }

  /** The neighbour conditions of Subdomain, whatever the length. */
  ghost predicate WellDotted(s: string) {
    && s != "" && LowerAlnum(s[0]) && LowerAlnum(s[|s| - 1])
    && (forall i :: 0 <= i < |s| ==> LowerAlnum(s[i]) || s[i] in {'-', '.'})
    && (forall i :: 0 < i < |s| - 1 && s[i] == '.' ==> LowerAlnum(s[i - 1]) && LowerAlnum(s[i + 1]))
  }

  lemma {:induction false} DottedExactly(s: string)
    ensures WellDotted(s) <==> DottedLabels(s)
    decreases |s|
  {
    if '.' in s {
      var i := IndexOf(s, '.');
      DottedExactly(s[i + 1..]);
      if WellDotted(s) { SplitsWell(s, i); }
      if DottedLabels(s) { JoinsWell(s, i); }
    }
  }

  lemma SplitsWell(s: string, i: nat)
    requires i < |s| && s[i] == '.' && '.' !in s[..i] && WellDotted(s)
    ensures Label(s[..i]) && WellDotted(s[i + 1..])
  {
    var head, tail := s[..i], s[i + 1..];
    assert 0 < i < |s| - 1 && LowerAlnum(s[i - 1]) && LowerAlnum(s[i + 1]);
    assert forall j :: 0 <= j < i ==> head[j] == s[j] != '.';
    assert forall j :: 0 <= j < |tail| ==> tail[j] == s[i + 1 + j];
    forall j | 0 < j < |tail| - 1 && tail[j] == '.' ensures LowerAlnum(tail[j - 1]) && LowerAlnum(tail[j + 1]) {
      assert s[i + 1 + j] == '.' && tail[j - 1] == s[i + j] && tail[j + 1] == s[i + 2 + j];
    }
  }

  lemma JoinsWell(s: string, i: nat)
    requires i < |s| && s[i] == '.' && Label(s[..i]) && WellDotted(s[i + 1..])
    ensures WellDotted(s)
  {
    var head, tail := s[..i], s[i + 1..];
    assert head[0] == s[0] && head[i - 1] == s[i - 1] && tail[0] == s[i + 1] && tail[|tail| - 1] == s[|s| - 1];
    forall j | 0 <= j < |s| ensures LowerAlnum(s[j]) || s[j] in {'-', '.'} {
      if j < i { assert s[j] == head[j]; } else if j > i { assert s[j] == tail[j - i - 1]; }
    }
    assert forall j :: 0 <= j < i ==> s[j] == head[j] != '.';
    forall j | 0 < j < |s| - 1 && s[j] == '.' ensures LowerAlnum(s[j - 1]) && LowerAlnum(s[j + 1]) {
      if j > i { assert s[j] == tail[j - i - 1] && s[j - 1] == tail[j - i - 2] && s[j + 1] == tail[j - i]; }
    }
  }

  /** A reference is accepted exactly if the key is a key name and the Secret's name consists of
      dotted labels of at most 253 characters. */
  lemma ValidReferenceExactly(ref: Reference)
    ensures ValidReference(ref) <==>
            KeyName(ref.secretKey) && |ref.secretName| <= 253 && DottedLabels(ref.secretName)
  {
    DottedExactly(ref.secretName);
  }

  // ---------- The generated value ----------

  newtype byte = x: int | 0 <= x < 256

  ghost predicate Base64Char(ch: char) {
    'A' <= ch <= 'Z' || 'a' <= ch <= 'z' || '0' <= ch <= '9' || ch in {'+', '/', '='}
  }

  /** Table 1 of RFC 4648. */
  function Symbol(n: nat): (ch: char)
    requires n < 64
    ensures Base64Char(ch) && ch != '=' && SixBits(ch) == n
  {
    if n < 26 then ('A' as int + n) as char
    else if n < 52 then ('a' as int + n - 26) as char
    else if n < 62 then ('0' as int + n - 52) as char
    else if n == 62 then '+' else '/'
  }

  ghost predicate Base64Text(s: string) {
    forall i :: 0 <= i < |s| ==> Base64Char(s[i])
  }

  /** The characters for one to three bytes, padded to four. */
  function Quad(x: byte, y: Option<byte>, z: Option<byte>): (q: string)
    ensures |q| == 4 && Base64Text(q)
  {
    var b := if y.Some? then y.value as nat else 0;
    var c := if z.Some? then z.value as nat else 0;
    [Symbol(x as nat / 4), Symbol(x as nat % 4 * 16 + b / 16),
     if y.Some? then Symbol(b % 16 * 4 + c / 64) else '=',
     if z.Some? then Symbol(c % 64) else '=']
  }

  function At(bs: seq<byte>, i: nat): Option<byte> {
    if i < |bs| then Some(bs[i]) else None
  }

  function After(bs: seq<byte>, n: nat): seq<byte> {
    if n < |bs| then bs[n..] else []
  }

  /** Base64 with padding, section 4 of RFC 4648. */
  function Base64(bs: seq<byte>): string
    decreases |bs|
  {
    if bs == [] then "" else Quad(bs[0], At(bs, 1), At(bs, 2)) + Base64(After(bs, 3))
  }

  lemma {:induction false} Base64Shape(bs: seq<byte>)
    ensures |Base64(bs)| == (|bs| + 2) / 3 * 4 && Base64Text(Base64(bs))
    decreases |bs|
  {
    if bs != [] {
      Base64Shape(After(bs, 3));
      ShapesJoin(|bs|, Quad(bs[0], At(bs, 1), At(bs, 2)), Base64(After(bs, 3)));
    }
  }

  lemma ShapesJoin(n: nat, q: string, rest: string)
    requires n > 0 && |q| == 4 && Base64Text(q) && Base64Text(rest)
    requires |rest| == ((if n > 3 then n - 3 else 0) + 2) / 3 * 4
    ensures |q + rest| == (n + 2) / 3 * 4 && Base64Text(q + rest)
  {
  }

  /** The six bits a character stands for. */
  ghost function SixBits(ch: char): nat
    ensures SixBits(ch) < 64
  {
    if 'A' <= ch <= 'Z' then ch as int - 'A' as int
    else if 'a' <= ch <= 'z' then 26 + ch as int - 'a' as int
    else if '0' <= ch <= '9' then 52 + ch as int - '0' as int
    else if ch == '+' then 62
    else if ch == '/' then 63
    else 0
  }

  /** Four characters read as one number of 24 bits. */
  ghost function Bits(q: string): nat
    requires |q| == 4
    ensures Bits(q) < 0x100_0000
  {
    SixBits(q[0]) * 0x4_0000 + SixBits(q[1]) * 0x1000 + SixBits(q[2]) * 0x40 + SixBits(q[3])
  }

  /** The bytes of the number, from the highest; each padding character stands for one less. */
  ghost function DecodeQuad(q: string): seq<byte>
    requires |q| == 4
  {
    var n := Bits(q);
    var x, y, z := (n / 0x1_0000) as byte, (n / 0x100 % 0x100) as byte, (n % 0x100) as byte;
    if q[2] == '=' then [x] else if q[3] == '=' then [x, y] else [x, y, z]
  }

  ghost function Decode(text: string): seq<byte>
    decreases |text|
  {
    if |text| < 4 then [] else DecodeQuad(text[..4]) + Decode(text[4..])
  }

  /** Three bytes as one number. */
  lemma QuadBits(x: byte, y: Option<byte>, z: Option<byte>)
    requires y.None? ==> z.None?
    ensures var q := Quad(x, y, z);
            && Bits(q) == x as nat * 0x1_0000 + (if y.Some? then y.value as nat else 0) * 0x100
                          + (if z.Some? then z.value as nat else 0)
            && (q[2] == '=' <==> y.None?) && (q[3] == '=' <==> z.None?)
  {
  }

  lemma QuadDecodes(x: byte, y: Option<byte>, z: Option<byte>)
    requires y.None? ==> z.None?
    ensures DecodeQuad(Quad(x, y, z)) ==
            if y.None? then [x] else if z.None? then [x, y.value] else [x, y.value, z.value]
  {
    QuadBits(x, y, z);
    BytesApart(x as nat, if y.Some? then y.value as nat else 0, if z.Some? then z.value as nat else 0);
  }

  lemma BytesApart(x: nat, y: nat, z: nat)
    requires x < 0x100 && y < 0x100 && z < 0x100
    ensures var n := x * 0x1_0000 + y * 0x100 + z;
            n / 0x1_0000 == x && n / 0x100 % 0x100 == y && n % 0x100 == z
  {
    var n := x * 0x1_0000 + y * 0x100 + z;
    assert n / 0x100 == x * 0x100 + y;
  }

  lemma DecodesInParts(q: string, rest: string)
    requires |q| == 4
    ensures Decode(q + rest) == DecodeQuad(q) + Decode(rest)
  {
    assert (q + rest)[..4] == q && (q + rest)[4..] == rest;
  }

  /** The key that is stored is the key that was drawn. */
  lemma {:induction false} DecodeEncoded(bs: seq<byte>)
    ensures Decode(Base64(bs)) == bs
    decreases |bs|
  {
    if bs != [] {
      var y, z, rest := At(bs, 1), At(bs, 2), After(bs, 3);
      QuadDecodes(bs[0], y, z);
      DecodesInParts(Quad(bs[0], y, z), Base64(rest));
      DecodeEncoded(rest);
      BytesJoin(bs);
    }
  }

  lemma BytesJoin(bs: seq<byte>)
    requires bs != []
    ensures bs == (if |bs| == 1 then [bs[0]] else if |bs| == 2 then [bs[0], bs[1]] else [bs[0], bs[1], bs[2]])
                  + After(bs, 3)
  {
  }

  // ---------- Acceptable values ----------

  /** The most that so many bytes of UTF-8 can hold. */
  ghost function Capacity(bytes: nat): nat
    requires 1 <= bytes <= 4
  {
    [0x80, 0x800, 0x1_0000, 0x11_0000][bytes - 1]
  }

  /** UTF-8 uses as few bytes as the character needs. */
  function Utf8Bytes(ch: char): (n: nat)
    ensures 1 <= n <= 4 && (ch as int) < Capacity(n) && (n > 1 ==> ch as int >= Capacity(n - 1))
  {
    if ch as int < 0x80 then 1 else if ch as int < 0x800 then 2 else if ch as int < 0x1_0000 then 3 else 4
  }

  function Utf8Length(s: string): (n: nat)
    ensures |s| <= n <= 4 * |s|
  {
    if s == "" then 0 else Utf8Bytes(s[0]) + Utf8Length(s[1..])
  }

  const UNICODE_SPACES: set<int> := {9, 10, 11, 12, 13, 0x20, 0x85, 0xA0, 0x1680, 0x2000, 0x2001, 0x2002, 0x2003,
                                     0x2004, 0x2005, 0x2006, 0x2007, 0x2008, 0x2009, 0x200A, 0x2028, 0x2029, 0x202F,
                                     0x205F, 0x3000}

  predicate Whitespace(ch: char)
    ensures Whitespace(ch) <==> ch as int in UNICODE_SPACES
  {
    || 9 <= ch as int <= 13 || ch as int in {0x20, 0x85, 0xA0, 0x1680, 0x2028, 0x2029, 0x202F, 0x205F, 0x3000}
    || 0x2000 <= ch as int <= 0x200A
  }

  function TrimLeft(s: string): string {
    if s != "" && Whitespace(s[0]) then TrimLeft(s[1..]) else s
  }

  function TrimRight(s: string): string {
    if s != "" && Whitespace(s[|s| - 1]) then TrimRight(s[..|s| - 1]) else s
  }

  /** dataStorageAuditHashKeyValue's checks: trimmed, not empty, at least 32 bytes. */
  predicate ValidValue(v: string) {
    TrimLeft(TrimRight(v)) == v && v != "" && Utf8Length(v) >= 32
  }

  /** A value with no space at either end and at least 32 bytes in UTF-8. */
  ghost predicate Usable(v: string) {
    && v != "" && v[0] as int !in UNICODE_SPACES && v[|v| - 1] as int !in UNICODE_SPACES
    && 32 <= Utf8Length(v)
  }

  lemma {:induction false} TrimShrinks(s: string)
    ensures |TrimLeft(s)| <= |s| && |TrimRight(s)| <= |s|
    ensures s != "" && Whitespace(s[0]) ==> |TrimLeft(s)| < |s|
    ensures s != "" && Whitespace(s[|s| - 1]) ==> |TrimRight(s)| < |s|
    decreases |s|
  {
    if s != "" {
      TrimShrinks(s[1..]);
      TrimShrinks(s[..|s| - 1]);
    }
  }

  lemma ValidValueExactly(v: string)
    ensures ValidValue(v) <==> Usable(v)
  {
    TrimShrinks(v);
    TrimShrinks(TrimRight(v));
  }

  lemma GeneratedValueIsValid(bs: seq<byte>)
    requires |bs| == 32
    ensures |Base64(bs)| == 44 && Usable(Base64(bs)) && Decode(Base64(bs)) == bs
  {
    DecodeEncoded(bs);
    Base64Shape(bs);
    GeneratedIsUsable(Base64(bs));
  }

  lemma GeneratedIsUsable(text: string)
    requires Base64Text(text) && |text| >= 32
    ensures Usable(text)
  {
    assert Base64Char(text[0]) && Base64Char(text[|text| - 1]);
    assert !Whitespace(text[0]) && !Whitespace(text[|text| - 1]);
  }
}
