/** Names of dynamic instances: ownership labels, identity keys and resource names. */
module Providers {
  import opened Wrappers
  import opened Ordering
  import opened Text

  const MAX_SAFE_CONTRACT_INTEGER: nat := 9007199254740991

  datatype Provider = Docker | Kubernetes

  datatype InstanceKey = InstanceKey(
    platform: string, provider: Provider, contest: string, challenge: string, team: string, instance: string,
    generation: nat)

  datatype KeyError = Unmanaged | IncompleteLabels | InvalidKey | NotADnsLabel

  const LABEL_PLATFORM := "sauryctf.io/managed-by"
  const LABEL_CONTEST := "sauryctf.io/contest-id"
  const LABEL_CHALLENGE := "sauryctf.io/challenge-id"
  const LABEL_TEAM := "sauryctf.io/team-id"
  const LABEL_INSTANCE := "sauryctf.io/instance-id"
  const LABEL_GENERATION := "sauryctf.io/generation"

  // ---- The patterns ----

  predicate IsLower(c: char) {
    'a' <= c <= 'z'
  }

  predicate IsHex(c: char) {
    IsDigit(c) || 'a' <= c <= 'f'
  }

  predicate IsAlnum(c: char) {
    IsDigit(c) || IsLower(c)
  }

  /** One to 63 characters, letters or digits at both ends. */
  predicate PlatformPattern(s: string) {
    && 1 <= |s| <= 63 && IsAlnum(s[0]) && IsAlnum(s[|s| - 1])
    && forall i | 0 <= i < |s| :: IsAlnum(s[i]) || s[i] == '.' || s[i] == '-'
  }

  predicate DnsLabel(s: string) {
    && 1 <= |s| <= 63 && IsAlnum(s[0]) && IsAlnum(s[|s| - 1])
    && forall i | 0 <= i < |s| :: IsAlnum(s[i]) || s[i] == '-'
  }

  predicate IsDashAt(i: int) {
    i == 8 || i == 13 || i == 18 || i == 23
  }

  /** Canonical lower-case UUID with a version of at most 8 and the RFC variant. */
  predicate Uuid(s: string) {
    && |s| == 36
    && (forall i | 0 <= i < 36 :: if IsDashAt(i) then s[i] == '-' else IsHex(s[i]))
    && '0' <= s[14] <= '8'
    && s[19] in "89ab"
  }

  predicate ValidGeneration(n: nat) {
    0 < n <= MAX_SAFE_CONTRACT_INTEGER
  }

  predicate ValidKey(key: InstanceKey) {
    && PlatformPattern(key.platform)
    && Uuid(key.contest) && Uuid(key.challenge) && Uuid(key.team) && Uuid(key.instance)
    && ValidGeneration(key.generation)
  }

  /** The least canonical UUID. */
  function LeastUuid(): (u: string)
    ensures Uuid(u)
  {
    seq(36, i => if IsDashAt(i) then '-' else if i == 19 then '8' else '0')
  }

  /** A key that passed `Validate`. */
  type CheckedKey = key: InstanceKey | ValidKey(key)
    witness InstanceKey("p", Docker, LeastUuid(), LeastUuid(), LeastUuid(), LeastUuid(), 1)

  // ---- Labels ----

  function Labels(key: InstanceKey): map<string, string> {
    map[LABEL_PLATFORM := key.platform, LABEL_CONTEST := key.contest, LABEL_CHALLENGE := key.challenge,
        LABEL_TEAM := key.team, LABEL_INSTANCE := key.instance, LABEL_GENERATION := Decimal(key.generation)]
  }

  /** A missing label reads as the empty string. */
  function Label(labels: map<string, string>, name: string): string {
    if name in labels then labels[name] else ""
  }

  function ParseInstanceKey(labels: map<string, string>, platform: string, provider: Provider): Result<InstanceKey, KeyError> {
    if Label(labels, LABEL_PLATFORM) != platform then Failure(Unmanaged)
    else if !Uuid(Label(labels, LABEL_CONTEST)) || !Uuid(Label(labels, LABEL_CHALLENGE))
            || !Uuid(Label(labels, LABEL_TEAM)) || !Uuid(Label(labels, LABEL_INSTANCE)) then Failure(IncompleteLabels)
    else
      var generation := ParseUint(Label(labels, LABEL_GENERATION));
      if generation.None? then Failure(IncompleteLabels)
      else
        var key := InstanceKey(
          platform, provider, Label(labels, LABEL_CONTEST), Label(labels, LABEL_CHALLENGE), Label(labels, LABEL_TEAM),
          Label(labels, LABEL_INSTANCE), generation.value);
        if ValidKey(key) then Success(key) else Failure(IncompleteLabels)
  }

  /** The labels name this key, its generation perhaps behind leading zeros. */
  ghost predicate Names(labels: map<string, string>, key: InstanceKey) {
    && (forall name | name in Labels(key) && name != LABEL_GENERATION :: Label(labels, name) == Labels(key)[name])
    && exists k: nat :: Label(labels, LABEL_GENERATION) == Zeros(k) + Decimal(key.generation)
  }

  lemma GenerationFits(n: nat)
    requires ValidGeneration(n)
    ensures ParseUint(Decimal(n)) == Some(n)
  {
    DecimalValue(n);
  }

  /** Parsing inverts labelling for every valid key. */
  lemma ParseInvertsLabels(key: CheckedKey)
    ensures ParseInstanceKey(Labels(key), key.platform, key.provider) == Success(key)
  {
    GenerationFits(key.generation);
  }

  lemma ParseIgnoresLeadingZeros(n: nat, k: nat)
    requires ValidGeneration(n)
    ensures ParseUint(Zeros(k) + Decimal(n)) == Some(n)
  {
    ZerosKeepValue(k, Decimal(n));
    DecimalValue(n);
  }

  lemma {:induction false} ZerosKeepValue(k: nat, s: string)
    requires forall i | 0 <= i < |s| :: IsDigit(s[i])
    ensures Value(Zeros(k) + s) == Value(s)
  {
    if s == [] {
      assert Zeros(k) + s == Zeros(k);
      ZerosAreZero(k);
    } else {
      assert (Zeros(k) + s)[..k + |s| - 1] == Zeros(k) + s[..|s| - 1];
      ZerosKeepValue(k, s[..|s| - 1]);
    }
  }

  lemma {:induction false} ZerosAreZero(k: nat)
    ensures Value(Zeros(k)) == 0
  {
    if k > 0 {
      assert Zeros(k)[..k - 1] == Zeros(k - 1);
      ZerosAreZero(k - 1);
    }
  }

  /** Parsing answers a key exactly when the labels name it and it is valid: no other label sets are accepted. */
  lemma ParseAcceptsItsNames(labels: map<string, string>, platform: string, provider: Provider, key: InstanceKey)
    ensures ParseInstanceKey(labels, platform, provider) == Success(key) <==>
              && key.platform == platform && key.provider == provider
              && ValidKey(key) && Names(labels, key)
  {
    var text := Label(labels, LABEL_GENERATION);
    if ParseInstanceKey(labels, platform, provider) == Success(key) {
      var k := DigitsAreDecimal(text);
    } else if key.platform == platform && key.provider == provider && ValidKey(key) && Names(labels, key) {
      assert Labels(key)[LABEL_PLATFORM] == key.platform;
      var k: nat :| text == Zeros(k) + Decimal(key.generation);
      ParseIgnoresLeadingZeros(key.generation, k);
      NamedFields(labels, key);
    }
  }

  lemma NamedFields(labels: map<string, string>, key: InstanceKey)
    requires Names(labels, key)
    ensures Label(labels, LABEL_PLATFORM) == key.platform
    ensures Label(labels, LABEL_CONTEST) == key.contest && Label(labels, LABEL_CHALLENGE) == key.challenge
    ensures Label(labels, LABEL_TEAM) == key.team && Label(labels, LABEL_INSTANCE) == key.instance
  {
    assert LABEL_PLATFORM in Labels(key) && LABEL_CONTEST in Labels(key) && LABEL_CHALLENGE in Labels(key);
    assert LABEL_TEAM in Labels(key) && LABEL_INSTANCE in Labels(key);
  }

  // ---- Identity keys ----

  function ProviderName(p: Provider): string {
    if p.Docker? then "docker" else "kubernetes"
  }

  function IdentityKey(key: InstanceKey): string {
    ProviderName(key.provider) + "/" + key.instance + "/" + Decimal(key.generation)
  }

  /** Two resources share an identity key only when provider, instance and generation agree. */
  lemma IdentityKeyInjective(a: CheckedKey, b: CheckedKey)
    ensures IdentityKey(a) == IdentityKey(b) <==>
              a.provider == b.provider && a.instance == b.instance && a.generation == b.generation
  {
    if IdentityKey(a) == IdentityKey(b) {
      var x, y := a.instance + "/" + Decimal(a.generation), b.instance + "/" + Decimal(b.generation);
      assert IdentityKey(a) == ProviderName(a.provider) + ['/'] + x;
      assert IdentityKey(b) == ProviderName(b.provider) + ['/'] + y;
      FieldEnds(ProviderName(a.provider), x, ProviderName(b.provider), y, '/');
      assert |ProviderName(a.provider)| == |ProviderName(b.provider)|;
      FieldEnds(a.instance, Decimal(a.generation), b.instance, Decimal(b.generation), '/');
      DecimalInjective(a.generation, b.generation);
    }
  }

  // ---- Resource names ----

  /** The first five bytes of a digest of the platform id, in hexadecimal. */
  type PlatformHash = h: string -> string | forall p: string :: |h(p)| == 10 && forall i | 0 <= i < 10 :: IsHex(h(p)[i])
    witness (p: string) => "0000000000"

  function NotDash(): char -> bool {
    (c: char) => c != '-'
  }

  function CandidateName(hash: PlatformHash, key: InstanceKey): string {
    "s-" + hash(key.platform) + "-" + Filter(key.instance, NotDash()) + "-g" + Decimal(key.generation)
  }

  function ResourceName(hash: PlatformHash, key: InstanceKey): Result<string, KeyError> {
    if !ValidKey(key) then Failure(InvalidKey)
    else
      var name := CandidateName(hash, key);
      if |name| > 63 || !DnsLabel(name) then Failure(NotADnsLabel) else Success(name)
  }

  function Bare(u: string): string
    requires |u| == 36
  {
    u[..8] + u[9..13] + u[14..18] + u[19..23] + u[24..]
  }

  /** One group of a UUID and the dash behind it. */
  lemma OneGroup(u: string, start: nat, end: nat)
    requires start <= end < |u| && (forall i | start <= i < end :: IsHex(u[i])) && u[end] == '-'
    ensures Filter(u[..end + 1], NotDash()) == Filter(u[..start], NotDash()) + u[start..end]
  {
    var group := u[start..end];
    assert u[..end] == u[..start] + group;
    assert u[..end + 1] == u[..end] + ['-'];
    FilterAll(group, NotDash());
    FilterConcat(u[..start], group, NotDash());
    FilterAppend(u[..end], '-', NotDash());
  }

  lemma LastGroup(u: string, start: nat)
    requires start <= |u| && forall i | start <= i < |u| :: IsHex(u[i])
    ensures Filter(u, NotDash()) == Filter(u[..start], NotDash()) + u[start..]
  {
    var group := u[start..];
    assert u == u[..start] + group;
    forall c | c in group
      ensures NotDash()(c)
    {
    }
    FilterAll(group, NotDash());
    FilterConcat(u[..start], group, NotDash());
  }

  lemma TwoGroups(u: string)
    requires Uuid(u)
    ensures Filter(u[..14], NotDash()) == u[..8] + u[9..13]
  {
    OneGroup(u, 0, 8);
    OneGroup(u, 9, 13);
  }

  lemma FourGroups(u: string)
    requires Uuid(u)
    ensures Filter(u[..24], NotDash()) == u[..8] + u[9..13] + u[14..18] + u[19..23]
  {
    TwoGroups(u);
    OneGroup(u, 14, 18);
    OneGroup(u, 19, 23);
  }

  lemma UuidWithoutDashes(u: string)
    requires Uuid(u)
    ensures Filter(u, NotDash()) == Bare(u)
  {
    FourGroups(u);
    LastGroup(u, 24);
  }

  lemma BareIsHex(u: string)
    requires Uuid(u)
    ensures |Bare(u)| == 32 && forall i | 0 <= i < 32 :: IsHex(Bare(u)[i])
  {
  }

  lemma BareInjective(u: string, v: string)
    requires Uuid(u) && Uuid(v) && Bare(u) == Bare(v)
    ensures u == v
  {
    var x, y := Bare(u), Bare(v);
    forall i | 0 <= i < 36
      ensures u[i] == v[i]
    {
      if !IsDashAt(i) {
        var k := if i < 8 then i else if i < 13 then i - 1 else if i < 18 then i - 2 else if i < 23 then i - 3 else i - 4;
        assert x[k] == u[i] && y[k] == v[i];
      }
    }
  }

  // ---- What the patterns admit ----

  lemma BareIsOutsideDashes(s: string)
    requires |s| == 36
    ensures (forall c | c in Bare(s) :: IsHex(c)) <==> forall i | 0 <= i < 36 && !IsDashAt(i) :: IsHex(s[i])
  {
    forall i | 0 <= i < 36 && !IsDashAt(i)
      ensures s[i] in Bare(s)
    {
      var k := if i < 8 then i else if i < 13 then i - 1 else if i < 18 then i - 2 else if i < 23 then i - 3 else i - 4;
      assert Bare(s)[k] == s[i];
    }
    forall k | 0 <= k < 32
      ensures exists i | 0 <= i < 36 :: !IsDashAt(i) && s[i] == Bare(s)[k]
    {
      var i := if k < 8 then k else if k < 12 then k + 1 else if k < 16 then k + 2 else if k < 20 then k + 3 else k + 4;
      assert !IsDashAt(i) && s[i] == Bare(s)[k];
    }
  }

  lemma DashesAreBetween(s: string)
    requires |s| == 36
    ensures s == s[..8] + "-" + s[9..13] + "-" + s[14..18] + "-" + s[19..23] + "-" + s[24..] <==>
              s[8] == '-' && s[13] == '-' && s[18] == '-' && s[23] == '-'
  {
    var t := s[..8] + "-" + s[9..13] + "-" + s[14..18] + "-" + s[19..23] + "-" + s[24..];
    assert t[8] == '-' && t[13] == '-' && t[18] == '-' && t[23] == '-';
  }

  /** Lower-case groups of 8, 4, 4, 4 and 12 hexadecimal digits, with a version and the variant of an RFC UUID. */
  lemma UuidHasGroups(s: string)
    ensures Uuid(s) <==>
              && |s| == 36
              && s == s[..8] + "-" + s[9..13] + "-" + s[14..18] + "-" + s[19..23] + "-" + s[24..]
              && (forall c | c in s[..8] + s[9..13] + s[14..18] + s[19..23] + s[24..] :: c in "0123456789abcdef")
              && s[14] in "012345678" && s[19] in "89ab"
  {
    if |s| == 36 {
      BareIsOutsideDashes(s);
      DashesAreBetween(s);
      HexDigits();
      assert Uuid(s) <==>
          && (s[8] == '-' && s[13] == '-' && s[18] == '-' && s[23] == '-')
          && (forall i | 0 <= i < 36 && !IsDashAt(i) :: IsHex(s[i])) && '0' <= s[14] <= '8' && s[19] in "89ab";
    }
  }

  lemma HexDigits()
    ensures forall c: char :: IsHex(c) <==> c in "0123456789abcdef"
    ensures forall c: char :: '0' <= c <= '8' <==> c in "012345678"
  {
  }

  lemma AlnumCharacters()
    ensures forall c: char :: IsAlnum(c) <==> c in "abcdefghijklmnopqrstuvwxyz0123456789"
  {
  }

  /** Platform ids and resource names: 1 to 63 lower-case letters, digits and dashes, and dots in platform ids, with a letter
      or digit at both ends. */
  lemma PatternsMean(s: string)
    ensures PlatformPattern(s) <==>
              && 1 <= |s| <= 63 && s[0] !in ".-" && s[|s| - 1] !in ".-"
              && forall c | c in s :: c in "abcdefghijklmnopqrstuvwxyz0123456789.-"
    ensures DnsLabel(s) <==>
              && 1 <= |s| <= 63 && s[0] != '-' && s[|s| - 1] != '-'
              && forall c | c in s :: c in "abcdefghijklmnopqrstuvwxyz0123456789-"
  {
    AlnumCharacters();
    assert forall c: char :: c in "abcdefghijklmnopqrstuvwxyz0123456789.-" <==> IsAlnum(c) || c in ".-";
    assert forall c: char :: c in "abcdefghijklmnopqrstuvwxyz0123456789-" <==> IsAlnum(c) || c == '-';
    assert forall i | 0 <= i < |s| :: s[i] in s;
  }

  // ---- How long names get ----

  lemma FewDigits(n: nat, k: nat)
    requires 0 < n < Pow10(k)
    ensures |Decimal(n)| <= k
  {
    DecimalLength(n);
    var longest: nat := |Decimal(n)| - 1;
    if k <= longest {
      Pow10Grows(k, longest);
    }
  }

  lemma GenerationDigits(n: nat)
    requires ValidGeneration(n)
    ensures 1 <= |Decimal(n)| <= 16
    ensures |Decimal(n)| == 16 <==> n >= 1_000_000_000_000_000
  {
    DecimalLength(n);
    assert Pow10(5) == 100_000;
    assert Pow10(10) == 10_000_000_000;
    assert Pow10(15) == 1_000_000_000_000_000;
    assert Pow10(16) == 10_000_000_000_000_000;
    FewDigits(n, 16);
    if |Decimal(n)| <= 15 {
      Pow10Grows(|Decimal(n)|, 15);
    }
  }

  function Assembled(h: string, bare: string, d: string): string {
    "s-" + h + "-" + bare + "-g" + d
  }

  lemma Parts(h: string, bare: string, d: string)
    requires |h| == 10 && |bare| == 32
    ensures var name := Assembled(h, bare, d);
            && |name| == 47 + |d|
            && name[..2] == "s-" && name[2..12] == h && name[12] == '-'
            && name[13..45] == bare && name[45..47] == "-g" && name[47..] == d
  {
  }

  lemma AssembledIsDns(h: string, bare: string, d: string)
    requires |h| == 10 && |bare| == 32 && 1 <= |d| <= 16
    requires (forall i | 0 <= i < |h| :: IsHex(h[i])) && (forall i | 0 <= i < |bare| :: IsHex(bare[i]))
    requires forall i | 0 <= i < |d| :: IsDigit(d[i])
    ensures DnsLabel(Assembled(h, bare, d))
  {
    var name := Assembled(h, bare, d);
    Parts(h, bare, d);
    assert name[0] == name[..2][0] && name[1] == name[..2][1];
    assert name[45] == name[45..47][0] && name[46] == name[45..47][1];
    forall i | 0 <= i < |name|
      ensures IsAlnum(name[i]) || name[i] == '-'
    {
      if 2 <= i < 12 {
        assert name[i] == name[2..12][i - 2];
      } else if 13 <= i < 45 {
        assert name[i] == name[13..45][i - 13];
      } else if i >= 47 {
        assert name[i] == name[47..][i - 47];
      }
    }
    assert name[|name| - 1] == name[47..][|d| - 1];
  }

  /** A valid key always has a resource name; only 16-digit generations reach the limit of 63 characters. */
  lemma ResourceNameNeverFails(hash: PlatformHash, key: CheckedKey)
    ensures ResourceName(hash, key) == Success(CandidateName(hash, key))
    ensures DnsLabel(CandidateName(hash, key)) && |CandidateName(hash, key)| <= 63
    ensures |CandidateName(hash, key)| == 63 <==> key.generation >= 1_000_000_000_000_000
  {
    NameParts(hash, key);
    BareIsHex(key.instance);
    AssembledIsDns(hash(key.platform), Bare(key.instance), Decimal(key.generation));
  }

  lemma NameParts(hash: PlatformHash, key: CheckedKey)
    ensures CandidateName(hash, key) == Assembled(hash(key.platform), Bare(key.instance), Decimal(key.generation))
    ensures |CandidateName(hash, key)| == 47 + |Decimal(key.generation)|
    ensures 1 <= |Decimal(key.generation)| <= 16
    ensures |Decimal(key.generation)| == 16 <==> key.generation >= 1_000_000_000_000_000
  {
    UuidWithoutDashes(key.instance);
    GenerationDigits(key.generation);
    Parts(hash(key.platform), Bare(key.instance), Decimal(key.generation));
  }

  /** On one platform a name belongs to one generation of one instance. */
  lemma ResourceNameInjective(hash: PlatformHash, a: CheckedKey, b: CheckedKey)
    requires a.platform == b.platform
    ensures ResourceName(hash, a) == ResourceName(hash, b) <==> a.instance == b.instance && a.generation == b.generation
  {
    ResourceNameNeverFails(hash, a);
    ResourceNameNeverFails(hash, b);
    if ResourceName(hash, a) == ResourceName(hash, b) {
      NameParts(hash, a);
      NameParts(hash, b);
      Parts(hash(a.platform), Bare(a.instance), Decimal(a.generation));
      Parts(hash(b.platform), Bare(b.instance), Decimal(b.generation));
      BareInjective(a.instance, b.instance);
      DecimalInjective(a.generation, b.generation);
    }
  }
}
