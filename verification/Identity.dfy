/**
  Identities and digests (internal/run/identity.go). A Go string is a sequence of
  bytes; here it is a `string` whose characters each stand for one byte. SHA-256 is
  a parameter `h`, never assumed injective: theorems name the finite set of inputs
  on which it must not collide.
*/
module Identity {

  predicate Alphanumeric(c: char) {
    'a' <= c <= 'z' || 'A' <= c <= 'Z' || '0' <= c <= '9'
  }

  predicate LowerHex(c: char) {
    '0' <= c <= '9' || 'a' <= c <= 'f'
  }

  predicate ValidIdentifier(s: string) {
    && 1 <= |s| <= 128
    && Alphanumeric(s[0])
    && forall i :: 1 <= i < |s| ==> Alphanumeric(s[i]) || s[i] == '.' || s[i] == '_' || s[i] == ':' || s[i] == '-'
  }

  predicate ValidHash(s: string) {
    |s| == 64 && forall i :: 0 <= i < 64 ==> LowerHex(s[i])
  }

  predicate ValidUUID(s: string) {
    && |s| == 36
    && forall i :: 0 <= i < 36 ==> if i in {8, 13, 18, 23} then s[i] == '-' else LowerHex(s[i])
  }

  // ---------- decimal printing (strconv.FormatInt, base 10) ----------

  function Digit(d: nat): char
    requires d < 10
  {
    '0' + d as char
  }

  function Decimal(n: nat): string {
    if n < 10 then [Digit(n)] else Decimal(n / 10) + [Digit(n % 10)]
  }

  function FormatInt(n: int): string {
    if n < 0 then "-" + Decimal(-n) else Decimal(n)
  }

  /** Reads a run of digits; the left inverse of Decimal. */
  function Natural(digits: string): nat {
    if digits == "" then 0
    else
      var last := digits[|digits| - 1];
      10 * Natural(digits[..|digits| - 1]) + (if '0' <= last <= '9' then (last - '0') as nat else 0)
  }

  lemma {:induction false} DecimalRoundTrip(n: nat)
    ensures Natural(Decimal(n)) == n
    ensures Decimal(n) != "" && forall c :: c in Decimal(n) ==> '0' <= c <= '9'
  {
    if n >= 10 {
      DecimalRoundTrip(n / 10);
      assert Decimal(n)[..|Decimal(n)| - 1] == Decimal(n / 10);
    } else {
      assert Decimal(n)[..0] == "";
      assert Natural("") == 0;
    }
  }

  lemma FormatIntInjective(m: int, n: int)
    requires FormatInt(m) == FormatInt(n)
    ensures m == n
  {
    DecimalRoundTrip(if m < 0 then -m else m);
    DecimalRoundTrip(if n < 0 then -n else n);
    assert m >= 0 ==> FormatInt(m)[0] in Decimal(m);
    assert n >= 0 ==> FormatInt(n)[0] in Decimal(n);
    if m < 0 {
      assert FormatInt(m)[1..] == Decimal(-m) && FormatInt(n)[1..] == Decimal(-n);
    }
  }

  // ---------- length-prefixed encoding ----------

  function Pow256(k: nat): nat {
    if k == 0 then 1 else 256 * Pow256(k - 1)
  }

  function BigEndian(n: nat, k: nat): (bytes: string)
    ensures |bytes| == k
  {
    if k == 0 then "" else BigEndian(n / 256, k - 1) + [(n % 256) as char]
  }

  lemma {:induction false} BigEndianInjective(m: nat, n: nat, k: nat)
    requires m < Pow256(k) && n < Pow256(k)
    requires BigEndian(m, k) == BigEndian(n, k)
    ensures m == n
  {
    if k > 0 {
      var x, y := BigEndian(m, k), BigEndian(n, k);
      assert x[..k - 1] == BigEndian(m / 256, k - 1) && y[..k - 1] == BigEndian(n / 256, k - 1);
      assert x[k - 1] == (m % 256) as char && y[k - 1] == (n % 256) as char;
      BigEndianInjective(m / 256, n / 256, k - 1);
    }
  }

  /** Every Go string is shorter than this, because its length is an int. */
  const MAX_LENGTH: nat := 0x1_0000_0000_0000_0000

  predicate Measurable(fields: seq<string>) {
    forall f :: f in fields ==> |f| < MAX_LENGTH
  }

  /** What Fingerprint writes into the hash: each field after its 8-byte length. */
  function Encode(fields: seq<string>): string {
    if fields == [] then "" else BigEndian(|fields[0]|, 8) + fields[0] + Encode(fields[1..])
  }

  lemma PowerOfEightBytes()
    ensures Pow256(8) == MAX_LENGTH
  {
    assert Pow256(2) == 0x1_0000;
    assert Pow256(4) == 0x1_0000_0000;
    assert Pow256(6) == 0x1_0000_0000_0000;
  }

  lemma {:induction false} EncodeInjective(fs: seq<string>, gs: seq<string>)
    requires Measurable(fs) && Measurable(gs)
    requires Encode(fs) == Encode(gs)
    ensures fs == gs
  {
    var x, y := Encode(fs), Encode(gs);
    if fs != [] {
      assert |x| >= 8;
      assert gs != [];
      assert x[..8] == BigEndian(|fs[0]|, 8) && y[..8] == BigEndian(|gs[0]|, 8);
      assert fs[0] in fs && gs[0] in gs;
      PowerOfEightBytes();
      BigEndianInjective(|fs[0]|, |gs[0]|, 8);
      var n := 8 + |fs[0]|;
      assert x[8..n] == fs[0] && y[8..n] == gs[0];
      assert x[n..] == Encode(fs[1..]) && y[n..] == Encode(gs[1..]);
      EncodeInjective(fs[1..], gs[1..]);
      assert fs == [fs[0]] + fs[1..] && gs == [gs[0]] + gs[1..];
    } else if gs != [] {
      assert false;
    }
  }

  /** The digest of a domain name followed by its fields. */
  function Fingerprint(h: string -> string, fields: seq<string>): string {
    h(Encode(fields))
  }

  /** The loop that feeds the hash: what it has written is exactly the encoding. */
  method WriteFields(fields: seq<string>) returns (written: string)
    ensures written == Encode(fields)
  {
    written := "";
    for i := 0 to |fields|
      invariant written + Encode(fields[i..]) == Encode(fields)
    {
      var chunk := BigEndian(|fields[i]|, 8) + fields[i];
      assert fields[i..][1..] == fields[i + 1..];
      assert Encode(fields[i..]) == chunk + Encode(fields[i + 1..]);
      assert (written + chunk) + Encode(fields[i + 1..]) == written + (chunk + Encode(fields[i + 1..]));
      written := written + chunk;
    }
    assert fields[|fields|..] == [];
  }

  ghost predicate CollisionFree(h: string -> string, inputs: set<string>) {
    forall x, y :: x in inputs && y in inputs && h(x) == h(y) ==> x == y
  }

  // ---------- the checkpoint chain's two fingerprints ----------

  datatype StepIdentity = StepIdentity(
    id: string, sequence: int, kind: string, cursorVersion: int, inputHash: string,
    profileId: string, profileHash: string, snapshotId: string, snapshotHash: string)

  function StepInputFields(profileHash: string, snapshotHash: string, cursor: int, commitHash: string): seq<string> {
    ["jobforge.run.step-input.v1", profileHash, snapshotHash, FormatInt(cursor), commitHash]
  }

  function CommitFields(step: StepIdentity, canonical: string): seq<string> {
    ["jobforge.run.commit.v1", step.id, FormatInt(step.sequence), step.kind, FormatInt(step.cursorVersion),
     step.inputHash, step.profileId, step.profileHash, step.snapshotId, step.snapshotHash, canonical]
  }

  function NextInputHash(h: string -> string, profileHash: string, snapshotHash: string, cursor: int, commitHash: string): string {
    Fingerprint(h, StepInputFields(profileHash, snapshotHash, cursor, commitHash))
  }

  function InitialStepInput(h: string -> string, profileHash: string, snapshotHash: string): string {
    NextInputHash(h, profileHash, snapshotHash, 0, "")
  }

  function CommitHash(h: string -> string, step: StepIdentity, canonical: string): string {
    Fingerprint(h, CommitFields(step, canonical))
  }

  /** Equal commit preimages carry equal steps and equal results. */
  lemma CommitFieldsInjective(s: StepIdentity, x: string, t: StepIdentity, y: string)
    requires Measurable(CommitFields(s, x)) && Measurable(CommitFields(t, y))
    requires Encode(CommitFields(s, x)) == Encode(CommitFields(t, y))
    ensures s == t && x == y
  {
    EncodeInjective(CommitFields(s, x), CommitFields(t, y));
    var f, g := CommitFields(s, x), CommitFields(t, y);
    assert forall i :: 0 <= i < 11 ==> f[i] == g[i];
    assert f[1] == g[1] && f[2] == g[2] && f[3] == g[3] && f[4] == g[4] && f[5] == g[5];
    assert f[6] == g[6] && f[7] == g[7] && f[8] == g[8] && f[9] == g[9] && f[10] == g[10];
    FormatIntInjective(s.sequence, t.sequence);
    FormatIntInjective(s.cursorVersion, t.cursorVersion);
  }

  lemma StepInputFieldsInjective(p: string, s: string, m: int, c: string, p': string, s': string, n: int, c': string)
    requires Measurable(StepInputFields(p, s, m, c)) && Measurable(StepInputFields(p', s', n, c'))
    requires Encode(StepInputFields(p, s, m, c)) == Encode(StepInputFields(p', s', n, c'))
    ensures p == p' && s == s' && m == n && c == c'
  {
    EncodeInjective(StepInputFields(p, s, m, c), StepInputFields(p', s', n, c'));
    var f, g := StepInputFields(p, s, m, c), StepInputFields(p', s', n, c');
    assert f[1] == g[1] && f[2] == g[2] && f[3] == g[3] && f[4] == g[4];
    FormatIntInjective(m, n);
  }
}
