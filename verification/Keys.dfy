/** `keys.rs`: key derivation. Keys are symbolic terms, so equal keys have equal origins. */
module Keys {
  import opened Wrappers
  import opened Text

  datatype Key =
    | RootKey(id: nat)
    | RandomKey(id: nat)
    | Derived(root: Key, keyLabel: string)

  datatype KeyHierarchy = KeyHierarchy(vaultId: string, rootKey: Key) {
    function Derive(suffix: string): Key
    {
      Derived(rootKey, Label(vaultId, suffix))
    }

    function AuditIntegrityKey(): Key { Derive(":audit-integrity") }

    function RedactionFingerprintKey(): Key { Derive(":redaction-fingerprint") }

    function TicketMacKey(): Key { Derive(":ticket-mac") }

    function SecretKekLabel(secretId: string, version: nat): string
    {
      Label(vaultId, KekSuffix(secretId, version))
    }

    function SecretKek(secretId: string, version: nat): Key
    {
      Derived(rootKey, SecretKekLabel(secretId, version))
    }
  }

  function Label(vaultId: string, suffix: string): string
  {
    "HBSE:v1:vault:" + vaultId + suffix
  }

  function KekSuffix(secretId: string, version: nat): string
  {
    ":secret:" + secretId + ":version:" + Decimal(version) + ":dek-wrap"
  }

  /** The fixed purposes of derived keys. */
  const PURPOSES: set<string> := {":metadata", ":audit-integrity", ":redaction-fingerprint", ":ticket-mac"}

  lemma LabelInjective(vaultId: string, a: string, b: string)
    requires Label(vaultId, a) == Label(vaultId, b)
    ensures a == b
  {
    var p := "HBSE:v1:vault:" + vaultId;
    assert a == (p + a)[|p|..] && b == (p + b)[|p|..];
  }

  function TrailingDigits(t: string): nat
  {
    if t == "" || !IsDigit(t[|t| - 1]) then 0 else 1 + TrailingDigits(t[..|t| - 1])
  }

  lemma {:induction false} CountDigits(p: string, d: string)
    requires AllDigits(d)
    ensures TrailingDigits(p + ":" + d) == |d|
  {
    var t := p + ":" + d;
    if d == "" {
      assert t[|t| - 1] == ':';
    } else {
      assert d[|d| - 1] in d;
      assert t[..|t| - 1] == p + ":" + d[..|d| - 1];
      CountDigits(p, d[..|d| - 1]);
    }
  }

  /** The digits after the last colon are determined, and so is what precedes it. */
  lemma LastNumeral(p: string, d: string, q: string, e: string)
    requires AllDigits(d) && AllDigits(e) && p + ":" + d == q + ":" + e
    ensures p == q && d == e
  {
    CountDigits(p, d);
    CountDigits(q, e);
    var t := p + ":" + d;
    assert p == t[..|p|] && d == t[|p| + 1..];
    assert q == (q + ":" + e)[..|q|] && e == (q + ":" + e)[|q| + 1..];
  }

  /** For one vault, key-wrapping labels separate every secret id and version, whatever
      characters the id holds. */
  lemma KekLabelInjective(vaultId: string, id1: string, v1: nat, id2: string, v2: nat)
    requires Label(vaultId, KekSuffix(id1, v1)) == Label(vaultId, KekSuffix(id2, v2))
    ensures id1 == id2 && v1 == v2
  {
    LabelInjective(vaultId, KekSuffix(id1, v1), KekSuffix(id2, v2));
    var a := id1 + ":version" + ":" + Decimal(v1);
    var b := id2 + ":version" + ":" + Decimal(v2);
    KekSuffixMiddle(id1, v1, a);
    KekSuffixMiddle(id2, v2, b);
    LastNumeral(id1 + ":version", Decimal(v1), id2 + ":version", Decimal(v2));
    assert id1 == (id1 + ":version")[..|id1|] && id2 == (id2 + ":version")[..|id2|];
    DecimalInjective(v1, v2);
  }

  lemma KekSuffixMiddle(id: string, v: nat, middle: string)
    requires middle == id + ":version" + ":" + Decimal(v)
    ensures |KekSuffix(id, v)| == |middle| + 17 && KekSuffix(id, v)[8..|KekSuffix(id, v)| - 9] == middle
  {
    assert ":version:" == ":version" + ":";
    assert KekSuffix(id, v) == ":secret:" + middle + ":dek-wrap";
  }

  /** A key-wrapping label never meets the label of another purpose. */
  lemma KekLabelsApart(vaultId: string, id: string, v: nat)
    ensures forall s <- PURPOSES :: Label(vaultId, KekSuffix(id, v)) != Label(vaultId, s)
  {
    assert KekSuffix(id, v)[1] == 's';
    forall s <- PURPOSES ensures Label(vaultId, KekSuffix(id, v)) != Label(vaultId, s) {
      if Label(vaultId, KekSuffix(id, v)) == Label(vaultId, s) {
        LabelInjective(vaultId, KekSuffix(id, v), s);
      }
    }
  }

  // ---- The counter-mode KDF (NIST SP 800-108) ----

  datatype KeyError = InvalidLabel | MissingProtocolVersion

  type Hmac = (seq<byte>, seq<byte>) -> seq<byte>

  ghost predicate IsHmacSha256(hmac: Hmac)
  {
    forall k: seq<byte>, m: seq<byte> :: |hmac(k, m)| == 32
  }

  predicate PartAt(s: string, i: int, part: string)
  {
    0 <= i <= |s| - |part| && s[i..i + |part|] == part
  }

  predicate HasPart(s: string, part: string)
  {
    exists i :: 0 <= i <= |s| && PartAt(s, i, part)
  }

  function LabelError(keyLabel: string): Option<KeyError>
  {
    if keyLabel in {"", "key", "secret", "encrypt", "default"} then Some(InvalidLabel)
    else if !HasPart(keyLabel, "HBSE:v1:") then Some(MissingProtocolVersion)
    else None
  }

  function BigEndian32(n: nat): seq<byte>
    requires n < 0x1_0000_0000
  {
    [n / 0x100_0000, n / 0x1_0000 % 0x100, n / 0x100 % 0x100, n % 0x100]
  }

  function Block(counter: nat, labelBytes: seq<byte>): seq<byte>
    requires counter < 0x1_0000_0000
  {
    BigEndian32(counter) + labelBytes + [0] + BigEndian32(256)
  }

  /** One 32-byte HMAC block already fills a key, so the loop runs exactly once. */
  method CounterKdf(hmac: Hmac, rootKey: seq<byte>, keyLabel: string) returns (r: Result<seq<byte>, KeyError>)
    requires IsHmacSha256(hmac)
    ensures match LabelError(keyLabel)
            case Some(e) => r == Err(e)
            case None => r == Ok(hmac(rootKey, Block(1, Utf8Bytes(keyLabel)))) && |r.value| == 32
  {
    var invalid := LabelError(keyLabel);
    if invalid.Some? {
      return Err(invalid.value);
    }
    var result: seq<byte> := [];
    var counter := 1;
    while |result| < 32
      invariant (counter == 1 && result == []) || (counter == 2 && result == hmac(rootKey, Block(1, Utf8Bytes(keyLabel))))
      decreases 32 - |result|
    {
      result := result + hmac(rootKey, Block(counter, Utf8Bytes(keyLabel)));
      counter := counter + 1;
    }
    assert result[..32] == result;
    return Ok(result[..32]);
  }

  /** Every label the hierarchy builds is accepted, so its `expect` never fires. */
  lemma HierarchyLabelsAccepted(vaultId: string, suffix: string)
    ensures LabelError(Label(vaultId, suffix)) == None
  {
    var l := Label(vaultId, suffix);
    assert "HBSE:v1:vault:" == "HBSE:v1:" + "vault:";
    assert l[0..8] == "HBSE:v1:";
    assert PartAt(l, 0, "HBSE:v1:");
    assert |l| >= 14 && l[0] == 'H';
  }
}
