/** `records.rs` and `crypto.rs`: secret records and envelope encryption. Ciphertexts and
    digests are symbolic terms: only the right key, nonce and associated data open a seal. */
module Envelope {
  import opened Wrappers
  import opened Keys

  datatype SecretStatus = Active | Staged | Disabled | Destroyed

  datatype SecretType =
    | ApiKey | AccessToken | RefreshToken | SsoTokenBundle | Password | Passphrase | Token | MnemonicPhrase
    | SshKey | PrivateKey | Certificate | Credential | JsonCredential | Generic

  /** A stored timestamp: canonical milliseconds, or other text that may parse to an instant
      in nanoseconds. */
  datatype Stamp = Millis(ms: int) | Text(text: string, parsed: Option<int>)

  function UtcMillis(instant: int): Stamp
  {
    Millis(instant / 1_000_000)
  }

  function ParseStamp(s: Stamp): Option<int>
  {
    match s
    case Millis(ms) => Some(ms * 1_000_000)
    case Text(_, parsed) => parsed
  }

  datatype Digest<T> = Sha256(of: T) | OtherText(text: string)

  /** A stored Base64 field: it decodes or it does not. */
  datatype Field<T> = Encoded(value: T) | Undecodable

  datatype Nonce = Nonce(id: nat) | WrongLength

  datatype Sealed<A, M> = Seal(key: Key, nonce: Nonce, aad: A, msg: M) | Noise(id: nat)

  datatype KeyBytes = KeyBytes32(key: Key) | WrongSize

  datatype SecretAad = SecretAad(
    vaultId: string, namespaceId: string, secretId: string, secretRef: string, version: nat, secretType: SecretType,
    policyId: string, policyHash: string, metadataHash: Digest<string>, createdAt: Stamp)

  datatype WrapAad = WrapAad(
    vaultId: string, secretId: string, version: nat, kdfLabel: string, providerPolicyHash: string, createdAt: Stamp)

  datatype SecretRecord = SecretRecord(
    vaultId: string,
    namespaceId: string,
    secretId: string,
    secretRef: string,
    secretVersion: nat,
    status: SecretStatus,
    secretType: SecretType,
    policyId: string,
    policyHash: string,
    metadataHash: Digest<string>,
    providerPolicyHash: string,
    createdAt: Stamp,
    secretNonce: Field<Nonce>,
    ciphertext: Field<Sealed<SecretAad, seq<byte>>>,
    dekNonce: Field<Nonce>,
    wrappedDek: Field<Sealed<WrapAad, KeyBytes>>,
    secretAadHash: Digest<SecretAad>,
    dekWrapAadHash: Digest<WrapAad>)

  datatype CryptoError =
    | WrongVault | SecretAadHashMismatch | DekWrapAadHashMismatch | AuthenticationFailed | Decode | InvalidNonceLength

  /** The random choices of one encryption. */
  datatype Randomness = Randomness(dek: nat, secretNonce: nat, dekNonce: nat)

  function SecretAadOf(r: SecretRecord, createdAt: Stamp): SecretAad
  {
    SecretAad(r.vaultId, r.namespaceId, r.secretId, r.secretRef, r.secretVersion, r.secretType,
              r.policyId, r.policyHash, r.metadataHash, createdAt)
  }

  function WrapAadOf(r: SecretRecord, kdfLabel: string, createdAt: Stamp): WrapAad
  {
    WrapAad(r.vaultId, r.secretId, r.secretVersion, kdfLabel, r.providerPolicyHash, createdAt)
  }

  function EncryptSecret(keys: KeyHierarchy, namespaceId: string, secretId: string, secretRef: string, version: nat,
                         plaintext: seq<byte>, secretType: SecretType, policyId: string, policyHash: string,
                         metadataHash: Digest<string>, providerPolicyHash: string, now: int, random: Randomness)
    : (r: SecretRecord)
  {
    var createdAt := UtcMillis(now);
    var dek := RandomKey(random.dek);
    var secretAad := SecretAad(keys.vaultId, namespaceId, secretId, secretRef, version, secretType,
                               policyId, policyHash, metadataHash, createdAt);
    var wrapAad := WrapAad(keys.vaultId, secretId, version, keys.SecretKekLabel(secretId, version),
                           providerPolicyHash, createdAt);
    SecretRecord(
      keys.vaultId, namespaceId, secretId, secretRef, version, Active, secretType,
      policyId, policyHash, metadataHash, providerPolicyHash, createdAt,
      Encoded(Nonce(random.secretNonce)), Encoded(Seal(dek, Nonce(random.secretNonce), secretAad, plaintext)),
      Encoded(Nonce(random.dekNonce)),
      Encoded(Seal(keys.SecretKek(secretId, version), Nonce(random.dekNonce), wrapAad, KeyBytes32(dek))),
      Sha256(secretAad), Sha256(wrapAad))
  }

  /** The stored creation time and, if it parses to something spelt differently, its
      millisecond form. */
  function CreatedAtCandidates(createdAt: Stamp): seq<Stamp>
  {
    match ParseStamp(createdAt)
    case None => [createdAt]
    case Some(t) => if UtcMillis(t) != createdAt then [createdAt, UtcMillis(t)] else [createdAt]
  }

  function MatchingSecretAad(r: SecretRecord, candidates: seq<Stamp>): Option<SecretAad>
  {
    if candidates == [] then None
    else if Sha256(SecretAadOf(r, candidates[0])) == r.secretAadHash then Some(SecretAadOf(r, candidates[0]))
    else MatchingSecretAad(r, candidates[1..])
  }

  function MatchingDekWrapAad(r: SecretRecord, kdfLabel: string, candidates: seq<Stamp>): Option<WrapAad>
  {
    if candidates == [] then None
    else if Sha256(WrapAadOf(r, kdfLabel, candidates[0])) == r.dekWrapAadHash then
      Some(WrapAadOf(r, kdfLabel, candidates[0]))
    else MatchingDekWrapAad(r, kdfLabel, candidates[1..])
  }

  function DecryptAesGcm<A(==), M>(key: Key, nonce: Field<Nonce>, ciphertext: Field<Sealed<A, M>>, aad: A): Result<M, CryptoError>
  {
    if nonce.Undecodable? then Err(Decode)
    else if nonce.value.WrongLength? then Err(InvalidNonceLength)
    else if ciphertext.Undecodable? then Err(Decode)
    else
      match ciphertext.value
      case Seal(k, n, a, msg) => if k == key && n == nonce.value && a == aad then Ok(msg) else Err(AuthenticationFailed)
      case Noise(_) => Err(AuthenticationFailed)
  }

  function DecryptSecret(keys: KeyHierarchy, r: SecretRecord): Result<seq<byte>, CryptoError>
  {
    if r.vaultId != keys.vaultId then Err(WrongVault)
    else
      var candidates := CreatedAtCandidates(r.createdAt);
      var kdfLabel := keys.SecretKekLabel(r.secretId, r.secretVersion);
      match (MatchingSecretAad(r, candidates), MatchingDekWrapAad(r, kdfLabel, candidates))
      case (None, _) => Err(SecretAadHashMismatch)
      case (_, None) => Err(DekWrapAadHashMismatch)
      case (Some(secretAad), Some(wrapAad)) =>
        var dek := DecryptAesGcm(keys.SecretKek(r.secretId, r.secretVersion), r.dekNonce, r.wrappedDek, wrapAad);
        if dek.Err? then Err(dek.error)
        else if dek.value.WrongSize? then Err(AuthenticationFailed)
        else DecryptAesGcm(dek.value.key, r.secretNonce, r.ciphertext, secretAad)
  }

  lemma {:induction false} MatchingSecretAadExact(r: SecretRecord, candidates: seq<Stamp>, aad: SecretAad)
    ensures MatchingSecretAad(r, candidates) == Some(aad) <==>
            aad.createdAt in candidates && aad == SecretAadOf(r, aad.createdAt) && r.secretAadHash == Sha256(aad)
  {
    if candidates != [] {
      MatchingSecretAadExact(r, candidates[1..], aad);
      assert candidates == [candidates[0]] + candidates[1..];
    }
  }

  lemma {:induction false} MatchingDekWrapAadExact(r: SecretRecord, kdfLabel: string, candidates: seq<Stamp>, aad: WrapAad)
    ensures MatchingDekWrapAad(r, kdfLabel, candidates) == Some(aad) <==>
            aad.createdAt in candidates && aad == WrapAadOf(r, kdfLabel, aad.createdAt) && r.dekWrapAadHash == Sha256(aad)
  {
    if candidates != [] {
      MatchingDekWrapAadExact(r, kdfLabel, candidates[1..], aad);
      assert candidates == [candidates[0]] + candidates[1..];
    }
  }

  /** Two records agree on everything the seals bind, up to how the creation time is spelt. */
  ghost predicate SameBinding(sealed: SecretRecord, r: SecretRecord)
  {
    && r.vaultId == sealed.vaultId && r.namespaceId == sealed.namespaceId
    && r.secretId == sealed.secretId && r.secretRef == sealed.secretRef && r.secretVersion == sealed.secretVersion
    && r.secretType == sealed.secretType
    && r.policyId == sealed.policyId && r.policyHash == sealed.policyHash && r.metadataHash == sealed.metadataHash
    && r.providerPolicyHash == sealed.providerPolicyHash
    && sealed.createdAt in CreatedAtCandidates(r.createdAt)
    && r.secretAadHash == sealed.secretAadHash && r.dekWrapAadHash == sealed.dekWrapAadHash
  }

  /** A record that carries an encryption's ciphertexts under any other fields, opened with any
      keys, decrypts exactly when keys and bound fields are the original ones, and then to the
      original plaintext. The status is not bound: promoting or disabling keeps the secret. */
  lemma EnvelopeExact(keys: KeyHierarchy, namespaceId: string, secretId: string, secretRef: string, version: nat,
                      plaintext: seq<byte>, secretType: SecretType, policyId: string, policyHash: string,
                      metadataHash: Digest<string>, providerPolicyHash: string, now: int, random: Randomness,
                      r: SecretRecord, others: KeyHierarchy)
    requires var sealed := EncryptSecret(keys, namespaceId, secretId, secretRef, version, plaintext, secretType,
                                         policyId, policyHash, metadataHash, providerPolicyHash, now, random);
             && r.ciphertext == sealed.ciphertext && r.secretNonce == sealed.secretNonce
             && r.wrappedDek == sealed.wrappedDek && r.dekNonce == sealed.dekNonce
    ensures var sealed := EncryptSecret(keys, namespaceId, secretId, secretRef, version, plaintext, secretType,
                                        policyId, policyHash, metadataHash, providerPolicyHash, now, random);
            && (DecryptSecret(others, r).Ok? <==> others == keys && SameBinding(sealed, r))
            && (DecryptSecret(others, r).Ok? ==> DecryptSecret(others, r).value == plaintext)
            && DecryptSecret(keys, sealed) == Ok(plaintext)
  {
    var sealed := EncryptSecret(keys, namespaceId, secretId, secretRef, version, plaintext, secretType,
                                policyId, policyHash, metadataHash, providerPolicyHash, now, random);
    var a, w := sealed.secretAadHash.of, sealed.dekWrapAadHash.of;
    BoundAads(others, r, a, w);
    BoundAads(keys, sealed, a, w);
  }

  lemma BoundAads(keys: KeyHierarchy, r: SecretRecord, a: SecretAad, w: WrapAad)
    ensures var cs := CreatedAtCandidates(r.createdAt);
            var kdfLabel := keys.SecretKekLabel(r.secretId, r.secretVersion);
            && (MatchingSecretAad(r, cs) == Some(a) <==>
                  a.createdAt in cs && a == SecretAadOf(r, a.createdAt) && r.secretAadHash == Sha256(a))
            && (MatchingDekWrapAad(r, kdfLabel, cs) == Some(w) <==>
                  w.createdAt in cs && w == WrapAadOf(r, kdfLabel, w.createdAt) && r.dekWrapAadHash == Sha256(w))
  {
    MatchingSecretAadExact(r, CreatedAtCandidates(r.createdAt), a);
    MatchingDekWrapAadExact(r, keys.SecretKekLabel(r.secretId, r.secretVersion), CreatedAtCandidates(r.createdAt), w);
  }

  /** A changed status decrypts to the same result. */
  lemma StatusUnbound(keys: KeyHierarchy, r: SecretRecord, status: SecretStatus)
    ensures DecryptSecret(keys, r.(status := status)) == DecryptSecret(keys, r)
  {
    var s := r.(status := status);
    var cs := CreatedAtCandidates(r.createdAt);
    SameSecretAad(r, s, cs);
    SameWrapAad(r, s, keys.SecretKekLabel(r.secretId, r.secretVersion), cs);
  }

  lemma {:induction false} SameSecretAad(r: SecretRecord, s: SecretRecord, candidates: seq<Stamp>)
    requires s == r.(status := s.status)
    ensures MatchingSecretAad(s, candidates) == MatchingSecretAad(r, candidates)
  {
    if candidates != [] {
      SameSecretAad(r, s, candidates[1..]);
    }
  }

  lemma {:induction false} SameWrapAad(r: SecretRecord, s: SecretRecord, kdfLabel: string, candidates: seq<Stamp>)
    requires s == r.(status := s.status)
    ensures MatchingDekWrapAad(s, kdfLabel, candidates) == MatchingDekWrapAad(r, kdfLabel, candidates)
  {
    if candidates != [] {
      SameWrapAad(r, s, kdfLabel, candidates[1..]);
    }
  }
}
