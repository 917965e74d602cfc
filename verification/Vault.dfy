/** `vault.rs`: the operations of `LocalVault` over its store. Each method makes the source's
    reads and writes one by one and is proved to be the atomic operation `Exec`. */
module Vault {
  import opened Wrappers
  import opened Keys
  import opened Envelope
  import opened Policy
  import opened Tickets
  import opened Rotation
  import opened Store
  import opened Operations
  import opened Invariants

  lemma NoEffects(s: Tables)
    ensures DoAll(s, []) == s
  {
  }

  lemma CheckedIsValid(s: Tables, k: KeyHierarchy, ticketId: string, q: AccessRequest, now: int)
    requires CheckedTicket(s, k, ticketId, q, now).Ok?
    ensures var t := CheckedTicket(s, k, ticketId, q, now).value;
            t.body.usesRemaining >= 1 && Manager(k).Consume(t, q, now) == Ok(Used(k, t))
  {
    hide PolicyCheck, CurrencyCheck, FindPolicy, LatestRecord, ActivePolicy;
  }

  lemma ConsumeShape(s: Tables, h: VaultHeader, k: KeyHierarchy, env: Env, ticketId: string, q: AccessRequest,
                     t: SecretAccessTicket)
    requires t.body.usesRemaining >= 1
    requires CheckedTicket(s, k, ticketId, q, env.now) == Ok(t)
    ensures var plan := ConsumePlan(s, h, k, env, ticketId, q);
            var rest := MaterializePlan(h, k, env, t, q, ReadForTicket(s.records, t));
            if SwapApplies(s.tickets, t) then
              DoAll(s, plan.effects) == DoAll(Do(s, SwapTicket(t, Used(k, t))), rest.effects) && plan.outcome == rest.outcome
            else
              DoAll(s, plan.effects) == s && plan.outcome == Err(TicketConflict(t.body.ticketId))
  {
    hide CheckedTicket, MaterializePlan, ReadForTicket, DoAll, SwapApplies, Do;
    NoEffects(s);
    OneEffect(s, SwapTicket(t, Used(k, t)));
    DoAllAppend(s, [SwapTicket(t, Used(k, t))], MaterializePlan(h, k, env, t, q, ReadForTicket(s.records, t)).effects);
  }

  lemma SwapKeepsRest(s: Tables, t: SecretAccessTicket, u: SecretAccessTicket, eventId: string)
    ensures FreshEvent(s, eventId) ==> FreshEvent(Do(s, SwapTicket(t, u)), eventId)
    ensures !SwapApplies(s.tickets, t) ==> Do(s, SwapTicket(t, u)) == s
    ensures Do(s, SwapTicket(t, u)).records == s.records
  {
  }

  lemma OneEffect(s: Tables, a: Effect)
    ensures DoAll(s, [a]) == Do(s, a)
  {
    assert [a][1..] == [];
    assert DoAll(s, [a]) == DoAll(Do(s, a), []);
  }

  lemma TwoEffects(s: Tables, a: Effect, b: Effect)
    ensures DoAll(s, [a, b]) == Do(Do(s, a), b)
  {
    assert [a, b][1..] == [b];
    OneEffect(Do(s, a), b);
  }

  lemma ThreeEffects(s: Tables, a: Effect, b: Effect, c: Effect)
    ensures DoAll(s, [a, b, c]) == Do(Do(Do(s, a), b), c)
  {
    assert [a, b, c][1..] == [b, c];
    TwoEffects(Do(s, a), b, c);
  }

  lemma FourEffects(s: Tables, a: Effect, b: Effect, c: Effect, d: Effect)
    ensures DoAll(s, [a, b, c, d]) == Do(Do(Do(Do(s, a), b), c), d)
  {
    assert [a, b, c, d][1..] == [b, c, d];
    ThreeEffects(Do(s, a), b, c, d);
  }

  lemma {:induction false} DoAllAppend(s: Tables, es: seq<Effect>, fs: seq<Effect>)
    ensures DoAll(s, es + fs) == DoAll(DoAll(s, es), fs)
    decreases |es|
  {
    if es == [] {
      assert es + fs == fs;
    } else {
      assert (es + fs)[1..] == es[1..] + fs;
      DoAllAppend(Do(s, es[0]), es[1..], fs);
    }
  }

  lemma RevokeLoopEnd(s: Tables, k: KeyHierarchy)
    ensures RevokeLoop(k, []) == ([], Ok(0)) && DoAll(s, []) == s
  {
  }

  lemma TicketWriteKeepsLog(s: Tables, t: SecretAccessTicket, eventId: string)
    ensures FreshEvent(s, eventId) ==> FreshEvent(Do(s, SaveTicket(t)), eventId)
    ensures Do(s, SaveTicket(t)).header == s.header
  {
  }

  class LocalVault {
    const store: SqliteVaultStore

    constructor (store: SqliteVaultStore)
      ensures this.store == store
    {
      this.store := store;
    }

    /** `root` and `vaultId` are drawn at random and wrapped into `binding` by the provider. */
    method Init(vaultId: string, namespaceId: string, root: Key, binding: ProviderBinding,
                details: map<string, Audit.Json>, env: Env) returns (r: Outcome)
      requires FreshEvent(store.State(), env.eventId)
      modifies store
      ensures var h := VaultHeader(vaultId, namespaceId, binding, UtcMillis(env.now));
              && (old(store.header).Some? ==> r == Err(VaultAlreadyInitialized) && store.State() == old(store.State()))
              && (old(store.header).None? ==>
                    r == Ok(HeaderOf(h)) && store.State() ==
                    Do(Do(old(store.State()), SaveHeader(h)),
                       Log(h, KeyHierarchy(vaultId, root), env, "vault.initialized", "info", "allow", details)))
              && (old(store.State()) == EMPTY ==> store.State() == Created(h, KeyHierarchy(vaultId, root), env, details))
    {
      var header := VaultHeader(vaultId, namespaceId, binding, UtcMillis(env.now));
      var created := store.CreateVault(header);
      if created.Err? {
        return Err(created.error);
      }
      LogEvent(header, KeyHierarchy(vaultId, root), env, "vault.initialized", "info", "allow", details);
      return Ok(HeaderOf(header));
    }

    method UnlockKeys(passphrase: Option<string>) returns (r: Result<(VaultHeader, KeyHierarchy), VaultError>)
      ensures r == Unlock(store.header, passphrase)
      ensures r.Ok? ==> store.header.Some?
    {
      var header := store.LoadHeader();
      if header.Err? {
        return Err(header.error);
      }
      r := Unlock(Some(header.value), passphrase);
    }

    method LogEvent(h: VaultHeader, k: KeyHierarchy, env: Env, eventType: string, severity: string, decision: string,
                    metadata: map<string, Audit.Json>)
      requires FreshEvent(store.State(), env.eventId)
      modifies store
      ensures store.State() == Do(old(store.State()), Log(h, k, env, eventType, severity, decision, metadata))
    {
      var _ := store.AppendAuditEvent(
        k.AuditIntegrityKey(),
        Audit.Entry(env.eventId, UtcMillis(env.now), h.vaultId, h.namespaceId, eventType, severity, decision, metadata));
    }

    method PutSecret(secretRef: string, plaintext: seq<byte>, passphrase: string, secretType: SecretType, env: Env)
      returns (r: Outcome)
      requires FreshEvent(store.State(), env.eventId)
      modifies store
      ensures (store.State(), r) ==
              Exec(old(store.State()), Put(secretRef, plaintext, secretType), Some(passphrase), env)
    {
      hide DoAll, Unlock, EncryptAt, Log, SecretIdFromRef, Exec, LatestVersion;
      NoEffects(store.State());
      var unlocked := UnlockKeys(Some(passphrase));
      if unlocked.Err? {
        ExecRefuses(store.State(), Put(secretRef, plaintext, secretType), Some(passphrase), env);
        return Err(unlocked.error);
      }
      var (h, k) := unlocked.value;
      ExecIs(store.State(), h, k, Put(secretRef, plaintext, secretType), Some(passphrase), env);
      var latest := store.MaxVersion(secretRef);
      var version := (if latest.Some? then latest.value else 0) + 1;
      var secretId := SecretIdFromRef(secretRef);
      if secretId.None? {
        return Err(InvalidSecretRef);
      }
      var record := EncryptAt(h, k, env, secretId.value, secretRef, version, plaintext, secretType);
      var saved := store.SaveSecretRecord(record);
      var fingerprint := Fingerprint(k.RedactionFingerprintKey(), plaintext);
      store.SaveRedactionFingerprint(secretRef, version, fingerprint);
      var details := map["secret_ref" := Audit.JString(secretRef), "secret_version" := Audit.JNumber(version)];
      LogEvent(h, k, env, "secret.stored", "info", "allow", details);
      ThreeEffects(old(store.State()), SaveRecord(record), SaveFingerprint(secretRef, version, fingerprint),
                   Log(h, k, env, "secret.stored", "info", "allow", details));
      return Ok(Version(version));
    }

    method EnrollTotpMfa(config: seq<byte>, details: map<string, Audit.Json>, passphrase: string, env: Env)
      returns (r: Outcome)
      requires FreshEvent(store.State(), env.eventId)
      modifies store
      ensures (store.State(), r) == Exec(old(store.State()), EnrollTotp(config, details), Some(passphrase), env)
    {
      hide DoAll, Unlock, EncryptAt, Log, SecretIdFromRef;
      NoEffects(store.State());
      var unlocked := UnlockKeys(Some(passphrase));
      if unlocked.Err? {
        return Err(unlocked.error);
      }
      var (h, k) := unlocked.value;
      var latest := store.MaxVersion(TOTP_SECRET_REF);
      var version := (if latest.Some? then latest.value else 0) + 1;
      var secretId := SecretIdFromRef(TOTP_SECRET_REF);
      if secretId.None? {
        return Err(InvalidSecretRef);
      }
      var record := EncryptAt(h, k, env, secretId.value, TOTP_SECRET_REF, version, config, Token);
      var saved := store.SaveSecretRecord(record);
      LogEvent(h, k, env, "mfa.totp_enrolled", "high", "allow", details);
      TwoEffects(old(store.State()), SaveRecord(record), Log(h, k, env, "mfa.totp_enrolled", "high", "allow", details));
      return Ok(Done);
    }

    method GetSecret(secretRef: string, passphrase: string, env: Env) returns (r: Outcome)
      requires FreshEvent(store.State(), env.eventId)
      modifies store
      ensures (store.State(), r) == Exec(old(store.State()), Get(secretRef), Some(passphrase), env)
    {
      var unlocked := UnlockKeys(Some(passphrase));
      if unlocked.Err? {
        return Err(unlocked.error);
      }
      var (h, k) := unlocked.value;
      var loaded := store.LoadLatestSecret(secretRef);
      if loaded.Err? {
        return Err(loaded.error);
      }
      var record := loaded.value;
      if record.status != Active {
        var details := map["secret_ref" := Audit.JString(secretRef), "secret_version" := Audit.JNumber(record.secretVersion),
                           "reason" := Audit.JString("secret status is " + StatusString(record.status))];
        LogEvent(h, k, env, "secret.access_denied", "high", "deny", details);
        OneEffect(old(store.State()), Log(h, k, env, "secret.access_denied", "high", "deny", details));
        return Err(SecretUnavailable(record.status));
      }
      var plaintext := DecryptSecret(k, record);
      if plaintext.Err? {
        return Err(CryptoFailure(plaintext.error));
      }
      var details := map["secret_ref" := Audit.JString(secretRef), "secret_version" := Audit.JNumber(record.secretVersion)];
      LogEvent(h, k, env, "secret.materialized", "critical", "allow", details);
      OneEffect(old(store.State()), Log(h, k, env, "secret.materialized", "critical", "allow", details));
      return Ok(Plaintext(plaintext.value));
    }

    method DisableSecret(secretRef: string, passphrase: string, env: Env) returns (r: Outcome)
      requires FreshEvent(store.State(), env.eventId)
      modifies store
      ensures (store.State(), r) == Exec(old(store.State()), Disable(secretRef), Some(passphrase), env)
    {
      r := ChangeStatus(secretRef, Disabled, "secret.disabled", "high", passphrase, env);
    }

    method DestroySecret(secretRef: string, passphrase: string, env: Env) returns (r: Outcome)
      requires FreshEvent(store.State(), env.eventId)
      modifies store
      ensures (store.State(), r) == Exec(old(store.State()), Destroy(secretRef), Some(passphrase), env)
    {
      r := ChangeStatus(secretRef, Destroyed, "secret.destroyed", "critical", passphrase, env);
    }

    method ChangeStatus(secretRef: string, status: SecretStatus, eventType: string, severity: string,
                        passphrase: string, env: Env) returns (r: Outcome)
      requires FreshEvent(store.State(), env.eventId)
      modifies store
      ensures var s := old(store.State());
              match Unlock(s.header, Some(passphrase))
              case Err(e) => store.State() == s && r == Err(e)
              case Ok((h, k)) =>
                var plan := StatusPlan(h, k, env, secretRef, LatestRecord(s.records, secretRef), status, eventType, severity);
                store.State() == DoAll(s, plan.effects) && r == plan.outcome
    {
      var unlocked := UnlockKeys(Some(passphrase));
      if unlocked.Err? {
        return Err(unlocked.error);
      }
      var (h, k) := unlocked.value;
      var updated := store.SaveUpdatedSecretStatus(secretRef, status);
      if updated.Err? {
        return Err(updated.error);
      }
      var details := map["secret_ref" := Audit.JString(secretRef),
                         "secret_version" := Audit.JNumber(updated.value.secretVersion)];
      LogEvent(h, k, env, eventType, severity, "allow", details);
      TwoEffects(old(store.State()), SaveRecord(updated.value), Log(h, k, env, eventType, severity, "allow", details));
      return Ok(Record(updated.value));
    }

    method SaveAccessPolicy(policy: AccessPolicy, passphrase: string, env: Env) returns (r: Outcome)
      requires FreshEvent(store.State(), env.eventId)
      modifies store
      ensures (store.State(), r) == Exec(old(store.State()), AddPolicy(policy), Some(passphrase), env)
    {
      var unlocked := UnlockKeys(Some(passphrase));
      if unlocked.Err? {
        return Err(unlocked.error);
      }
      var (h, k) := unlocked.value;
      store.StorePolicy(policy);
      var details := map["policy_id" := Audit.JString(policy.policyId)];
      LogEvent(h, k, env, "policy.saved", "high", "allow", details);
      TwoEffects(old(store.State()), SavePolicy(policy), Log(h, k, env, "policy.saved", "high", "allow", details));
      return Ok(PolicyOf(policy));
    }

    method IssueAccessTicket(request: AccessRequest, passphrase: string, env: Env) returns (r: Outcome)
      requires FreshEvent(store.State(), env.eventId)
      modifies store
      ensures (store.State(), r) == Exec(old(store.State()), IssueTicket(request), Some(passphrase), env)
    {
      hide IssuePlan, Unlock, FreshEvent, LatestRecord;
      var unlocked := UnlockKeys(Some(passphrase));
      if unlocked.Err? {
        return Err(unlocked.error);
      }
      var (h, k) := unlocked.value;
      var loaded := store.LoadLatestSecret(request.secretRef);
      if loaded.Err? {
        return Err(loaded.error);
      }
      var record := loaded.value;
      if record.status != Active {
        return Err(SecretUnavailable(record.status));
      }
      var policies := store.ListPolicies();
      r := IssueUnder(h, k, record, policies, request, env);
    }

    method IssueUnder(h: VaultHeader, k: KeyHierarchy, record: SecretRecord, policies: seq<AccessPolicy>,
                      request: AccessRequest, env: Env) returns (r: Outcome)
      requires FreshEvent(store.State(), env.eventId)
      modifies store
      ensures var plan := IssuePlan(h, k, env, request, record, policies);
              store.State() == DoAll(old(store.State()), plan.effects) && r == plan.outcome
    {
      hide DoAll, Do, Evaluate, Log, FreshEvent, UtcMillis, SignedSeconds;
      var result := Evaluate(policies, request);
      if result.policy.None? {
        var details := map["secret_ref" := Audit.JString(request.secretRef), "consumer" := Audit.JString(request.consumer),
                           "purpose" := Audit.JString(request.purpose), "reason" := Audit.JString(result.reason)];
        LogEvent(h, k, env, "ticket.issue_denied", "high", "deny", details);
        OneEffect(old(store.State()), Log(h, k, env, "ticket.issue_denied", "high", "deny", details));
        return Err(PolicyDenied(result.reason));
      }
      var policy := result.policy.value;
      if result.decision != Allow {
        var details := map["secret_ref" := Audit.JString(request.secretRef), "consumer" := Audit.JString(request.consumer),
                           "purpose" := Audit.JString(request.purpose), "policy_id" := Audit.JString(policy.policyId),
                           "reason" := Audit.JString(result.reason)];
        LogEvent(h, k, env, "ticket.issue_denied", "high", "deny", details);
        OneEffect(old(store.State()), Log(h, k, env, "ticket.issue_denied", "high", "deny", details));
        return Err(PolicyDenied(result.reason));
      }
      var ticket := Manager(k).Issue(env.freshId, h.vaultId, record.secretId, record.secretVersion, request, policy,
                                     PolicyHash(policy), request.brokerSessionId);
      TicketWriteKeepsLog(store.State(), ticket, env.eventId);
      store.StoreTicket(ticket);
      var b := ticket.body;
      var details := map["secret_ref" := Audit.JString(b.secretRef), "consumer" := Audit.JString(b.consumer),
                         "purpose" := Audit.JString(b.purpose),
                         "delivery_mode" := Audit.JString(DeliveryModeString(b.deliveryMode)),
                         "ticket_id" := Audit.JString(b.ticketId), "policy_id" := Audit.JString(b.policyId)];
      LogEvent(h, k, env, "ticket.issued", "info", "allow", details);
      TwoEffects(old(store.State()), SaveTicket(ticket), Log(h, k, env, "ticket.issued", "info", "allow", details));
      return Ok(TicketOf(ticket));
    }

    method ActivePolicyFor(ticket: SecretAccessTicket) returns (r: Option<AccessPolicy>)
      ensures r == ActivePolicy(store.State(), ticket)
    {
      var policies := store.ListPolicies();
      for i := 0 to |policies|
        invariant FindPolicy(policies, ticket.body.policyId) == FindPolicy(policies[i..], ticket.body.policyId)
      {
        if policies[i].policyId == ticket.body.policyId {
          return Some(policies[i]);
        }
        assert policies[i..][1..] == policies[i + 1..];
      }
      return None;
    }

    method EnsureTicketSecretIsCurrent(ticket: SecretAccessTicket) returns (r: Result<(), VaultError>)
      ensures r == CurrencyCheck(ticket, LatestRecord(store.records, ticket.body.secretRef))
    {
      if ticket.body.secretVersion == 0 {
        return Ok(());
      }
      var latest := store.LoadLatestSecret(ticket.body.secretRef);
      if latest.Err? {
        return Err(latest.error);
      }
      if latest.value.secretVersion == ticket.body.secretVersion && latest.value.status == Active {
        return Ok(());
      }
      return Err(TicketSecretVersionStale);
    }

    method CheckTicket(k: KeyHierarchy, ticketId: string, request: AccessRequest, now: int)
      returns (r: Result<SecretAccessTicket, VaultError>)
      ensures r == CheckedTicket(store.State(), k, ticketId, request, now)
    {
      var found := store.LoadTicket(ticketId);
      if found.None? {
        return Err(TicketNotFound);
      }
      var ticket := found.value;
      var valid := Manager(k).Validate(ticket, request, now);
      if valid.Err? {
        return Err(TicketRejected(valid.error));
      }
      var policy := ActivePolicyFor(ticket);
      var checked := PolicyCheck(k, ticket, policy);
      if checked.Err? {
        return Err(checked.error);
      }
      var current := EnsureTicketSecretIsCurrent(ticket);
      if current.Err? {
        return Err(current.error);
      }
      return Ok(ticket);
    }

    method ValidateAccessTicket(ticketId: string, request: AccessRequest, passphrase: string, env: Env)
      returns (r: Outcome)
      ensures (store.State(), r) == Exec(old(store.State()), ValidateTicket(ticketId, request), Some(passphrase), env)
    {
      var unlocked := UnlockKeys(Some(passphrase));
      if unlocked.Err? {
        return Err(unlocked.error);
      }
      var checked := CheckTicket(unlocked.value.1, ticketId, request, env.now);
      if checked.Err? {
        return Err(checked.error);
      }
      return Ok(TicketOf(checked.value));
    }

    method RenewAccessTicket(ticketId: string, request: AccessRequest, passphrase: string, env: Env)
      returns (r: Outcome)
      requires FreshEvent(store.State(), env.eventId)
      modifies store
      ensures (store.State(), r) == Exec(old(store.State()), RenewTicket(ticketId, request), Some(passphrase), env)
    {
      hide RenewPlan, CheckedTicket, Unlock, FreshEvent, ActivePolicy;
      var unlocked := UnlockKeys(Some(passphrase));
      if unlocked.Err? {
        return Err(unlocked.error);
      }
      var (h, k) := unlocked.value;
      var checked := CheckTicket(k, ticketId, request, env.now);
      if checked.Err? {
        return Err(checked.error);
      }
      r := RenewChecked(h, k, checked.value, request, env);
    }

    method RenewChecked(h: VaultHeader, k: KeyHierarchy, oldTicket: SecretAccessTicket, request: AccessRequest, env: Env)
      returns (r: Outcome)
      requires FreshEvent(store.State(), env.eventId)
      modifies store
      ensures var s := old(store.State());
              var plan := RenewPlan(h, k, env, oldTicket, request, ActivePolicy(s, oldTicket));
              store.State() == DoAll(s, plan.effects) && r == plan.outcome
    {
      hide DoAll, ActivePolicy, Log, UtcMillis, SignedSeconds;
      NoEffects(store.State());
      var policy := ActivePolicyFor(oldTicket);
      if policy.None? {
        return Err(TicketPolicyChanged);
      }
      var renewed := Manager(k).Issue(env.freshId, h.vaultId, oldTicket.body.secretId, oldTicket.body.secretVersion,
                                      request, policy.value, PolicyHash(policy.value), oldTicket.body.brokerSessionId);
      var revoked := Manager(k).Revoke(oldTicket);
      if revoked.Err? {
        return Err(TicketRejected(revoked.error));
      }
      store.StoreTicket(revoked.value);
      store.StoreTicket(renewed);
      var details := map["old_ticket_id" := Audit.JString(oldTicket.body.ticketId),
                         "ticket_id" := Audit.JString(renewed.body.ticketId),
                         "secret_ref" := Audit.JString(renewed.body.secretRef),
                         "policy_id" := Audit.JString(renewed.body.policyId)];
      LogEvent(h, k, env, "ticket.renewed", "info", "allow", details);
      ThreeEffects(old(store.State()), SaveTicket(revoked.value), SaveTicket(renewed),
                   Log(h, k, env, "ticket.renewed", "info", "allow", details));
      return Ok(TicketOf(renewed));
    }

    method EnforcePlaintextExportAllowed(mfaVerified: bool) returns (r: Result<(), VaultError>)
      ensures r == ExportCheck(Lookup(store.metadata, PLAINTEXT_EXPORT_CONFIG_KEY),
                               LatestRecord(store.records, TOTP_SECRET_REF), mfaVerified)
    {
      var key := PLAINTEXT_EXPORT_CONFIG_KEY;
      if key !in store.metadata || store.metadata[key] != "enabled" {
        return Err(PlaintextExportDisabled);
      }
      var totp := store.LoadLatestSecret(TOTP_SECRET_REF);
      if totp.Ok? && totp.value.status == Active && !mfaVerified {
        return Err(PlaintextExportMfaRequired);
      }
      return Ok(());
    }

    method ConsumeTicketForSecret(ticketId: string, request: AccessRequest, passphrase: string, env: Env)
      returns (r: Outcome)
      requires FreshEvent(store.State(), env.eventId)
      modifies store
      ensures (store.State(), r) == Exec(old(store.State()), ConsumeTicket(ticketId, request), Some(passphrase), env)
    {
      hide CheckedTicket, Unlock, ExportCheck, Lookup, LatestRecord;
      if request.rawExportRequested {
        var allowed := EnforcePlaintextExportAllowed(request.mfaVerified);
        if allowed.Err? {
          return Err(allowed.error);
        }
      }
      var unlocked := UnlockKeys(Some(passphrase));
      if unlocked.Err? {
        return Err(unlocked.error);
      }
      var (h, k) := unlocked.value;
      var checked := CheckTicket(k, ticketId, request, env.now);
      if checked.Err? {
        return Err(checked.error);
      }
      r := ConsumeChecked(h, k, ticketId, checked.value, request, env);
    }

    method ConsumeChecked(h: VaultHeader, k: KeyHierarchy, ghost ticketId: string, ticket: SecretAccessTicket,
                          request: AccessRequest, env: Env) returns (r: Outcome)
      requires FreshEvent(store.State(), env.eventId)
      requires CheckedTicket(store.State(), k, ticketId, request, env.now) == Ok(ticket)
      modifies store
      ensures var s := old(store.State());
              var plan := ConsumePlan(s, h, k, env, ticketId, request);
              store.State() == DoAll(s, plan.effects) && r == plan.outcome
    {
      hide CheckedTicket, ConsumePlan, MaterializePlan, DoAll, ReadForTicket, FreshEvent, SwapApplies;
      ghost var s := store.State();
      CheckedIsValid(s, k, ticketId, request, env.now);
      ConsumeShape(s, h, k, env, ticketId, request, ticket);
      var updated := Manager(k).Consume(ticket, request, env.now).value;
      SwapKeepsRest(s, ticket, updated, env.eventId);
      var swapped := store.SaveTicketIfCurrent(ticket, updated);
      if swapped.Err? {
        return Err(swapped.error);
      }
      r := Materialize(h, k, ticket, request, env);
    }

    method Materialize(h: VaultHeader, k: KeyHierarchy, ticket: SecretAccessTicket, request: AccessRequest, env: Env)
      returns (r: Outcome)
      requires FreshEvent(store.State(), env.eventId)
      modifies store
      ensures var s := old(store.State());
              var plan := MaterializePlan(h, k, env, ticket, request, ReadForTicket(s.records, ticket));
              store.State() == DoAll(s, plan.effects) && r == plan.outcome
    {
      hide DoAll, Do, DecryptSecret, StatusString, DeliveryModeString, Log, FreshEvent;
      NoEffects(store.State());
      var b := ticket.body;
      var loaded;
      if b.secretVersion == 0 {
        loaded := store.LoadLatestSecret(b.secretRef);
      } else {
        loaded := store.LoadSecretVersion(b.secretRef, b.secretVersion);
      }
      if loaded.Err? {
        return Err(loaded.error);
      }
      var record := loaded.value;
      if record.status != Active {
        var details := map["secret_ref" := Audit.JString(b.secretRef), "ticket_id" := Audit.JString(b.ticketId),
                           "reason" := Audit.JString("secret status is " + StatusString(record.status))];
        LogEvent(h, k, env, "secret.access_denied", "high", "deny", details);
        OneEffect(old(store.State()), Log(h, k, env, "secret.access_denied", "high", "deny", details));
        return Err(SecretUnavailable(record.status));
      }
      var plaintext := DecryptSecret(k, record);
      if plaintext.Err? {
        return Err(CryptoFailure(plaintext.error));
      }
      var severity := if request.rawExportRequested then "critical" else "info";
      var details := map["secret_ref" := Audit.JString(b.secretRef), "ticket_id" := Audit.JString(b.ticketId),
                         "consumer" := Audit.JString(request.consumer), "purpose" := Audit.JString(request.purpose),
                         "delivery_mode" := Audit.JString(DeliveryModeString(request.deliveryMode))];
      LogEvent(h, k, env, "secret.materialized", severity, "allow", details);
      OneEffect(old(store.State()), Log(h, k, env, "secret.materialized", severity, "allow", details));
      return Ok(Plaintext(plaintext.value));
    }

    method RevokeAccessTicket(ticketId: string, passphrase: string, env: Env) returns (r: Outcome)
      requires FreshEvent(store.State(), env.eventId)
      modifies store
      ensures (store.State(), r) == Exec(old(store.State()), RevokeTicket(ticketId), Some(passphrase), env)
    {
      var unlocked := UnlockKeys(Some(passphrase));
      if unlocked.Err? {
        return Err(unlocked.error);
      }
      var (h, k) := unlocked.value;
      var found := store.LoadTicket(ticketId);
      if found.None? {
        return Err(TicketNotFound);
      }
      var revoked := Manager(k).Revoke(found.value);
      if revoked.Err? {
        return Err(TicketRejected(revoked.error));
      }
      store.StoreTicket(revoked.value);
      var details := map["ticket_id" := Audit.JString(ticketId),
                         "secret_ref" := Audit.JString(found.value.body.secretRef)];
      LogEvent(h, k, env, "ticket.revoked", "high", "allow", details);
      TwoEffects(old(store.State()), SaveTicket(revoked.value), Log(h, k, env, "ticket.revoked", "high", "allow", details));
      return Ok(TicketOf(revoked.value));
    }

    method RevokeAll(passphrase: string, reason: string, env: Env) returns (r: Outcome)
      requires FreshEvent(store.State(), env.eventId)
      modifies store
      ensures (store.State(), r) == Exec(old(store.State()), RevokeAllTickets(reason), Some(passphrase), env)
    {
      hide RevokeLoop, DoAll, Unlock, FreshEvent;
      var unlocked := UnlockKeys(Some(passphrase));
      if unlocked.Err? {
        return Err(unlocked.error);
      }
      var (h, k) := unlocked.value;
      var tickets := store.ListTickets();
      var count := RevokeEach(k, tickets, env.eventId);
      ghost var saves := RevokeLoop(k, tickets).0;
      if count.Err? {
        return Err(count.error);
      }
      var details := map["revoked_tickets" := Audit.JNumber(count.value), "reason" := Audit.JString(reason)];
      LogEvent(h, k, env, "lockdown.tickets_revoked", "critical", "allow", details);
      ghost var event := Log(h, k, env, "lockdown.tickets_revoked", "critical", "allow", details);
      DoAllAppend(old(store.State()), saves, [event]);
      OneEffect(DoAll(old(store.State()), saves), event);
      return Ok(Count(count.value));
    }

    method RevokeEach(k: KeyHierarchy, tickets: seq<SecretAccessTicket>, ghost eventId: string)
      returns (r: Result<nat, VaultError>)
      modifies store
      ensures var (saves, total) := RevokeLoop(k, tickets);
              store.State() == DoAll(old(store.State()), saves) && r == total
      ensures FreshEvent(old(store.State()), eventId) ==> FreshEvent(store.State(), eventId)
      ensures store.header == old(store.header)
    {
      hide RevokeLoop, DoAll, Do, FreshEvent;
      var count := 0;
      ghost var s := old(store.State());
      ghost var (saves, total) := RevokeLoop(k, tickets);
      assert tickets[0..] == tickets;
      for i := 0 to |tickets|
        invariant FreshEvent(s, eventId) ==> FreshEvent(store.State(), eventId)
        invariant store.header == s.header
        invariant DoAll(store.State(), RevokeLoop(k, tickets[i..]).0) == DoAll(s, saves)
        invariant total == More(count, RevokeLoop(k, tickets[i..]).1)
      {
        assert tickets[i..][1..] == tickets[i + 1..];
        RevokeLoopStep(store.State(), k, tickets[i..]);
        if !tickets[i].body.revoked {
          var revoked := Manager(k).Revoke(tickets[i]);
          if revoked.Err? {
            return Err(TicketRejected(revoked.error));
          }
          TicketWriteKeepsLog(store.State(), revoked.value, eventId);
          store.StoreTicket(revoked.value);
          count := count + 1;
        }
      }
      assert tickets[|tickets|..] == [];
      RevokeLoopEnd(store.State(), k);
      return Ok(count);
    }

    method BeginRotation(secretRef: string, plaintext: seq<byte>, passphrase: string, secretType: SecretType, env: Env)
      returns (r: Outcome)
      requires FreshEvent(store.State(), env.eventId)
      modifies store
      ensures (store.State(), r) ==
              Exec(old(store.State()), StartRotation(secretRef, plaintext, secretType), Some(passphrase), env)
    {
      hide DoAll, Unlock, EncryptAt, Log, SecretIdFromRef, Exec, LatestVersion;
      NoEffects(store.State());
      var unlocked := UnlockKeys(Some(passphrase));
      if unlocked.Err? {
        ExecRefuses(store.State(), StartRotation(secretRef, plaintext, secretType), Some(passphrase), env);
        return Err(unlocked.error);
      }
      var (h, k) := unlocked.value;
      ExecIs(store.State(), h, k, StartRotation(secretRef, plaintext, secretType), Some(passphrase), env);
      var latest := store.MaxVersion(secretRef);
      var stagedVersion := (if latest.Some? then latest.value else 0) + 1;
      var secretId := SecretIdFromRef(secretRef);
      if secretId.None? {
        return Err(InvalidSecretRef);
      }
      var staged := EncryptAt(h, k, env, secretId.value, secretRef, stagedVersion, plaintext, secretType);
      staged := staged.(status := Staged);
      var job := CreateJob(env.freshId, h.vaultId, secretRef, stagedVersion, staged, env.now);
      store.SaveRotationJob(job);
      var details := map["job_id" := Audit.JString(job.jobId), "secret_ref" := Audit.JString(secretRef),
                         "staged_version" := Audit.JNumber(stagedVersion)];
      LogEvent(h, k, env, "rotation.started", "info", "allow", details);
      TwoEffects(old(store.State()), SaveJob(job), Log(h, k, env, "rotation.started", "info", "allow", details));
      return Ok(JobOf(job));
    }

    method CheckRotation(jobId: string, passphrase: string, env: Env) returns (r: Outcome)
      requires FreshEvent(store.State(), env.eventId)
      modifies store
      ensures (store.State(), r) == Exec(old(store.State()), VerifyRotation(jobId), Some(passphrase), env)
    {
      var unlocked := UnlockKeys(Some(passphrase));
      if unlocked.Err? {
        return Err(unlocked.error);
      }
      var (h, k) := unlocked.value;
      var found := store.LoadRotationJob(jobId);
      if found.None? {
        return Err(RotationJobNotFound);
      }
      var job := found.value;
      if job.status != StagedJob {
        return Err(InvalidRotationState(job.status));
      }
      var plaintext := DecryptSecret(k, job.stagedRecord);
      if plaintext.Err? {
        return Err(CryptoFailure(plaintext.error));
      }
      var verified := Transition(job, Verified, None, env.now);
      store.SaveRotationJob(verified);
      var details := map["job_id" := Audit.JString(jobId), "secret_ref" := Audit.JString(verified.secretRef)];
      LogEvent(h, k, env, "rotation.verified", "info", "allow", details);
      TwoEffects(old(store.State()), SaveJob(verified), Log(h, k, env, "rotation.verified", "info", "allow", details));
      return Ok(JobOf(verified));
    }

    method Promote(jobId: string, passphrase: string, env: Env) returns (r: Outcome)
      requires FreshEvent(store.State(), env.eventId)
      modifies store
      ensures (store.State(), r) == Exec(old(store.State()), PromoteRotation(jobId), Some(passphrase), env)
    {
      hide DoAll, Unlock, DecryptSecret;
      NoEffects(store.State());
      var unlocked := UnlockKeys(Some(passphrase));
      if unlocked.Err? {
        return Err(unlocked.error);
      }
      var (h, k) := unlocked.value;
      var found := store.LoadRotationJob(jobId);
      if found.None? {
        return Err(RotationJobNotFound);
      }
      var job := found.value;
      if job.status != Verified {
        return Err(InvalidRotationState(job.status));
      }
      var plaintext := DecryptSecret(k, job.stagedRecord);
      if plaintext.Err? {
        return Err(CryptoFailure(plaintext.error));
      }
      var activeRecord := job.stagedRecord.(status := Active);
      var saved := store.SaveSecretRecord(activeRecord);
      var fingerprint := Fingerprint(k.RedactionFingerprintKey(), plaintext.value);
      store.SaveRedactionFingerprint(job.secretRef, job.stagedVersion, fingerprint);
      var promoted := Transition(job, Promoted, None, env.now);
      store.SaveRotationJob(promoted);
      var details := map["job_id" := Audit.JString(jobId), "secret_ref" := Audit.JString(promoted.secretRef),
                         "version" := Audit.JNumber(promoted.stagedVersion)];
      LogEvent(h, k, env, "rotation.promoted", "high", "allow", details);
      FourEffects(old(store.State()), SaveRecord(activeRecord),
                  SaveFingerprint(job.secretRef, job.stagedVersion, fingerprint), SaveJob(promoted),
                  Log(h, k, env, "rotation.promoted", "high", "allow", details));
      return Ok(JobOf(promoted));
    }

    method Rollback(jobId: string, passphrase: string, env: Env) returns (r: Outcome)
      requires FreshEvent(store.State(), env.eventId)
      modifies store
      ensures (store.State(), r) == Exec(old(store.State()), RollbackRotation(jobId), Some(passphrase), env)
    {
      var unlocked := UnlockKeys(Some(passphrase));
      if unlocked.Err? {
        return Err(unlocked.error);
      }
      var (h, k) := unlocked.value;
      var found := store.LoadRotationJob(jobId);
      if found.None? {
        return Err(RotationJobNotFound);
      }
      var job := found.value;
      if job.status != StagedJob && job.status != Verified {
        return Err(InvalidRotationState(job.status));
      }
      var rolledBack := Transition(job, RolledBack, None, env.now);
      store.SaveRotationJob(rolledBack);
      var details := map["job_id" := Audit.JString(jobId), "secret_ref" := Audit.JString(rolledBack.secretRef)];
      LogEvent(h, k, env, "rotation.rolled_back", "critical", "allow", details);
      TwoEffects(old(store.State()), SaveJob(rolledBack),
                 Log(h, k, env, "rotation.rolled_back", "critical", "allow", details));
      return Ok(JobOf(rolledBack));
    }

    method Rewrap(currentPassphrase: Option<string>, provider: string, newPassphrase: Option<string>, device: string,
                  env: Env) returns (r: Outcome)
      requires FreshEvent(store.State(), env.eventId)
      modifies store
      ensures (store.State(), r) ==
              Exec(old(store.State()), RewrapProvider(provider, newPassphrase, device), currentPassphrase, env)
    {
      var unlocked := UnlockKeys(currentPassphrase);
      if unlocked.Err? {
        return Err(unlocked.error);
      }
      var (h, k) := unlocked.value;
      var binding := NewBinding(provider, newPassphrase, device, k.rootKey);
      if binding.Err? {
        return Err(binding.error);
      }
      var updated := h.(binding := binding.value);
      var written := store.UpdateHeader(updated);
      var details := map["old_provider_id" := Audit.JString(ProviderId(h.binding)),
                         "new_provider_id" := Audit.JString(ProviderId(updated.binding))];
      LogEvent(updated, k, env, "provider.rewrapped", "high", "allow", details);
      TwoEffects(old(store.State()), SaveHeader(updated),
                 Log(updated, k, env, "provider.rewrapped", "high", "allow", details));
      return Ok(HeaderOf(updated));
    }

    method SetPlaintextExportEnabled(enabled: bool, allowWithoutMfa: bool, passphrase: string, env: Env)
      returns (r: Outcome)
      requires FreshEvent(store.State(), env.eventId)
      modifies store
      ensures (store.State(), r) ==
              Exec(old(store.State()), SetPlaintextExport(enabled, allowWithoutMfa), Some(passphrase), env)
    {
      hide DoAll, Unlock, Log, LatestRecord;
      NoEffects(store.State());
      var unlocked := UnlockKeys(Some(passphrase));
      if unlocked.Err? {
        return Err(unlocked.error);
      }
      var (h, k) := unlocked.value;
      var totp := store.LoadLatestSecret(TOTP_SECRET_REF);
      if enabled && !allowWithoutMfa && !(totp.Ok? && totp.value.status == Active) {
        return Err(PlaintextExportMfaEnrollmentRequired);
      }
      var value := if enabled then "enabled" else "disabled";
      store.SetMetadata(PLAINTEXT_EXPORT_CONFIG_KEY, value);
      var eventType := if enabled then "config.plaintext_export_enabled" else "config.plaintext_export_disabled";
      var details := map["plaintext_export_enabled" := Audit.JBool(enabled),
                         "allow_without_mfa" := Audit.JBool(allowWithoutMfa)];
      LogEvent(h, k, env, eventType, "critical", "allow", details);
      TwoEffects(old(store.State()), SaveMetadata(PLAINTEXT_EXPORT_CONFIG_KEY, value),
                 Log(h, k, env, eventType, "critical", "allow", details));
      return Ok(Done);
    }

    method VerifyAuditLog(passphrase: string, env: Env) returns (r: Outcome)
      ensures (store.State(), r) == Exec(old(store.State()), VerifyAudit, Some(passphrase), env)
    {
      var unlocked := UnlockKeys(Some(passphrase));
      if unlocked.Err? {
        return Err(unlocked.error);
      }
      var verdict := Audit.VerifyAuditChain(store.auditEvents, unlocked.value.1.AuditIntegrityKey());
      if verdict.Err? {
        return Err(AuditFailure(verdict.error));
      }
      return Ok(Done);
    }
  }
}
