/** Every write an operation plans is a sound one, even when planned from values read in an
    earlier state; so whole operations keep the tables sound. */
module Soundness {
  import opened Wrappers
  import opened Keys
  import opened Envelope
  import opened Policy
  import opened Tickets
  import opened Rotation
  import opened Ordering
  import opened Store
  import opened Operations
  import opened Invariants

  // ---- Values read earlier ----

  predicate RecordSeen(s: Tables, k: KeyHierarchy, r: SecretRecord)
  {
    RecordOk(r, k) && (r.secretRef, r.secretVersion) in s.records
  }

  predicate TicketSeen(s: Tables, k: KeyHierarchy, t: SecretAccessTicket)
  {
    TicketOk(t, s.records, k) && Inherits(s.tickets, t)
  }

  predicate JobSeen(s: Tables, k: KeyHierarchy, j: RotationJob)
  {
    JobOk(j, s.records, k) && j.jobId in s.jobs && JobCore(s.jobs[j.jobId]) == JobCore(j)
  }

  predicate VersionSeen(s: Tables, secretRef: string, latest: Option<nat>)
  {
    latest.Some? ==> (secretRef, latest.value) in s.records
  }

  lemma LatestSeen(s: Tables, k: KeyHierarchy, secretRef: string)
    requires TablesOk(s, k)
    ensures VersionSeen(s, secretRef, LatestVersion(s.records, secretRef))
    ensures LatestRecord(s.records, secretRef).Some? ==>
              var r := LatestRecord(s.records, secretRef).value;
              RecordSeen(s, k, r) && r.secretRef == secretRef
  {
    hide RecordOk;
  }

  lemma TicketRead(s: Tables, k: KeyHierarchy, id: string)
    requires TablesOk(s, k) && id in s.tickets
    ensures TicketSeen(s, k, s.tickets[id])
  {
    hide TicketOk;
  }

  lemma JobRead(s: Tables, k: KeyHierarchy, id: string)
    requires TablesOk(s, k) && id in s.jobs
    ensures JobSeen(s, k, s.jobs[id])
  {
    hide JobOk;
  }

  lemma ListingSeen(s: Tables, k: KeyHierarchy)
    requires TablesOk(s, k)
    ensures forall i :: 0 <= i < |Listing(s.tickets)| ==> TicketSeen(s, k, Listing(s.tickets)[i])
  {
    hide TicketOk, Inherits, Listing, TicketSeen;
    ListingMembers(s.tickets);
    var list := Listing(s.tickets);
    forall i | 0 <= i < |list| ensures TicketSeen(s, k, list[i]) {
      assert list[i] in list;
      var id :| id in s.tickets && s.tickets[id] == list[i];
      TicketRead(s, k, id);
    }
  }

  // ---- Sound plans ----

  /** The rows inserted are named by the operation's own new identifiers, none twice. */
  predicate OwnIdent(x: Ident, env: Env)
  {
    x == TicketId(env.freshId) || x == JobId(env.freshId) || x == EventId(env.eventId)
  }

  ghost predicate InsertsFrom(es: seq<Effect>, env: Env)
  {
    forall i :: 0 <= i < |es| && InsertOf(es[i]).Some? ==>
      OwnIdent(InsertOf(es[i]).value, env) && forall j :: 0 <= j < i ==> InsertOf(es[j]) != InsertOf(es[i])
  }

  ghost predicate EffectsOk(s: Tables, k: KeyHierarchy, es: seq<Effect>)
  {
    forall i :: 0 <= i < |es| ==> EffectOk(s, k, es[i])
  }

  ghost predicate PlanOk(s: Tables, k: KeyHierarchy, env: Env, plan: Plan)
  {
    EffectsOk(s, k, plan.effects) && InsertsFrom(plan.effects, env)
  }

  ghost predicate FreshEnv(s: Tables, env: Env)
  {
    env.freshId !in s.tickets && env.freshId !in s.jobs && FreshEvent(s, env.eventId)
  }

  lemma EncryptAtOk(h: VaultHeader, k: KeyHierarchy, env: Env, secretId: string, secretRef: string, version: nat,
                    plaintext: seq<byte>, secretType: SecretType)
    ensures var r := EncryptAt(h, k, env, secretId, secretRef, version, plaintext, secretType);
            && DecryptSecret(k, r) == Ok(plaintext) && r.status == Active
            && r.secretRef == secretRef && r.secretVersion == version
  {
    hide DecryptSecret;
    var r := EncryptAt(h, k, env, secretId, secretRef, version, plaintext, secretType);
    EnvelopeExact(k, h.namespaceId, secretId, secretRef, version, plaintext, secretType,
                  "default-deny", "mvp-default-deny-policy", Sha256(secretRef), "unbound-provider-policy",
                  env.now, env.random, r, k);
  }

  lemma LogOk(s: Tables, h: VaultHeader, k: KeyHierarchy, env: Env, eventType: string, severity: string,
              decision: string, metadata: map<string, Audit.Json>)
    ensures var e := Log(h, k, env, eventType, severity, decision, metadata);
            EffectOk(s, k, e) && InsertOf(e) == Some(EventId(env.eventId))
  {
  }

  lemma PutOk(s: Tables, h: VaultHeader, k: KeyHierarchy, env: Env, secretRef: string, plaintext: seq<byte>,
              secretType: SecretType, latest: Option<nat>)
    requires VersionSeen(s, secretRef, latest)
    ensures PlanOk(s, k, env, PutPlan(h, k, env, secretRef, plaintext, secretType, latest))
  {
    hide EncryptAt, DecryptSecret;
    var id := SecretIdFromRef(secretRef);
    if id.Some? {
      EncryptAtOk(h, k, env, id.value, secretRef, Next(latest), plaintext, secretType);
    }
  }

  lemma EnrollOk(s: Tables, h: VaultHeader, k: KeyHierarchy, env: Env, config: seq<byte>,
                 details: map<string, Audit.Json>, latest: Option<nat>)
    requires VersionSeen(s, TOTP_SECRET_REF, latest)
    ensures PlanOk(s, k, env, EnrollPlan(h, k, env, config, details, latest))
  {
    hide EncryptAt, DecryptSecret;
    var id := SecretIdFromRef(TOTP_SECRET_REF);
    if id.Some? {
      EncryptAtOk(h, k, env, id.value, TOTP_SECRET_REF, Next(latest), config, Token);
    }
  }

  lemma StoredFollows(records: Records, k: KeyHierarchy, r: SecretRecord)
    requires RecordsOk(records, k) && (r.secretRef, r.secretVersion) in records
    ensures Follows(records, r.secretRef, r.secretVersion)
  {
    hide RecordOk;
  }

  lemma StatusOk(s: Tables, h: VaultHeader, k: KeyHierarchy, env: Env, secretRef: string, latest: Option<SecretRecord>,
                 status: SecretStatus, eventType: string, severity: string)
    requires TablesOk(s, k) && status != Staged
    requires latest.Some? ==> RecordSeen(s, k, latest.value)
    ensures PlanOk(s, k, env, StatusPlan(h, k, env, secretRef, latest, status, eventType, severity))
  {
    hide DecryptSecret, TicketsOk, JobsOk, Audit.Verifies, HeaderOk, PoliciesOk, RecordsOk;
    if latest.Some? {
      var r := latest.value;
      assert RecordsOk(s.records, k);
      StoredFollows(s.records, k, r);
      StatusUnbound(k, latest.value, status);
    }
  }

  lemma IssueOk(s: Tables, h: VaultHeader, k: KeyHierarchy, env: Env, q: AccessRequest, r: SecretRecord,
                policies: seq<AccessPolicy>)
    requires RecordSeen(s, k, r) && r.secretRef == q.secretRef
    ensures PlanOk(s, k, env, IssuePlan(h, k, env, q, r, policies))
  {
    hide DecryptSecret, Evaluate, UtcMillis, SignedSeconds;
  }

  lemma RevokeWriteOk(s: Tables, k: KeyHierarchy, t: SecretAccessTicket)
    requires TicketSeen(s, k, t)
    ensures Manager(k).Revoke(t) == Ok(Barred(k, t)) && Barred(k, t).body.revoked
    ensures EffectOk(s, k, SaveTicket(Barred(k, t))) && InsertOf(SaveTicket(Barred(k, t))) == None
  {
  }

  lemma RenewOk(s: Tables, h: VaultHeader, k: KeyHierarchy, env: Env, t: SecretAccessTicket, q: AccessRequest,
                active: Option<AccessPolicy>)
    requires TicketSeen(s, k, t) && t.body.secretRef == q.secretRef
    ensures PlanOk(s, k, env, RenewPlan(h, k, env, t, q, active))
  {
    RevokeWriteOk(s, k, t);
    hide UtcMillis, SignedSeconds, Inherits, Core;
  }

  lemma RevokeOk(s: Tables, h: VaultHeader, k: KeyHierarchy, env: Env, ticketId: string, found: Option<SecretAccessTicket>)
    requires found.Some? ==> TicketSeen(s, k, found.value)
    ensures PlanOk(s, k, env, RevokePlan(h, k, env, ticketId, found))
  {
    hide TicketSeen, EffectOk, InsertOf, Log;
    if found.Some? {
      RevokeWriteOk(s, k, found.value);
      LogOk(s, h, k, env, "ticket.revoked", "high", "allow",
            map["ticket_id" := Audit.JString(ticketId), "secret_ref" := Audit.JString(found.value.body.secretRef)]);
    }
  }

  lemma {:induction false} RevokeLoopOk(s: Tables, k: KeyHierarchy, list: seq<SecretAccessTicket>)
    requires forall i :: 0 <= i < |list| ==> TicketSeen(s, k, list[i])
    ensures RevokeLoop(k, list).1.Ok?
    ensures forall e <- RevokeLoop(k, list).0 :: EffectOk(s, k, e) && InsertOf(e) == None && e.SaveTicket?
  {
    hide TicketSeen, EffectOk, InsertOf;
    if list != [] {
      RevokeLoopOk(s, k, list[1..]);
      RevokeWriteOk(s, k, list[0]);
    }
  }

  lemma RevokeAllOk(s: Tables, h: VaultHeader, k: KeyHierarchy, env: Env, reason: string, list: seq<SecretAccessTicket>)
    requires forall i :: 0 <= i < |list| ==> TicketSeen(s, k, list[i])
    ensures PlanOk(s, k, env, RevokeAllPlan(h, k, env, reason, list))
  {
    hide TicketSeen, EffectOk, InsertOf, Log, RevokeLoop;
    RevokeLoopOk(s, k, list);
    var (saves, count) := RevokeLoop(k, list);
    LogOk(s, h, k, env, "lockdown.tickets_revoked", "critical", "allow",
          map["revoked_tickets" := Audit.JNumber(count.value), "reason" := Audit.JString(reason)]);
  }

  lemma StartOk(s: Tables, h: VaultHeader, k: KeyHierarchy, env: Env, secretRef: string, plaintext: seq<byte>,
                secretType: SecretType, latest: Option<nat>)
    requires VersionSeen(s, secretRef, latest)
    ensures PlanOk(s, k, env, StartPlan(h, k, env, secretRef, plaintext, secretType, latest))
  {
    hide EncryptAt, DecryptSecret;
    var id := SecretIdFromRef(secretRef);
    if id.Some? {
      EncryptAtOk(h, k, env, id.value, secretRef, Next(latest), plaintext, secretType);
      StatusUnbound(k, EncryptAt(h, k, env, id.value, secretRef, Next(latest), plaintext, secretType), Staged);
    }
  }

  lemma VerifyOk(s: Tables, h: VaultHeader, k: KeyHierarchy, env: Env, jobId: string, found: Option<RotationJob>)
    requires found.Some? ==> JobSeen(s, k, found.value)
    ensures PlanOk(s, k, env, VerifyPlan(h, k, env, jobId, found))
  {
    hide DecryptSecret;
  }

  lemma PromoteOk(s: Tables, h: VaultHeader, k: KeyHierarchy, env: Env, jobId: string, found: Option<RotationJob>)
    requires found.Some? ==> JobSeen(s, k, found.value)
    ensures PlanOk(s, k, env, PromotePlan(h, k, env, jobId, found))
  {
    hide DecryptSecret;
    if found.Some? {
      StatusUnbound(k, found.value.stagedRecord, Active);
    }
  }

  lemma RollbackOk(s: Tables, h: VaultHeader, k: KeyHierarchy, env: Env, jobId: string, found: Option<RotationJob>)
    requires found.Some? ==> JobSeen(s, k, found.value)
    ensures PlanOk(s, k, env, RollbackPlan(h, k, env, jobId, found))
  {
    hide DecryptSecret;
  }

  lemma RewrapOk(s: Tables, h: VaultHeader, k: KeyHierarchy, env: Env, provider: string, newPassphrase: Option<string>,
                 device: string)
    requires HeaderOk(h, k)
    ensures PlanOk(s, k, env, RewrapPlan(h, k, env, provider, newPassphrase, device))
  {
  }

  lemma GetOk(s: Tables, h: VaultHeader, k: KeyHierarchy, env: Env, secretRef: string, r: Option<SecretRecord>)
    ensures PlanOk(s, k, env, GetPlan(h, k, env, secretRef, r))
  {
    hide DecryptSecret, StatusString;
  }

  lemma MaterializeOk(s: Tables, h: VaultHeader, k: KeyHierarchy, env: Env, t: SecretAccessTicket, q: AccessRequest,
                      r: Option<SecretRecord>)
    ensures PlanOk(s, k, env, MaterializePlan(h, k, env, t, q, r))
  {
    hide DecryptSecret, StatusString, DeliveryModeString;
  }

  lemma AddPolicyOk(s: Tables, h: VaultHeader, k: KeyHierarchy, env: Env, policy: AccessPolicy)
    ensures PlanOk(s, k, env, AddPolicyPlan(h, k, env, policy))
  {
  }

  lemma SetExportOk(s: Tables, h: VaultHeader, k: KeyHierarchy, env: Env, enabled: bool, allowWithoutMfa: bool,
                    totp: Option<SecretRecord>)
    ensures PlanOk(s, k, env, ExportConfigPlan(h, k, env, enabled, allowWithoutMfa, totp))
  {
  }

  // ---- Whole operations ----

  lemma CheckedSeen(s: Tables, k: KeyHierarchy, ticketId: string, q: AccessRequest, now: int)
    requires TablesOk(s, k) && CheckedTicket(s, k, ticketId, q, now).Ok?
    ensures var t := CheckedTicket(s, k, ticketId, q, now).value;
            && TicketSeen(s, k, t) && ticketId in s.tickets && t == s.tickets[ticketId]
            && !t.body.revoked && t.body.usesRemaining >= 1 && t.body.secretRef == q.secretRef
  {
    hide TicketSeen, PolicyCheck, CurrencyCheck, ActivePolicy, LatestRecord, TablesOk, SessionMatches, ParseStamp;
    if ticketId in s.tickets {
      TicketRead(s, k, ticketId);
    }
  }

  lemma CheckedApplies(s: Tables, k: KeyHierarchy, t: SecretAccessTicket)
    requires TablesOk(s, k) && exists id :: id in s.tickets && t == s.tickets[id]
    ensures SwapApplies(s.tickets, t)
  {
    hide TicketOk;
  }

  /** The plan of a consume that passed its checks: nothing can conflict. */
  lemma ConsumePlanned(s: Tables, h: VaultHeader, k: KeyHierarchy, env: Env, ticketId: string, q: AccessRequest,
                       t: SecretAccessTicket)
    requires CheckedTicket(s, k, ticketId, q, env.now) == Ok(t)
    requires SwapApplies(s.tickets, t) && t.body.usesRemaining >= 1
    ensures var rest := MaterializePlan(h, k, env, t, q, ReadForTicket(s.records, t));
            ConsumePlan(s, h, k, env, ticketId, q) == Plan([SwapTicket(t, Used(k, t))] + rest.effects, rest.outcome)
  {
    hide CheckedTicket, MaterializePlan, ReadForTicket, Used, SwapApplies;
  }

  lemma SwapFirst(s: Tables, k: KeyHierarchy, env: Env, t: SecretAccessTicket, rest: Plan)
    requires TicketSeen(s, k, t) && !t.body.revoked && t.body.usesRemaining >= 1
    requires PlanOk(s, k, env, rest)
    ensures PlanOk(s, k, env, Plan([SwapTicket(t, Used(k, t))] + rest.effects, rest.outcome))
  {
    hide TicketOk, Inherits, Used;
    var swap := SwapTicket(t, Used(k, t));
    assert EffectOk(s, k, swap) && InsertOf(swap) == None;
    hide EffectOk, InsertOf, OwnIdent;
    var es := [swap] + rest.effects;
    assert forall i :: 0 < i < |es| ==> es[i] == rest.effects[i - 1];
  }

  lemma ConsumeOk(s: Tables, h: VaultHeader, k: KeyHierarchy, env: Env, ticketId: string, q: AccessRequest)
    requires TablesOk(s, k)
    ensures PlanOk(s, k, env, ConsumePlan(s, h, k, env, ticketId, q))
  {
    hide CheckedTicket, MaterializePlan, ReadForTicket, TicketSeen, TablesOk, PlanOk, Used, SwapApplies;
    NothingOk(s, k, env);
    var checked := CheckedTicket(s, k, ticketId, q, env.now);
    if checked.Ok? {
      CheckedSeen(s, k, ticketId, q, env.now);
      var t := checked.value;
      var read := ReadForTicket(s.records, t);
      MaterializeOk(s, h, k, env, t, q, read);
      SwapFirst(s, k, env, t, MaterializePlan(h, k, env, t, q, read));
    }
  }

  /** Whatever the operation, the plan made from sound tables is sound. */
  lemma PlanOfOk(s: Tables, h: VaultHeader, k: KeyHierarchy, op: Op, env: Env)
    requires TablesOk(s, k) && HeaderOk(h, k)
    ensures PlanOk(s, k, env, PlanOf(s, h, k, op, env))
  {
    hide TablesOk, PlanOk, RecordSeen, TicketSeen, JobSeen, VersionSeen, LatestVersion, LatestRecord, HeaderOk,
         CheckedTicket, PutPlan, EnrollPlan, GetPlan, StatusPlan, IssuePlan, RenewPlan, ConsumePlan, RevokePlan,
         RevokeAllPlan, StartPlan, VerifyPlan, PromotePlan, RollbackPlan, RewrapPlan, AddPolicyPlan, ExportConfigPlan,
         ActivePolicy, Listing;
    NothingOk(s, k, env);
    match op
    case Put(secretRef, plaintext, secretType) =>
      LatestSeen(s, k, secretRef);
      PutOk(s, h, k, env, secretRef, plaintext, secretType, LatestVersion(s.records, secretRef));
    case EnrollTotp(config, details) =>
      LatestSeen(s, k, TOTP_SECRET_REF);
      EnrollOk(s, h, k, env, config, details, LatestVersion(s.records, TOTP_SECRET_REF));
    case Get(secretRef) =>
      GetOk(s, h, k, env, secretRef, LatestRecord(s.records, secretRef));
    case Disable(secretRef) =>
      LatestSeen(s, k, secretRef);
      StatusOk(s, h, k, env, secretRef, LatestRecord(s.records, secretRef), Disabled, "secret.disabled", "high");
    case Destroy(secretRef) =>
      LatestSeen(s, k, secretRef);
      StatusOk(s, h, k, env, secretRef, LatestRecord(s.records, secretRef), Destroyed, "secret.destroyed", "critical");
    case AddPolicy(policy) =>
      AddPolicyOk(s, h, k, env, policy);
    case IssueTicket(q) =>
      LatestSeen(s, k, q.secretRef);
      var r := LatestRecord(s.records, q.secretRef);
      if r.Some? {
        IssueOk(s, h, k, env, q, r.value, Listing(s.policies));
      }
    case ValidateTicket(_, _) =>
    case RenewTicket(ticketId, q) =>
      var checked := CheckedTicket(s, k, ticketId, q, env.now);
      if checked.Ok? {
        CheckedSeen(s, k, ticketId, q, env.now);
        RenewOk(s, h, k, env, checked.value, q, ActivePolicy(s, checked.value));
      }
    case ConsumeTicket(ticketId, q) =>
      ConsumeOk(s, h, k, env, ticketId, q);
    case RevokeTicket(ticketId) =>
      if ticketId in s.tickets {
        TicketRead(s, k, ticketId);
      }
      RevokeOk(s, h, k, env, ticketId, Lookup(s.tickets, ticketId));
    case RevokeAllTickets(reason) =>
      ListingSeen(s, k);
      RevokeAllOk(s, h, k, env, reason, Listing(s.tickets));
    case StartRotation(secretRef, plaintext, secretType) =>
      LatestSeen(s, k, secretRef);
      StartOk(s, h, k, env, secretRef, plaintext, secretType, LatestVersion(s.records, secretRef));
    case VerifyRotation(jobId) =>
      if jobId in s.jobs {
        JobRead(s, k, jobId);
      }
      VerifyOk(s, h, k, env, jobId, Lookup(s.jobs, jobId));
    case PromoteRotation(jobId) =>
      if jobId in s.jobs {
        JobRead(s, k, jobId);
      }
      PromoteOk(s, h, k, env, jobId, Lookup(s.jobs, jobId));
    case RollbackRotation(jobId) =>
      if jobId in s.jobs {
        JobRead(s, k, jobId);
      }
      RollbackOk(s, h, k, env, jobId, Lookup(s.jobs, jobId));
    case RewrapProvider(provider, newPassphrase, device) =>
      RewrapOk(s, h, k, env, provider, newPassphrase, device);
    case SetPlaintextExport(enabled, allowWithoutMfa) =>
      SetExportOk(s, h, k, env, enabled, allowWithoutMfa, LatestRecord(s.records, TOTP_SECRET_REF));
    case VerifyAudit =>
  }

  lemma NothingOk(s: Tables, k: KeyHierarchy, env: Env)
    ensures forall outcome :: PlanOk(s, k, env, Plan([], outcome))
  {
  }

  lemma IdUsedAfter(s: Tables, k: KeyHierarchy, e: Effect, x: Ident)
    requires EffectOk(s, k, e)
    ensures IdUsed(Do(s, e), x) <==> IdUsed(s, x) || InsertOf(e) == Some(x)
  {
    hide TicketOk, JobOk, RecordOk, HeaderOk, Used, JobCore;
    if e.AppendAudit? {
      var log := Do(s, e).audit;
      assert log[|s.audit|].entry == e.entry;
      assert forall i :: 0 <= i < |s.audit| ==> log[i] == s.audit[i];
    }
  }

  /** The rows a plan inserts are new, and named apart. */
  ghost predicate AllFresh(s: Tables, es: seq<Effect>)
  {
    && (forall i :: 0 <= i < |es| ==> Fresh(s, es[i]))
    && (forall i, j :: 0 <= j < i < |es| && InsertOf(es[i]).Some? ==> InsertOf(es[j]) != InsertOf(es[i]))
  }

  lemma PlanFresh(s: Tables, k: KeyHierarchy, env: Env, plan: Plan)
    requires PlanOk(s, k, env, plan) && FreshEnv(s, env)
    ensures EffectsOk(s, k, plan.effects) && AllFresh(s, plan.effects)
  {
    hide FreshEvent, InsertOf, EffectOk;
  }

  lemma RestFresh(s: Tables, k: KeyHierarchy, es: seq<Effect>)
    requires TablesOk(s, k) && EffectsOk(s, k, es) && AllFresh(s, es) && es != []
    ensures TablesOk(Do(s, es[0]), k) && Grows(s, Do(s, es[0]))
    ensures EffectsOk(Do(s, es[0]), k, es[1..]) && AllFresh(Do(s, es[0]), es[1..])
  {
    hide TablesOk, EffectOk, IdUsed, InsertOf, Do, Grows;
    var next, rest := Do(s, es[0]), es[1..];
    DoKeeps(s, k, es[0]);
    forall i | 0 <= i < |rest| ensures EffectOk(next, k, rest[i]) && Fresh(next, rest[i]) {
      EffectStaysOk(s, next, k, es[i + 1]);
      if InsertOf(rest[i]).Some? {
        assert InsertOf(es[0]) != InsertOf(es[i + 1]);
        IdUsedAfter(s, k, es[0], InsertOf(rest[i]).value);
      }
    }
  }

  /** Sound writes one after the other keep sound tables sound and only let them grow. */
  lemma {:induction false} DoAllKeeps(s: Tables, k: KeyHierarchy, es: seq<Effect>)
    requires TablesOk(s, k) && EffectsOk(s, k, es) && AllFresh(s, es)
    ensures TablesOk(DoAll(s, es), k) && Grows(s, DoAll(s, es))
    decreases |es|
  {
    hide TablesOk, EffectsOk, AllFresh, Do;
    if es != [] {
      hide Grows;
      RestFresh(s, k, es);
      DoAllKeeps(Do(s, es[0]), k, es[1..]);
      GrowsTransitive(s, Do(s, es[0]), DoAll(s, es));
    }
  }

  /** Every whole operation keeps the tables sound, and they only grow. */
  lemma ExecKeeps(s: Tables, k: KeyHierarchy, op: Op, passphrase: Option<string>, env: Env)
    requires TablesOk(s, k) && FreshEnv(s, env)
    ensures TablesOk(Exec(s, op, passphrase, env).0, k) && Grows(s, Exec(s, op, passphrase, env).0)
  {
    UnlockHeld(s, k, passphrase);
    DoAllKeeps(s, k, []);
    hide TablesOk, FreshEnv, Unlock, PlanOf, DoAll, Precheck, Grows, HeaderOk;
    var unlocked := Unlock(s.header, passphrase);
    if unlocked.Ok? {
      var plan := PlanOf(s, unlocked.value.0, k, op, env);
      PlanOfOk(s, unlocked.value.0, k, op, env);
      PlanFresh(s, k, env, plan);
      DoAllKeeps(s, k, plan.effects);
    }
  }

  /** Unlocking gives back the vault's keys whatever the binding. */
  lemma UnlockHeld(s: Tables, k: KeyHierarchy, passphrase: Option<string>)
    requires TablesOk(s, k)
    ensures Unlock(s.header, passphrase).Ok? ==>
              var (h, held) := Unlock(s.header, passphrase).value;
              held == k && HeaderOk(h, k) && s.header == Some(h)
  {
    hide RecordsOk, TicketsOk, JobsOk, PoliciesOk, Audit.Verifies;
  }

  // ---- Runs of whole operations ----

  datatype Call = Call(op: Op, passphrase: Option<string>, env: Env)

  ghost function Series(s: Tables, calls: seq<Call>): Tables
    decreases |calls|
  {
    if calls == [] then s else Series(Exec(s, calls[0].op, calls[0].passphrase, calls[0].env).0, calls[1..])
  }

  /** Each call draws identifiers not yet in use. */
  ghost predicate FreshCalls(s: Tables, calls: seq<Call>)
    decreases |calls|
  {
    calls == [] ||
    (FreshEnv(s, calls[0].env)
     && FreshCalls(Exec(s, calls[0].op, calls[0].passphrase, calls[0].env).0, calls[1..]))
  }

  lemma {:induction false} SeriesKeeps(s: Tables, k: KeyHierarchy, calls: seq<Call>)
    requires TablesOk(s, k) && FreshCalls(s, calls)
    ensures TablesOk(Series(s, calls), k) && Grows(s, Series(s, calls))
    decreases |calls|
  {
    hide TablesOk, FreshEnv, Exec;
    if calls != [] {
      hide Grows;
      var c := calls[0];
      ExecKeeps(s, k, c.op, c.passphrase, c.env);
      SeriesKeeps(Exec(s, c.op, c.passphrase, c.env).0, k, calls[1..]);
      GrowsTransitive(s, Exec(s, c.op, c.passphrase, c.env).0, Series(s, calls));
    }
  }

  // ---- New identifiers exist ----

  function As(n: nat): (s: string)
    ensures |s| == n
  {
    if n == 0 then "" else ['a'] + As(n - 1)
  }

  lemma {:induction false} LongerThanAll(used: set<string>) returns (n: nat)
    ensures forall s <- used :: |s| < n
  {
    if used == {} {
      n := 0;
    } else {
      var x :| x in used;
      var m := LongerThanAll(used - {x});
      n := if |x| < m then m else |x| + 1;
      forall s <- used ensures |s| < n {
        assert s == x || s in used - {x};
      }
    }
  }

  lemma UnusedString(used: set<string>) returns (x: string)
    ensures x !in used
  {
    var n := LongerThanAll(used);
    x := As(n);
  }

  /** There are always identifiers not yet in use. */
  lemma FreshEnvExists(s: Tables) returns (env: Env)
    ensures FreshEnv(s, env) && env.now == 0
  {
    var rowId := UnusedString(s.tickets.Keys + s.jobs.Keys);
    var eventId := UnusedString(set i | 0 <= i < |s.audit| :: s.audit[i].entry.eventId);
    env := Env(0, Randomness(0, 0, 0), rowId, eventId);
  }

  /** Some passphrase, or any, opens a vault whose header is sound. */
  lemma CanUnlock(h: VaultHeader, k: KeyHierarchy) returns (passphrase: Option<string>)
    requires HeaderOk(h, k)
    ensures Unlock(Some(h), passphrase) == Ok((h, k))
  {
    passphrase := if h.binding.PassphraseBinding? then Some(h.binding.passphrase) else None;
  }
}
