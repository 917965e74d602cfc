/** Ticket operations and reads, one by one: when they succeed, all they change, and what they
    leave in the audit log. */
module Outcomes {
  import opened Wrappers
  import opened Keys
  import opened Envelope
  import opened Policy
  import opened Tickets
  import opened Ordering
  import opened Store
  import opened Operations
  import opened Invariants
  import opened Soundness
  import opened Provenance

  /** Only tickets and the audit log differ. */
  ghost predicate OnlyTickets(a: Tables, b: Tables)
  {
    b == a.(tickets := b.tickets, audit := b.audit)
  }

  ghost predicate LoggedOnce(a: Tables, b: Tables, k: KeyHierarchy, env: Env, eventType: string, decision: string)
  {
    && |b.audit| == |a.audit| + 1 && b.audit[..|a.audit|] == a.audit
    && var e := b.audit[|a.audit|];
       && e == Audit.SealEvent(k.AuditIntegrityKey(), e.entry, Audit.Head(a.audit))
       && e.entry.eventId == env.eventId && e.entry.eventType == eventType && e.entry.decision == decision
  }

  lemma OneLog(s: Tables, h: VaultHeader, k: KeyHierarchy, env: Env, eventType: string, severity: string, decision: string,
               metadata: map<string, Audit.Json>)
    ensures var after := DoAll(s, [Log(h, k, env, eventType, severity, decision, metadata)]);
            LoggedOnce(s, after, k, env, eventType, decision) && after == s.(audit := after.audit)
  {
    var log := Log(h, k, env, eventType, severity, decision, metadata);
    assert [log][1..] == [];
    assert DoAll(s, [log]) == DoAll(Do(s, log), []) == Do(s, log);
  }

  lemma SaveThenLog(s: Tables, t: SecretAccessTicket, h: VaultHeader, k: KeyHierarchy, env: Env, eventType: string,
                    severity: string, decision: string, metadata: map<string, Audit.Json>)
    ensures var after := DoAll(s, [SaveTicket(t), Log(h, k, env, eventType, severity, decision, metadata)]);
            && LoggedOnce(s, after, k, env, eventType, decision) && OnlyTickets(s, after)
            && after.tickets == s.tickets[t.body.ticketId := t]
  {
    var log := Log(h, k, env, eventType, severity, decision, metadata);
    assert [SaveTicket(t), log][1..] == [log];
    OneLog(Do(s, SaveTicket(t)), h, k, env, eventType, severity, decision, metadata);
    hide Log;
  }

  // ---- Issuing ----

  /** A ticket is issued exactly when the secret's latest version is active and some stored policy
      grants the request. It names that version, carries the grant, is unspent, and is the only row
      written. A policy denial is logged; otherwise a refusal changes nothing. */
  lemma IssueExact(s: Tables, k: KeyHierarchy, q: AccessRequest, passphrase: Option<string>, env: Env)
    requires TablesOk(s, k)
    ensures var (s', outcome) := Exec(s, IssueTicket(q), passphrase, env);
            var latest := LatestRecord(s.records, q.secretRef);
            var readable := Unlock(s.header, passphrase).Ok? && latest.Some? && latest.value.status == Active;
            && OnlyTickets(s, s')
            && (outcome.Ok? <==> readable && exists p <- Listing(s.policies) :: Grants(p, q))
            && (outcome.Ok? ==>
                  && outcome.value.TicketOf?
                  && var t := outcome.value.ticket;
                     && s'.tickets == s.tickets[env.freshId := t]
                     && t.body.ticketId == env.freshId && Manager(k).Authentic(t)
                     && t.body.secretId == latest.value.secretId && t.body.secretVersion == latest.value.secretVersion
                     && t.body.usesRemaining == t.body.maxUses && !t.body.revoked
                     && (exists p <- Listing(s.policies) :: ComesFrom(t.body, Grant(q, p)))
                     && LoggedOnce(s, s', k, env, "ticket.issued", "allow"))
            && (outcome.Err? && readable ==>
                  s'.tickets == s.tickets && LoggedOnce(s, s', k, env, "ticket.issue_denied", "deny"))
            && (!readable ==> s' == s)
  {
    hide TablesOk, Unlock, Exec, LatestRecord, IssuePlan, Grants, ComesFrom, LoggedOnce, DoAll, Listing, HeaderOk, OnlyTickets;
    UnlockHeld(s, k, passphrase);
    Unchanged(s);
    var unlocked := Unlock(s.header, passphrase);
    var op := IssueTicket(q);
    if unlocked.Err? {
      ExecRefuses(s, op, passphrase, env);
    } else {
      var h := unlocked.value.0;
      ExecIs(s, h, k, op, passphrase, env);
      var latest := LatestRecord(s.records, q.secretRef);
      if latest.Some? {
        IssueOutcome(s, h, k, env, q, latest.value, Listing(s.policies));
      }
    }
  }

  lemma Unchanged(s: Tables)
    ensures OnlyTickets(s, s) && DoAll(s, []) == s
  {
  }

  lemma IssueOutcome(s: Tables, h: VaultHeader, k: KeyHierarchy, env: Env, q: AccessRequest, r: SecretRecord,
                     policies: seq<AccessPolicy>)
    ensures var plan := IssuePlan(h, k, env, q, r, policies);
            var s' := DoAll(s, plan.effects);
            && OnlyTickets(s, s')
            && (plan.outcome.Ok? <==> exists p <- policies :: Grants(p, q))
            && (plan.outcome.Ok? ==>
                  && plan.outcome.value.TicketOf?
                  && var t := plan.outcome.value.ticket;
                     && s'.tickets == s.tickets[env.freshId := t]
                     && t.body.ticketId == env.freshId && Manager(k).Authentic(t)
                     && t.body.secretId == r.secretId && t.body.secretVersion == r.secretVersion
                     && t.body.usesRemaining == t.body.maxUses && !t.body.revoked
                     && (exists p <- policies :: ComesFrom(t.body, Grant(q, p)))
                     && LoggedOnce(s, s', k, env, "ticket.issued", "allow"))
            && (plan.outcome.Err? ==>
                  s'.tickets == s.tickets && LoggedOnce(s, s', k, env, "ticket.issue_denied", "deny"))
  {
    EvaluateExact(policies, q);
    hide Evaluate, Grants, LoggedOnce, DoAll, Do, UtcMillis, SignedSeconds, DeliveryModeString, Log;
    var result := Evaluate(policies, q);
    var es := IssuePlan(h, k, env, q, r, policies).effects;
    if result.policy.None? {
      OneLog(s, h, k, env, "ticket.issue_denied", "high", "deny",
             map["secret_ref" := Audit.JString(q.secretRef), "consumer" := Audit.JString(q.consumer),
                 "purpose" := Audit.JString(q.purpose), "reason" := Audit.JString(result.reason)]);
    } else {
      var p := result.policy.value;
      var t := Manager(k).Issue(env.freshId, h.vaultId, r.secretId, r.secretVersion, q, p, PolicyHash(p), q.brokerSessionId);
      assert p in policies && ComesFrom(t.body, Grant(q, p));
      SaveThenLog(s, t, h, k, env, "ticket.issued", "info", "allow",
                  map["secret_ref" := Audit.JString(t.body.secretRef), "consumer" := Audit.JString(t.body.consumer),
                      "purpose" := Audit.JString(t.body.purpose),
                      "delivery_mode" := Audit.JString(DeliveryModeString(t.body.deliveryMode)),
                      "ticket_id" := Audit.JString(t.body.ticketId), "policy_id" := Audit.JString(t.body.policyId)]);
    }
  }

  // ---- Revoking and renewing ----

  /** Revoking bars exactly the ticket named and logs it, whatever its state; it fails only for an
      unknown id or when the vault does not unlock. */
  lemma RevokeExact(s: Tables, k: KeyHierarchy, ticketId: string, passphrase: Option<string>, env: Env)
    requires TablesOk(s, k)
    ensures var (s', outcome) := Exec(s, RevokeTicket(ticketId), passphrase, env);
            && (outcome.Ok? <==> Unlock(s.header, passphrase).Ok? && ticketId in s.tickets)
            && (outcome.Ok? ==>
                  && OnlyTickets(s, s') && s'.tickets == s.tickets[ticketId := Barred(k, s.tickets[ticketId])]
                  && s'.tickets[ticketId].body.revoked && LoggedOnce(s, s', k, env, "ticket.revoked", "allow"))
            && (outcome.Err? ==> s' == s)
  {
    hide TablesOk, Unlock, Exec, LoggedOnce, DoAll, Do, HeaderOk, OnlyTickets, Log, TicketSeen;
    UnlockHeld(s, k, passphrase);
    Unchanged(s);
    var unlocked := Unlock(s.header, passphrase);
    var op := RevokeTicket(ticketId);
    if unlocked.Err? {
      ExecRefuses(s, op, passphrase, env);
    } else {
      var h := unlocked.value.0;
      ExecIs(s, h, k, op, passphrase, env);
      if ticketId in s.tickets {
        var t := s.tickets[ticketId];
        TicketsAuthentic(s, k);
        TicketRead(s, k, ticketId);
        RevokeWriteOk(s, k, t);
        SaveThenLog(s, Barred(k, t), h, k, env, "ticket.revoked", "high", "allow",
                    map["ticket_id" := Audit.JString(ticketId), "secret_ref" := Audit.JString(t.body.secretRef)]);
      }
    }
  }

  /** Renewing succeeds exactly when the ticket passes its checks. It bars the old ticket and adds
      one with the same secret, version, context, policy and session and all uses again. */
  lemma RenewExact(s: Tables, k: KeyHierarchy, ticketId: string, q: AccessRequest, passphrase: Option<string>, env: Env)
    requires TablesOk(s, k) && FreshEnv(s, env)
    ensures var (s', outcome) := Exec(s, RenewTicket(ticketId, q), passphrase, env);
            && (outcome.Ok? <==> Unlock(s.header, passphrase).Ok? && CheckedTicket(s, k, ticketId, q, env.now).Ok?)
            && (outcome.Ok? ==>
                  && ticketId in s.tickets && outcome.value.TicketOf?
                  && var b, t := s.tickets[ticketId].body, outcome.value.ticket;
                     && OnlyTickets(s, s')
                     && s'.tickets == s.tickets[ticketId := Barred(k, s.tickets[ticketId])][env.freshId := t]
                     && Manager(k).Authentic(t) && t.body.ticketId == env.freshId && !t.body.revoked
                     && t.body.usesRemaining == t.body.maxUses
                     && t.body.secretId == b.secretId && t.body.secretVersion == b.secretVersion
                     && t.body.policyId == b.policyId && t.body.policyHash == b.policyHash
                     && t.body.brokerSessionId == b.brokerSessionId
                     && SameContext(t.body, q) && SameContext(b, q)
                     && LoggedOnce(s, s', k, env, "ticket.renewed", "allow"))
            && (outcome.Err? ==> s' == s)
  {
    hide TablesOk, Unlock, Exec, LoggedOnce, DoAll, Do, HeaderOk, OnlyTickets, CheckedTicket, RenewPlan, ActivePolicy,
         FreshEnv, Barred, SameContext;
    UnlockHeld(s, k, passphrase);
    Unchanged(s);
    var unlocked := Unlock(s.header, passphrase);
    var op := RenewTicket(ticketId, q);
    if unlocked.Err? {
      ExecRefuses(s, op, passphrase, env);
    } else {
      var h := unlocked.value.0;
      ExecIs(s, h, k, op, passphrase, env);
      if CheckedTicket(s, k, ticketId, q, env.now).Ok? {
        CheckedRenews(s, h, k, env, ticketId, q);
      }
    }
  }

  lemma CheckedRenews(s: Tables, h: VaultHeader, k: KeyHierarchy, env: Env, ticketId: string, q: AccessRequest)
    requires TablesOk(s, k) && CheckedTicket(s, k, ticketId, q, env.now).Ok?
    ensures ticketId in s.tickets && CheckedTicket(s, k, ticketId, q, env.now).value == s.tickets[ticketId]
    ensures var before := s.tickets[ticketId];
            var plan := RenewPlan(h, k, env, before, q, ActivePolicy(s, before));
            var s' := DoAll(s, plan.effects);
            && plan.outcome.Ok? && plan.outcome.value.TicketOf?
            && var b, t := before.body, plan.outcome.value.ticket;
               && OnlyTickets(s, s')
               && s'.tickets == s.tickets[ticketId := Barred(k, before)][env.freshId := t]
               && Manager(k).Authentic(t) && t.body.ticketId == env.freshId && !t.body.revoked
               && t.body.usesRemaining == t.body.maxUses
               && t.body.secretId == b.secretId && t.body.secretVersion == b.secretVersion
               && t.body.policyId == b.policyId && t.body.policyHash == b.policyHash
               && t.body.brokerSessionId == b.brokerSessionId
               && SameContext(t.body, q) && SameContext(b, q)
               && LoggedOnce(s, s', k, env, "ticket.renewed", "allow")
  {
    CheckedMeans(s, k, ticketId, q, env.now);
    var t0 := s.tickets[ticketId];
    TicketsAuthentic(s, k);
    TicketRead(s, k, ticketId);
    RevokeWriteOk(s, k, t0);
    assert Barred(k, t0).body.ticketId == ticketId;
    hide CheckedTicket, TablesOk, ActivePolicy, UtcMillis, SignedSeconds, LoggedOnce, DoAll, Log, PolicyHash, Barred,
         TicketSeen, LatestRecord, ParseStamp, SessionMatches, EffectOk, AllAuthentic;
    var p := ActivePolicy(s, t0).value;
    var t := Manager(k).Issue(env.freshId, h.vaultId, t0.body.secretId, t0.body.secretVersion, q, p, PolicyHash(p),
                              t0.body.brokerSessionId);
    var details := map["old_ticket_id" := Audit.JString(t0.body.ticketId), "ticket_id" := Audit.JString(t.body.ticketId),
                       "secret_ref" := Audit.JString(t.body.secretRef), "policy_id" := Audit.JString(t.body.policyId)];
    SaveTwoThenLog(s, Barred(k, t0), t, h, k, env, "ticket.renewed", "info", "allow", details);
  }

  lemma SaveTwoThenLog(s: Tables, t: SecretAccessTicket, u: SecretAccessTicket, h: VaultHeader, k: KeyHierarchy, env: Env,
                       eventType: string, severity: string, decision: string, metadata: map<string, Audit.Json>)
    ensures var after := DoAll(s, [SaveTicket(t), SaveTicket(u), Log(h, k, env, eventType, severity, decision, metadata)]);
            && LoggedOnce(s, after, k, env, eventType, decision) && OnlyTickets(s, after)
            && after.tickets == s.tickets[t.body.ticketId := t][u.body.ticketId := u]
  {
    var log := Log(h, k, env, eventType, severity, decision, metadata);
    assert [SaveTicket(t), SaveTicket(u), log][1..] == [SaveTicket(u), log];
    SaveThenLog(Do(s, SaveTicket(t)), u, h, k, env, eventType, severity, decision, metadata);
    hide Log;
  }

  // ---- Reading ----

  /** No plaintext leaves unlogged: a `get` that delivers appends one materialization event, one
      that finds an inactive secret appends one denial, and neither changes anything else. */
  lemma GetIsLogged(s: Tables, k: KeyHierarchy, secretRef: string, passphrase: Option<string>, env: Env)
    requires TablesOk(s, k)
    ensures var (s', outcome) := Exec(s, Get(secretRef), passphrase, env);
            && s' == s.(audit := s'.audit)
            && (outcome.Ok? ==> LoggedOnce(s, s', k, env, "secret.materialized", "allow"))
            && (outcome.Err? && outcome.error.SecretUnavailable? ==>
                  LoggedOnce(s, s', k, env, "secret.access_denied", "deny"))
            && (outcome.Err? && !outcome.error.SecretUnavailable? ==> s' == s)
  {
    hide TablesOk, Unlock, Exec, LoggedOnce, DoAll, Do, HeaderOk, Log, GetPlan, LatestRecord;
    UnlockHeld(s, k, passphrase);
    Unchanged(s);
    var unlocked := Unlock(s.header, passphrase);
    if unlocked.Err? {
      ExecRefuses(s, Get(secretRef), passphrase, env);
      UnlockErrors(s.header, passphrase);
    } else {
      var h := unlocked.value.0;
      ExecIs(s, h, k, Get(secretRef), passphrase, env);
      GetLogs(s, h, k, env, secretRef, LatestRecord(s.records, secretRef));
    }
  }

  lemma UnlockErrors(header: Option<VaultHeader>, passphrase: Option<string>)
    ensures Unlock(header, passphrase).Err? ==> !Unlock(header, passphrase).error.SecretUnavailable?
  {
  }

  lemma GetLogs(s: Tables, h: VaultHeader, k: KeyHierarchy, env: Env, secretRef: string, latest: Option<SecretRecord>)
    ensures var plan := GetPlan(h, k, env, secretRef, latest);
            var s' := DoAll(s, plan.effects);
            && s' == s.(audit := s'.audit)
            && (plan.outcome.Ok? ==> LoggedOnce(s, s', k, env, "secret.materialized", "allow"))
            && (plan.outcome.Err? && plan.outcome.error.SecretUnavailable? ==>
                  LoggedOnce(s, s', k, env, "secret.access_denied", "deny"))
            && (plan.outcome.Err? && !plan.outcome.error.SecretUnavailable? ==> s' == s)
  {
    hide LoggedOnce, DoAll, Do, Log, DecryptSecret, StatusString;
    Unchanged(s);
    if latest.Some? {
      var r := latest.value;
      OneLog(s, h, k, env, "secret.access_denied", "high", "deny",
             map["secret_ref" := Audit.JString(secretRef), "secret_version" := Audit.JNumber(r.secretVersion),
                 "reason" := Audit.JString("secret status is " + StatusString(r.status))]);
      OneLog(s, h, k, env, "secret.materialized", "critical", "allow",
             map["secret_ref" := Audit.JString(secretRef), "secret_version" := Audit.JNumber(r.secretVersion)]);
    }
  }

  /** A delivering consume appends one materialization event and, beside the ticket's use, changes
      nothing else. */
  lemma ConsumeIsLogged(s: Tables, k: KeyHierarchy, ticketId: string, q: AccessRequest, passphrase: Option<string>, env: Env)
    requires TablesOk(s, k) && FreshEnv(s, env)
    ensures var (s', outcome) := Exec(s, ConsumeTicket(ticketId, q), passphrase, env);
            outcome.Ok? ==> OnlyTickets(s, s') && LoggedOnce(s, s', k, env, "secret.materialized", "allow")
  {
    hide TablesOk, FreshEnv, Unlock, Exec, LoggedOnce, DoAll, Do, HeaderOk, OnlyTickets, CheckedTicket, Precheck, ConsumePlan,
         MaterializePlan, ReadForTicket, LatestRecord, LatestVersion, Used, GetPlan;
    ConsumeIsGet(s, k, ticketId, q, passphrase, env);
    UnlockHeld(s, k, passphrase);
    var op := ConsumeTicket(ticketId, q);
    var unlocked := Unlock(s.header, passphrase);
    if Precheck(s, op).Ok? && unlocked.Ok? && CheckedTicket(s, k, ticketId, q, env.now).Ok? {
      var h := unlocked.value.0;
      ExecIs(s, h, k, op, passphrase, env);
      CheckedIsLatest(s, k, ticketId, q, env.now);
      var t := s.tickets[ticketId];
      CheckedApplies(s, k, t);
      ConsumePlanned(s, h, k, env, ticketId, q, t);
      ConsumeLogs(s, h, k, env, t, q, LatestRecord(s.records, q.secretRef).value);
    }
  }

  lemma ConsumeLogs(s: Tables, h: VaultHeader, k: KeyHierarchy, env: Env, t: SecretAccessTicket, q: AccessRequest, r: SecretRecord)
    requires t.body.usesRemaining >= 1 && r.status == Active && DecryptSecret(k, r).Ok?
    ensures var swap := SwapTicket(t, Used(k, t));
            var s' := DoAll(s, [swap] + MaterializePlan(h, k, env, t, q, Some(r)).effects);
            OnlyTickets(s, s') && LoggedOnce(s, s', k, env, "secret.materialized", "allow")
  {
    var swap := SwapTicket(t, Used(k, t));
    assert OnlyTickets(s, Do(s, swap)) && Do(s, swap).audit == s.audit;
    hide DoAll, Do, Log, DecryptSecret, DeliveryModeString, Used, SwapApplies;
    var severity := if q.rawExportRequested then "critical" else "info";
    var details := map["secret_ref" := Audit.JString(t.body.secretRef), "ticket_id" := Audit.JString(t.body.ticketId),
                       "consumer" := Audit.JString(q.consumer), "purpose" := Audit.JString(q.purpose),
                       "delivery_mode" := Audit.JString(DeliveryModeString(q.deliveryMode))];
    var log := Log(h, k, env, "secret.materialized", severity, "allow", details);
    assert MaterializePlan(h, k, env, t, q, Some(r)).effects == [log];
    SwapThenRest(s, swap, [log]);
    OneLog(Do(s, swap), h, k, env, "secret.materialized", severity, "allow", details);
  }

  lemma SwapThenRest(s: Tables, swap: Effect, rest: seq<Effect>)
    ensures DoAll(s, [swap] + rest) == DoAll(Do(s, swap), rest)
  {
    hide Do;
    assert ([swap] + rest)[1..] == rest;
  }

  /** Raw plaintext leaves through a ticket only while export is enabled and, once a TOTP secret is
      active, only with verified MFA. */
  lemma RawExportGuarded(s: Tables, ticketId: string, q: AccessRequest, passphrase: Option<string>, env: Env)
    requires q.rawExportRequested && Exec(s, ConsumeTicket(ticketId, q), passphrase, env).1.Ok?
    ensures PLAINTEXT_EXPORT_CONFIG_KEY in s.metadata && s.metadata[PLAINTEXT_EXPORT_CONFIG_KEY] == "enabled"
    ensures var totp := LatestRecord(s.records, TOTP_SECRET_REF);
            totp.Some? && totp.value.status == Active ==> q.mfaVerified
  {
    hide Unlock, DoAll, PlanOf, LatestRecord;
  }
}
