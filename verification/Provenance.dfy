/** Where tickets come from, what consuming one gives, and what locking down does, in runs of
    whole operations. */
module Provenance {
  import opened Wrappers
  import opened Keys
  import opened Envelope
  import opened Policy
  import opened Tickets
  import opened Ordering
  import opened Store
  import opened Operations
  import opened Writes
  import opened Invariants
  import opened Soundness

  // ---- The decisions behind tickets ----

  /** A request the policy engine allowed, and the policy that granted it. */
  datatype Grant = Grant(request: AccessRequest, policy: AccessPolicy)

  /** The decision a call makes, if it issues a ticket. */
  ghost function GrantOf(s: Tables, c: Call): seq<Grant>
  {
    if c.op.IssueTicket? && Exec(s, c.op, c.passphrase, c.env).1.Ok? && Evaluate(Listing(s.policies), c.op.request).policy.Some?
    then [Grant(c.op.request, Evaluate(Listing(s.policies), c.op.request).policy.value)]
    else []
  }

  /** All decisions of a run, in order. */
  ghost function Granted(s: Tables, calls: seq<Call>): seq<Grant>
    decreases |calls|
  {
    if calls == [] then []
    else GrantOf(s, calls[0]) + Granted(Exec(s, calls[0].op, calls[0].passphrase, calls[0].env).0, calls[1..])
  }

  /** The ticket says what the decision said. */
  ghost predicate ComesFrom(b: TicketBody, g: Grant)
  {
    && b.policyId == g.policy.policyId && b.policyHash == PolicyHash(g.policy)
    && b.exportable == g.policy.exportable && b.maxUses == g.policy.maxUses
    && SameContext(b, g.request) && b.brokerSessionId == g.request.brokerSessionId
    && Grants(g.policy, g.request)
  }

  ghost predicate Origin(b: TicketBody, gs: seq<Grant>)
  {
    exists i :: 0 <= i < |gs| && ComesFrom(b, gs[i])
  }

  ghost predicate Traced(tickets: map<string, SecretAccessTicket>, gs: seq<Grant>)
  {
    forall id <- tickets :: Origin(tickets[id].body, gs)
  }

  ghost predicate EffectTraced(e: Effect, gs: seq<Grant>)
  {
    (e.SaveTicket? ==> Origin(e.ticket.body, gs)) && (e.SwapTicket? ==> Origin(e.updated.body, gs))
  }

  ghost predicate PlanTraced(plan: Plan, gs: seq<Grant>)
  {
    forall i :: 0 <= i < |plan.effects| ==> EffectTraced(plan.effects[i], gs)
  }

  lemma OriginOfCore(a: TicketBody, b: TicketBody, gs: seq<Grant>)
    requires Core(a) == Core(b) && Origin(a, gs)
    ensures Origin(b, gs)
  {
    hide Grants, PolicyHash;
    var i :| 0 <= i < |gs| && ComesFrom(a, gs[i]);
    assert Core(a).policyId == Core(b).policyId;
    assert ComesFrom(b, gs[i]);
  }

  lemma OriginExtends(b: TicketBody, gs: seq<Grant>, more: seq<Grant>)
    requires Origin(b, gs)
    ensures Origin(b, gs + more)
  {
    hide ComesFrom;
    var i :| 0 <= i < |gs| && ComesFrom(b, gs[i]);
    assert (gs + more)[i] == gs[i];
  }

  lemma {:induction false} DoAllTraced(s: Tables, es: seq<Effect>, gs: seq<Grant>)
    requires Traced(s.tickets, gs) && forall i :: 0 <= i < |es| ==> EffectTraced(es[i], gs)
    ensures Traced(DoAll(s, es).tickets, gs)
    decreases |es|
  {
    hide Origin;
    if es != [] {
      DoAllTraced(Do(s, es[0]), es[1..], gs);
    }
  }

  predicate Ticketless(e: Effect)
  {
    !e.SaveTicket? && !e.SwapTicket?
  }

  lemma TicketlessWithin(es: seq<Effect>, kinds: set<Kind>)
    requires Within(es, kinds) && TicketRow !in kinds && TicketSwap !in kinds
    ensures forall i :: 0 <= i < |es| ==> Ticketless(es[i])
  {
  }

  /** Operations that write no ticket. */
  lemma TicketlessTraced(s: Tables, h: VaultHeader, k: KeyHierarchy, op: Op, env: Env, gs: seq<Grant>)
    requires !op.IssueTicket? && !op.ValidateTicket? && !op.RenewTicket? && !op.ConsumeTicket? && !op.RevokeTicket?
             && !op.RevokeAllTickets?
    ensures PlanTraced(PlanOf(s, h, k, op, env), gs)
  {
    hide PlanOf, Within, Origin;
    PlanWithin(s, h, k, op, env);
    TicketlessWithin(PlanOf(s, h, k, op, env).effects, Writable(op));
  }

  lemma IssueTraced(h: VaultHeader, k: KeyHierarchy, env: Env, q: AccessRequest, r: SecretRecord,
                    policies: seq<AccessPolicy>, gs: seq<Grant>)
    requires var p := Evaluate(policies, q).policy; p.Some? ==> Grant(q, p.value) in gs
    ensures PlanTraced(IssuePlan(h, k, env, q, r, policies), gs)
  {
    EvaluateExact(policies, q);
    hide Grants, Evaluate, UtcMillis, SignedSeconds, DeliveryModeString;
    var result := Evaluate(policies, q);
    if result.policy.Some? {
      var p := result.policy.value;
      var i :| 0 <= i < |gs| && gs[i] == Grant(q, p);
      var t := Manager(k).Issue(env.freshId, h.vaultId, r.secretId, r.secretVersion, q, p, PolicyHash(p), q.brokerSessionId);
      assert ComesFrom(t.body, gs[i]);
    }
  }

  lemma CheckedMeans(s: Tables, k: KeyHierarchy, ticketId: string, q: AccessRequest, now: int)
    requires CheckedTicket(s, k, ticketId, q, now).Ok?
    ensures var t := CheckedTicket(s, k, ticketId, q, now).value;
            && ticketId in s.tickets && t == s.tickets[ticketId]
            && SameContext(t.body, q) && SessionMatches(t.body.brokerSessionId, q.brokerSessionId)
            && !t.body.revoked && t.body.usesRemaining >= 1
            && ParseStamp(t.body.expiresAt).Some? && now <= ParseStamp(t.body.expiresAt).value
            && ActivePolicy(s, t).Some?
            && t.body.policyId == ActivePolicy(s, t).value.policyId && t.body.policyHash == PolicyHash(ActivePolicy(s, t).value)
            && (t.body.secretVersion == 0 ||
                (var latest := LatestRecord(s.records, t.body.secretRef);
                 latest.Some? && latest.value.secretVersion == t.body.secretVersion && latest.value.status == Active))
  {
    hide LatestRecord, ActivePolicy, ParseStamp;
  }

  lemma RenewTraced(s: Tables, h: VaultHeader, k: KeyHierarchy, env: Env, ticketId: string, q: AccessRequest, gs: seq<Grant>)
    requires Traced(s.tickets, gs) && CheckedTicket(s, k, ticketId, q, env.now).Ok?
    ensures var t := CheckedTicket(s, k, ticketId, q, env.now).value;
            PlanTraced(RenewPlan(h, k, env, t, q, ActivePolicy(s, t)), gs)
  {
    CheckedMeans(s, k, ticketId, q, env.now);
    var t := s.tickets[ticketId];
    assert Origin(t.body, gs);
    hide CheckedTicket, ParseStamp, LatestRecord, ActivePolicy, SessionMatches, Origin, SameContext, PolicyHash, Traced,
         RenewPlan, PlanTraced;
    RenewPlanTraced(h, k, env, t, q, ActivePolicy(s, t).value, gs);
  }

  lemma RenewPlanTraced(h: VaultHeader, k: KeyHierarchy, env: Env, t: SecretAccessTicket, q: AccessRequest,
                        p: AccessPolicy, gs: seq<Grant>)
    requires Origin(t.body, gs) && SameContext(t.body, q)
    requires t.body.policyId == p.policyId && t.body.policyHash == PolicyHash(p)
    ensures PlanTraced(RenewPlan(h, k, env, t, q, Some(p)), gs)
  {
    hide Origin, SameContext, PolicyHash, UtcMillis, SignedSeconds, Barred;
    RenewedOrigin(h, k, env, t, q, p, gs);
    BarredOrigin(k, t, gs);
  }

  lemma RenewedOrigin(h: VaultHeader, k: KeyHierarchy, env: Env, t: SecretAccessTicket, q: AccessRequest, p: AccessPolicy,
                      gs: seq<Grant>)
    requires Origin(t.body, gs) && SameContext(t.body, q)
    requires t.body.policyId == p.policyId && t.body.policyHash == PolicyHash(p)
    ensures var renewed := Manager(k).Issue(env.freshId, h.vaultId, t.body.secretId, t.body.secretVersion, q, p,
                                            PolicyHash(p), t.body.brokerSessionId);
            Origin(renewed.body, gs)
  {
    hide Grants, UtcMillis, SignedSeconds;
    var i :| 0 <= i < |gs| && ComesFrom(t.body, gs[i]);
    assert gs[i].policy == p;
    var renewed := Manager(k).Issue(env.freshId, h.vaultId, t.body.secretId, t.body.secretVersion, q, p, PolicyHash(p),
                                    t.body.brokerSessionId);
    assert ComesFrom(renewed.body, gs[i]);
  }

  lemma BarredOrigin(k: KeyHierarchy, t: SecretAccessTicket, gs: seq<Grant>)
    requires Origin(t.body, gs)
    ensures Origin(Barred(k, t).body, gs)
    ensures Manager(k).Revoke(t).Ok? ==> Manager(k).Revoke(t) == Ok(Barred(k, t))
  {
    OriginOfCore(t.body, Barred(k, t).body, gs);
    hide Origin;
  }

  lemma ConsumeTraced(s: Tables, h: VaultHeader, k: KeyHierarchy, env: Env, ticketId: string, q: AccessRequest, gs: seq<Grant>)
    requires Traced(s.tickets, gs)
    ensures PlanTraced(ConsumePlan(s, h, k, env, ticketId, q), gs)
  {
    hide CheckedTicket, MaterializePlan, ReadForTicket, SwapApplies, Origin, ParseStamp, LatestRecord, ActivePolicy,
         SameContext, SessionMatches, PolicyHash;
    var checked := CheckedTicket(s, k, ticketId, q, env.now);
    if checked.Ok? {
      CheckedMeans(s, k, ticketId, q, env.now);
      var t := checked.value;
      OriginOfCore(t.body, Used(k, t).body, gs);
      MaterializeWithin(h, k, env, t, q, ReadForTicket(s.records, t));
      TicketlessWithin(MaterializePlan(h, k, env, t, q, ReadForTicket(s.records, t)).effects, {EventRow});
      hide Used;
    }
  }

  lemma {:induction false} RevokeLoopTraced(k: KeyHierarchy, list: seq<SecretAccessTicket>, gs: seq<Grant>)
    requires forall i :: 0 <= i < |list| ==> Origin(list[i].body, gs)
    ensures forall i :: 0 <= i < |RevokeLoop(k, list).0| ==> EffectTraced(RevokeLoop(k, list).0[i], gs)
  {
    hide Origin;
    if list != [] {
      RevokeLoopTraced(k, list[1..], gs);
      OriginOfCore(list[0].body, Barred(k, list[0]).body, gs);
    }
  }

  lemma RevokeTraced(s: Tables, h: VaultHeader, k: KeyHierarchy, op: Op, env: Env, gs: seq<Grant>)
    requires Traced(s.tickets, gs) && (op.RevokeTicket? || op.RevokeAllTickets?)
    ensures PlanTraced(PlanOf(s, h, k, op, env), gs)
  {
    hide Origin, RevokeLoop, Listing;
    if op.RevokeTicket? {
      if op.ticketId in s.tickets {
        var t := s.tickets[op.ticketId];
        OriginOfCore(t.body, Barred(k, t).body, gs);
      }
    } else {
      ListingMembers(s.tickets);
      var list := Listing(s.tickets);
      forall i | 0 <= i < |list| ensures Origin(list[i].body, gs) {
        assert list[i] in list;
      }
      RevokeLoopTraced(k, list, gs);
    }
  }

  lemma ExecTraced(s: Tables, c: Call, gs: seq<Grant>)
    requires Traced(s.tickets, gs)
    ensures Traced(Exec(s, c.op, c.passphrase, c.env).0.tickets, gs + GrantOf(s, c))
  {
    var now := gs + GrantOf(s, c);
    forall id <- s.tickets ensures Origin(s.tickets[id].body, now) {
      OriginExtends(s.tickets[id].body, gs, GrantOf(s, c));
    }
    var unlocked := Unlock(s.header, c.passphrase);
    if Precheck(s, c.op).Ok? && unlocked.Ok? {
      var (h, k) := unlocked.value;
      PlanOfTraced(s, h, k, c, now);
      DoAllTraced(s, PlanOf(s, h, k, c.op, c.env).effects, now);
    }
    hide Unlock, PlanOf, DoAll, GrantOf, Origin, Precheck;
  }

  lemma IssueGranted(s: Tables, h: VaultHeader, k: KeyHierarchy, c: Call, r: SecretRecord, gs: seq<Grant>)
    requires c.op.IssueTicket? && Unlock(s.header, c.passphrase) == Ok((h, k))
    requires LatestRecord(s.records, c.op.request.secretRef) == Some(r) && r.status == Active
    requires forall i :: 0 <= i < |GrantOf(s, c)| ==> GrantOf(s, c)[i] in gs
    ensures var p := Evaluate(Listing(s.policies), c.op.request).policy; p.Some? ==> Grant(c.op.request, p.value) in gs
  {
    hide Evaluate, Listing, LatestRecord, Unlock, DoAll, IssuePlan, Exec, Do, Grants;
    IssueSucceeds(h, k, c.env, c.op.request, r, Listing(s.policies));
    ExecIs(s, h, k, c.op, c.passphrase, c.env);
    var p := Evaluate(Listing(s.policies), c.op.request).policy;
    if p.Some? {
      assert GrantOf(s, c) == [Grant(c.op.request, p.value)];
      assert GrantOf(s, c)[0] in gs;
    }
  }

  lemma IssueSucceeds(h: VaultHeader, k: KeyHierarchy, env: Env, q: AccessRequest, r: SecretRecord,
                      policies: seq<AccessPolicy>)
    ensures Evaluate(policies, q).policy.Some? ==> IssuePlan(h, k, env, q, r, policies).outcome.Ok?
  {
    EvaluateExact(policies, q);
    hide Evaluate, UtcMillis, SignedSeconds, DeliveryModeString, Grants;
  }

  lemma PlanOfTraced(s: Tables, h: VaultHeader, k: KeyHierarchy, c: Call, gs: seq<Grant>)
    requires Traced(s.tickets, gs)
    requires Precheck(s, c.op).Ok? && Unlock(s.header, c.passphrase) == Ok((h, k))
    requires forall i :: 0 <= i < |GrantOf(s, c)| ==> GrantOf(s, c)[i] in gs
    ensures PlanTraced(PlanOf(s, h, k, c.op, c.env), gs)
  {
    hide LatestRecord, Listing, CheckedTicket, RenewPlan, ConsumePlan, IssuePlan, Traced, PlanTraced, Unlock, ActivePolicy,
         Evaluate;
    NothingTraced(gs);
    match c.op
    case IssueTicket(q) =>
      var latest := LatestRecord(s.records, q.secretRef);
      if latest.Some? && latest.value.status == Active {
        IssueGranted(s, h, k, c, latest.value, gs);
        IssueTraced(h, k, c.env, q, latest.value, Listing(s.policies), gs);
      }
    case ValidateTicket(_, _) =>
    case RenewTicket(ticketId, q) =>
      if CheckedTicket(s, k, ticketId, q, c.env.now).Ok? {
        RenewTraced(s, h, k, c.env, ticketId, q, gs);
      }
    case ConsumeTicket(ticketId, q) => ConsumeTraced(s, h, k, c.env, ticketId, q, gs);
    case RevokeTicket(_) => RevokeTraced(s, h, k, c.op, c.env, gs);
    case RevokeAllTickets(_) => RevokeTraced(s, h, k, c.op, c.env, gs);
    case _ => TicketlessTraced(s, h, k, c.op, c.env, gs);
  }

  lemma NothingTraced(gs: seq<Grant>)
    ensures forall outcome :: PlanTraced(Plan([], outcome), gs)
  {
  }

  lemma {:induction false} SeriesTraced(s: Tables, calls: seq<Call>, gs: seq<Grant>)
    requires Traced(s.tickets, gs)
    ensures Traced(Series(s, calls).tickets, gs + Granted(s, calls))
    decreases |calls|
  {
    hide Traced, GrantOf, Exec;
    if calls == [] {
      assert gs + [] == gs;
    } else {
      var c := calls[0];
      var next := Exec(s, c.op, c.passphrase, c.env).0;
      ExecTraced(s, c, gs);
      SeriesTraced(next, calls[1..], gs + GrantOf(s, c));
      assert (gs + GrantOf(s, c)) + Granted(next, calls[1..]) == gs + Granted(s, calls);
    }
  }

  /** In every run from creation, every stored ticket, through any chain of renewals, carries the
      terms of some earlier request that the policy engine granted, and the id and hash of the
      policy that granted it. */
  lemma TicketsComeFromGrants(h: VaultHeader, k: KeyHierarchy, env: Env, details: map<string, Audit.Json>,
                              calls: seq<Call>, id: string)
    requires var s := Created(h, k, env, details); id in Series(s, calls).tickets
    ensures var s := Created(h, k, env, details);
            exists i :: 0 <= i < |Granted(s, calls)| && ComesFrom(Series(s, calls).tickets[id].body, Granted(s, calls)[i])
  {
    hide Series, Granted, ComesFrom;
    var s := Created(h, k, env, details);
    SeriesTraced(s, calls, []);
    assert [] + Granted(s, calls) == Granted(s, calls);
  }

  // ---- Consuming ----

  lemma ActiveStored(s: Tables, t: SecretAccessTicket)
    requires PoliciesOk(s.policies) && ActivePolicy(s, t).Some?
    ensures t.body.policyId in s.policies && s.policies[t.body.policyId] == ActivePolicy(s, t).value
  {
    ListingMembers(s.policies);
    hide Listing;
    var p := ActivePolicy(s, t).value;
    assert p in s.policies.Values;
  }

  /** A consume that succeeds was asked in the context of a granted request, the ticket has not
      expired, been revoked or used up, and the very policy that granted it is still stored. */
  lemma ConsumeIsAuthorised(h: VaultHeader, k: KeyHierarchy, env: Env, details: map<string, Audit.Json>,
                            calls: seq<Call>, ticketId: string, q: AccessRequest, passphrase: Option<string>, now: Env)
    requires HeaderOk(h, k)
    requires var s := Created(h, k, env, details);
             FreshCalls(s, calls) && Exec(Series(s, calls), ConsumeTicket(ticketId, q), passphrase, now).1.Ok?
    ensures var s0 := Created(h, k, env, details);
            var s := Series(s0, calls);
            && ticketId in s.tickets
            && var b := s.tickets[ticketId].body;
               && SessionMatches(b.brokerSessionId, q.brokerSessionId)
               && !b.revoked && b.usesRemaining >= 1
               && ParseStamp(b.expiresAt).Some? && now.now <= ParseStamp(b.expiresAt).value
               && exists i :: 0 <= i < |Granted(s0, calls)|
                    && ComesFrom(b, Granted(s0, calls)[i])
                    && SameContext(b, q)
                    && b.policyId in s.policies && s.policies[b.policyId] == Granted(s0, calls)[i].policy
  {
    var s0 := Created(h, k, env, details);
    var s := Series(s0, calls);
    CreatedOk(h, k, env, details);
    hide Series, Granted, Created, Exec, FreshCalls, CheckedTicket, ActivePolicy, ParseStamp, TablesOk, ComesFrom,
         SameContext, SessionMatches;
    SeriesKeeps(s0, k, calls);
    ConsumeChecked(s, k, ticketId, q, passphrase, now);
    TicketsComeFromGrants(h, k, env, details, calls, ticketId);
    CheckedUnder(s, k, ticketId, q, now.now, Granted(s0, calls));
  }

  lemma CheckedUnder(s: Tables, k: KeyHierarchy, ticketId: string, q: AccessRequest, now: int, gs: seq<Grant>)
    requires TablesOk(s, k) && CheckedTicket(s, k, ticketId, q, now).Ok?
    requires ticketId in s.tickets && exists i :: 0 <= i < |gs| && ComesFrom(s.tickets[ticketId].body, gs[i])
    ensures var b := s.tickets[ticketId].body;
            && SessionMatches(b.brokerSessionId, q.brokerSessionId)
            && !b.revoked && b.usesRemaining >= 1
            && ParseStamp(b.expiresAt).Some? && now <= ParseStamp(b.expiresAt).value
            && exists i :: 0 <= i < |gs| && ComesFrom(b, gs[i]) && SameContext(b, q)
                 && b.policyId in s.policies && s.policies[b.policyId] == gs[i].policy
  {
    CheckedMeans(s, k, ticketId, q, now);
    ActiveStored(s, s.tickets[ticketId]);
    var b := s.tickets[ticketId].body;
    hide CheckedTicket, ActivePolicy, ParseStamp, LatestRecord, TablesOk, SessionMatches, Grants, SameContext;
    var i :| 0 <= i < |gs| && ComesFrom(b, gs[i]);
    assert gs[i].policy == s.policies[b.policyId];
  }

  lemma ConsumeChecked(s: Tables, k: KeyHierarchy, ticketId: string, q: AccessRequest, passphrase: Option<string>, env: Env)
    requires TablesOk(s, k) && Exec(s, ConsumeTicket(ticketId, q), passphrase, env).1.Ok?
    ensures Unlock(s.header, passphrase).Ok? && CheckedTicket(s, k, ticketId, q, env.now).Ok?
  {
    UnlockHeld(s, k, passphrase);
    hide CheckedTicket, TablesOk, Unlock, DoAll, MaterializePlan, HeaderOk;
  }

  lemma CheckedDelivers(s: Tables, h: VaultHeader, k: KeyHierarchy, ticketId: string, q: AccessRequest,
                        passphrase: Option<string>, env: Env)
    requires TablesOk(s, k) && CheckedTicket(s, k, ticketId, q, env.now).Ok?
    ensures var t := CheckedTicket(s, k, ticketId, q, env.now).value;
            && ticketId in s.tickets && t == s.tickets[ticketId] && t.body.usesRemaining >= 1
            && LatestVersion(s.records, q.secretRef) == Some(t.body.secretVersion)
            && var plan := ConsumePlan(s, h, k, env, ticketId, q);
               && plan.outcome.Ok? && plan.outcome == GetPlan(h, k, env, q.secretRef, LatestRecord(s.records, q.secretRef)).outcome
               && DoAll(s, plan.effects).tickets == s.tickets[ticketId := Used(k, t)]
  {
    CheckedIsLatest(s, k, ticketId, q, env.now);
    CheckedApplies(s, k, s.tickets[ticketId]);
    hide TablesOk, CheckedTicket, DecryptSecret, LatestRecord, LatestVersion, ReadForTicket, MaterializePlan, GetPlan, Used,
         ConsumePlan, Do;
    var t, r := s.tickets[ticketId], LatestRecord(s.records, q.secretRef).value;
    ConsumePlanned(s, h, k, env, ticketId, q, t);
    MaterializeDelivers(h, k, env, t, q, r);
    var rest := MaterializePlan(h, k, env, t, q, Some(r)).effects;
    var es := [SwapTicket(t, Used(k, t))] + rest;
    assert es[1..] == rest;
    TicketlessKeeps(Do(s, es[0]), rest);
    SwapWrites(s, t, Used(k, t));
  }

  lemma SwapWrites(s: Tables, t: SecretAccessTicket, u: SecretAccessTicket)
    requires SwapApplies(s.tickets, t)
    ensures Do(s, SwapTicket(t, u)).tickets == s.tickets[t.body.ticketId := u]
  {
  }

  /** A ticket that passes its checks names the latest version, which is active and readable. */
  lemma CheckedIsLatest(s: Tables, k: KeyHierarchy, ticketId: string, q: AccessRequest, now: int)
    requires TablesOk(s, k) && CheckedTicket(s, k, ticketId, q, now).Ok?
    ensures var t := CheckedTicket(s, k, ticketId, q, now).value;
            && ticketId in s.tickets && t == s.tickets[ticketId] && t.body.ticketId == ticketId
            && t.body.usesRemaining >= 1 && t.body.secretRef == q.secretRef
            && var latest := LatestRecord(s.records, q.secretRef);
               && latest.Some? && latest.value.status == Active && DecryptSecret(k, latest.value).Ok?
               && ReadForTicket(s.records, t) == latest
               && LatestVersion(s.records, q.secretRef) == Some(t.body.secretVersion)
  {
    CheckedSeen(s, k, ticketId, q, now);
    CheckedMeans(s, k, ticketId, q, now);
    LatestSeen(s, k, q.secretRef);
    KeysMatch(s, k);
    var t := s.tickets[ticketId];
    hide CheckedTicket, DecryptSecret, LatestRecord, LatestVersion, ReadForTicket, TablesOk, ActivePolicy, ParseStamp,
         Inherits, Follows, PolicyHash, SameContext, SessionMatches;
    ReadIsLatest(s, t);
  }

  lemma KeysMatch(s: Tables, k: KeyHierarchy)
    requires TablesOk(s, k)
    ensures forall key <- s.records :: key == (s.records[key].secretRef, s.records[key].secretVersion)
    ensures forall id <- s.tickets :: s.tickets[id].body.ticketId == id
  {
    hide RecordOk, Follows, TicketOk, JobsOk, Audit.Verifies;
  }

  lemma ReadIsLatest(s: Tables, t: SecretAccessTicket)
    requires t.body.secretVersion >= 1
    requires var latest := LatestRecord(s.records, t.body.secretRef);
             latest.Some? && latest.value.secretVersion == t.body.secretVersion
    requires forall key <- s.records :: key == (s.records[key].secretRef, s.records[key].secretVersion)
    ensures ReadForTicket(s.records, t) == LatestRecord(s.records, t.body.secretRef)
    ensures LatestVersion(s.records, t.body.secretRef) == Some(t.body.secretVersion)
  {
  }

  lemma MaterializeDelivers(h: VaultHeader, k: KeyHierarchy, env: Env, t: SecretAccessTicket, q: AccessRequest, r: SecretRecord)
    requires r.status == Active && DecryptSecret(k, r).Ok?
    ensures MaterializePlan(h, k, env, t, q, Some(r)).outcome == Ok(Plaintext(DecryptSecret(k, r).value))
            == GetPlan(h, k, env, q.secretRef, Some(r)).outcome
    ensures var es := MaterializePlan(h, k, env, t, q, Some(r)).effects; forall i :: 0 <= i < |es| ==> Ticketless(es[i])
  {
    hide DecryptSecret, StatusString, DeliveryModeString;
  }

  lemma TicketlessOne(s: Tables, e: Effect)
    requires Ticketless(e)
    ensures Do(s, e).tickets == s.tickets
  {
  }

  lemma {:induction false} TicketlessKeeps(s: Tables, es: seq<Effect>)
    requires forall i :: 0 <= i < |es| ==> Ticketless(es[i])
    ensures DoAll(s, es).tickets == s.tickets
    decreases |es|
  {
    hide Do, Ticketless;
    if es != [] {
      TicketlessOne(s, es[0]);
      TicketlessKeeps(Do(s, es[0]), es[1..]);
    }
  }

  /** With sound tables a consume either changes nothing, or passes every check, uses up exactly
      one use and gives what `get` would give in the same state. So a use is spent exactly when
      the secret is delivered. */
  lemma ConsumeIsGet(s: Tables, k: KeyHierarchy, ticketId: string, q: AccessRequest, passphrase: Option<string>, env: Env)
    requires TablesOk(s, k) && FreshEnv(s, env)
    ensures var (s', outcome) := Exec(s, ConsumeTicket(ticketId, q), passphrase, env);
            if Precheck(s, ConsumeTicket(ticketId, q)).Ok? && Unlock(s.header, passphrase).Ok?
               && CheckedTicket(s, k, ticketId, q, env.now).Ok? then
              var t := s.tickets[ticketId];
              && ticketId in s.tickets && t.body.usesRemaining >= 1
              && outcome.Ok? && outcome == Exec(s, Get(q.secretRef), passphrase, env).1
              && LatestVersion(s.records, q.secretRef) == Some(t.body.secretVersion)
              && s'.tickets == s.tickets[ticketId := Used(k, t)]
            else outcome.Err? && s' == s
  {
    hide TablesOk, FreshEnv, CheckedTicket, MaterializePlan, Unlock, HeaderOk, LatestVersion, Precheck, Used, Exec, GetPlan,
         LatestRecord, ConsumePlan, PlanOf;
    UnlockHeld(s, k, passphrase);
    var op := ConsumeTicket(ticketId, q);
    var unlocked := Unlock(s.header, passphrase);
    if Precheck(s, op).Err? || unlocked.Err? {
      ExecRefuses(s, op, passphrase, env);
    } else {
      var h := unlocked.value.0;
      ReadPlans(s, h, k, env, ticketId, q);
      ExecIs(s, h, k, op, passphrase, env);
      NoPrecheck(s, q.secretRef);
      ExecIs(s, h, k, Get(q.secretRef), passphrase, env);
      if CheckedTicket(s, k, ticketId, q, env.now).Ok? {
        CheckedDelivers(s, h, k, ticketId, q, passphrase, env);
      } else {
        ConsumeRefused(s, h, k, env, ticketId, q);
      }
    }
  }

  lemma ReadPlans(s: Tables, h: VaultHeader, k: KeyHierarchy, env: Env, ticketId: string, q: AccessRequest)
    ensures PlanOf(s, h, k, ConsumeTicket(ticketId, q), env) == ConsumePlan(s, h, k, env, ticketId, q)
    ensures PlanOf(s, h, k, Get(q.secretRef), env) == GetPlan(h, k, env, q.secretRef, LatestRecord(s.records, q.secretRef))
  {
    hide ConsumePlan, GetPlan, LatestRecord;
  }

  lemma NoPrecheck(s: Tables, secretRef: string)
    ensures Precheck(s, Get(secretRef)).Ok?
  {
  }

  lemma ConsumeRefused(s: Tables, h: VaultHeader, k: KeyHierarchy, env: Env, ticketId: string, q: AccessRequest)
    requires CheckedTicket(s, k, ticketId, q, env.now).Err?
    ensures var plan := ConsumePlan(s, h, k, env, ticketId, q);
            plan.outcome.Err? && DoAll(s, plan.effects) == s
  {
    hide CheckedTicket;
  }

  /** Once a later version than the ticket's is stored, the ticket is never consumed again, in
      any continuation. */
  lemma StaleForever(s: Tables, k: KeyHierarchy, calls: seq<Call>, ticketId: string, q: AccessRequest,
                     passphrase: Option<string>, env: Env)
    requires TablesOk(s, k) && FreshCalls(s, calls) && FreshEnv(Series(s, calls), env)
    requires ticketId in s.tickets
    requires var b := s.tickets[ticketId].body; VersionCount(s.records, b.secretRef) > b.secretVersion
    ensures Exec(Series(s, calls), ConsumeTicket(ticketId, q), passphrase, env).1.Err?
  {
    hide TablesOk, FreshEnv, FreshCalls, Exec, CheckedTicket, Series, LatestVersion, LatestRecord, Unlock, Precheck, Grows, Used;
    var s' := Series(s, calls);
    SeriesKeeps(s, k, calls);
    ConsumeIsGet(s', k, ticketId, q, passphrase, env);
    if CheckedTicket(s', k, ticketId, q, env.now).Ok? {
      CheckedIsLatest(s', k, ticketId, q, env.now);
      CountGrows(s, s', k, q.secretRef);
      SameCore(s, s', ticketId);
    }
  }

  lemma SameCore(a: Tables, b: Tables, id: string)
    requires Grows(a, b) && id in a.tickets
    ensures id in b.tickets && a.tickets[id].body.secretRef == b.tickets[id].body.secretRef
    ensures a.tickets[id].body.secretVersion == b.tickets[id].body.secretVersion
  {
    var x, y := a.tickets[id].body, b.tickets[id].body;
    assert Core(x).secretRef == Core(y).secretRef && Core(x).secretVersion == Core(y).secretVersion;
  }

  lemma CountGrows(a: Tables, b: Tables, k: KeyHierarchy, secretRef: string)
    requires TablesOk(a, k) && TablesOk(b, k) && Grows(a, b)
    ensures VersionCount(a.records, secretRef) <= VersionCount(b.records, secretRef)
  {
    VersionsExact(a.records, k, secretRef);
    VersionsExact(b.records, k, secretRef);
    hide TablesOk, VersionCount;
    var n := VersionCount(a.records, secretRef);
    if n > 0 {
      assert (secretRef, n) in b.records;
    }
  }

  // ---- Lockdown ----

  ghost function Unrevoked(tickets: map<string, SecretAccessTicket>): set<string>
  {
    set id | id in tickets && !tickets[id].body.revoked
  }

  /** The tickets named by `keys` barred, the others as they are. */
  ghost function Locked(k: KeyHierarchy, tickets: map<string, SecretAccessTicket>, keys: set<string>)
    : map<string, SecretAccessTicket>
  {
    map id | id in tickets ::
      if id in keys && !tickets[id].body.revoked then Barred(k, tickets[id]) else tickets[id]
  }

  ghost predicate AllAuthentic(k: KeyHierarchy, tickets: map<string, SecretAccessTicket>)
  {
    forall id <- tickets :: Manager(k).Authentic(tickets[id]) && tickets[id].body.ticketId == id
  }

  ghost function UnrevokedAmong(m: map<string, SecretAccessTicket>, keys: seq<string>): set<string>
  {
    set id | id in keys && id in m && !m[id].body.revoked
  }

  lemma NothingLocked(s: Tables, k: KeyHierarchy, m: map<string, SecretAccessTicket>)
    ensures s.(tickets := Locked(k, s.tickets, set id | id in [])) == s && UnrevokedAmong(m, []) == {}
  {
    assert Locked(k, s.tickets, set id | id in []) == s.tickets;
  }

  /** The loop over the listing of `keys`, started in tables that hold those tickets. */
  lemma {:induction false} LoopLocks(s: Tables, k: KeyHierarchy, m: map<string, SecretAccessTicket>, keys: seq<string>)
    requires AllAuthentic(k, m) && (forall id <- keys :: id in m && id in s.tickets && s.tickets[id] == m[id])
    requires forall i, j :: 0 <= i < j < |keys| ==> keys[i] != keys[j]
    ensures var (saves, count) := RevokeLoop(k, Values(m, keys));
            && DoAll(s, saves) == s.(tickets := Locked(k, s.tickets, set id | id in keys))
            && count == Ok(|UnrevokedAmong(m, keys)|)
    decreases |keys|
  {
    if keys == [] {
      NothingLocked(s, k, m);
    } else {
      hide Do, DoAll, RevokeLoop, Locked, Barred, Values, AllAuthentic;
      var rest := keys[1..];
      var t := m[keys[0]];
      var s' := if t.body.revoked then s else Do(s, SaveTicket(Barred(k, t)));
      assert keys[0] !in rest;
      ValuesTail(m, keys);
      LockedStep(s, k, t, keys);
      CountStep(m, keys);
      HeadAuthentic(k, m, keys[0]);
      RevokeLoopStep(s, k, Values(m, keys));
      LoopLocks(s', k, m, rest);
    }
  }

  lemma ValuesTail(m: map<string, SecretAccessTicket>, keys: seq<string>)
    requires keys != [] && forall id <- keys :: id in m
    ensures Values(m, keys) != [] && Values(m, keys)[0] == m[keys[0]] && Values(m, keys)[1..] == Values(m, keys[1..])
  {
  }

  lemma HeadAuthentic(k: KeyHierarchy, m: map<string, SecretAccessTicket>, id: string)
    requires AllAuthentic(k, m) && id in m
    ensures Manager(k).Authentic(m[id]) && Barred(k, m[id]).body.ticketId == id && m[id].body.ticketId == id
  {
  }

  lemma LockedStep(s: Tables, k: KeyHierarchy, t: SecretAccessTicket, keys: seq<string>)
    requires keys != [] && t.body.ticketId == keys[0] && keys[0] !in keys[1..]
    requires keys[0] in s.tickets && s.tickets[keys[0]] == t
    ensures var s' := if t.body.revoked then s else Do(s, SaveTicket(Barred(k, t)));
            s.(tickets := Locked(k, s.tickets, set i | i in keys)) ==
            s'.(tickets := Locked(k, s'.tickets, set i | i in keys[1..]))
            && forall i <- keys[1..] :: i in s.tickets ==> i in s'.tickets && s'.tickets[i] == s.tickets[i]
  {
    var s' := if t.body.revoked then s else Do(s, SaveTicket(Barred(k, t)));
    assert forall i :: i in keys <==> i == keys[0] || i in keys[1..];
    assert Barred(k, t).body.ticketId == keys[0] && Barred(k, t).body.revoked;
    hide Barred;
    assert t.body.revoked ==> s'.tickets == s.tickets;
    assert !t.body.revoked ==> s'.tickets == s.tickets[keys[0] := Barred(k, t)];
    hide Do;
    assert Locked(k, s.tickets, set i | i in keys) == Locked(k, s'.tickets, set i | i in keys[1..]);
  }

  lemma CountStep(m: map<string, SecretAccessTicket>, keys: seq<string>)
    requires keys != [] && keys[0] !in keys[1..] && forall id <- keys :: id in m
    ensures |UnrevokedAmong(m, keys)| == |UnrevokedAmong(m, keys[1..])| + if m[keys[0]].body.revoked then 0 else 1
  {
    var all, others := UnrevokedAmong(m, keys), UnrevokedAmong(m, keys[1..]);
    assert forall i :: i in keys <==> i == keys[0] || i in keys[1..];
    assert all == if m[keys[0]].body.revoked then others else others + {keys[0]};
  }

  /** Locking down a vault with sound tables never stops early: every ticket ends revoked, changed
      in nothing else, and the count is the number that were not revoked before. */
  lemma LockdownTotal(s: Tables, k: KeyHierarchy, reason: string, passphrase: Option<string>, env: Env)
    requires TablesOk(s, k) && Unlock(s.header, passphrase).Ok?
    ensures var (s', outcome) := Exec(s, RevokeAllTickets(reason), passphrase, env);
            && outcome == Ok(Count(|Unrevoked(s.tickets)|))
            && Unrevoked(s'.tickets) == {}
            && s'.tickets == Locked(k, s.tickets, s.tickets.Keys)
  {
    hide TablesOk, Unlock, SortedKeys, RevokeLoop, DoAll, Do, AllAuthentic, Barred, Exec, Locked;
    UnlockHeld(s, k, passphrase);
    var h := Unlock(s.header, passphrase).value.0;
    TicketsAuthentic(s, k);
    LoopLocksAll(s, k);
    LogAfterSaves(s, h, k, env, reason, RevokeLoop(k, Listing(s.tickets)).0, |Unrevoked(s.tickets)|);
    LockedRevoked(k, s.tickets);
    ExecIs(s, h, k, RevokeAllTickets(reason), passphrase, env);
    hide Unrevoked, Listing;
  }

  lemma LoopLocksAll(s: Tables, k: KeyHierarchy)
    requires AllAuthentic(k, s.tickets)
    ensures var (saves, count) := RevokeLoop(k, Listing(s.tickets));
            DoAll(s, saves).tickets == Locked(k, s.tickets, s.tickets.Keys) && count == Ok(|Unrevoked(s.tickets)|)
  {
    hide SortedKeys, RevokeLoop, DoAll, AllAuthentic, Barred, Locked;
    var keys := SortedKeys(s.tickets.Keys);
    ListedOnce(s.tickets);
    LoopLocks(s, k, s.tickets, keys);
    assert (set id | id in keys) == s.tickets.Keys;
    assert UnrevokedAmong(s.tickets, keys) == Unrevoked(s.tickets);
  }

  lemma LockedRevoked(k: KeyHierarchy, tickets: map<string, SecretAccessTicket>)
    ensures Unrevoked(Locked(k, tickets, tickets.Keys)) == {}
  {
  }

  lemma TicketsAuthentic(s: Tables, k: KeyHierarchy)
    requires TablesOk(s, k)
    ensures AllAuthentic(k, s.tickets)
  {
    hide RecordsOk, JobsOk, Audit.Verifies;
  }

  lemma ListedOnce(m: map<string, SecretAccessTicket>)
    ensures var keys := SortedKeys(m.Keys);
            && (forall id :: id in keys <==> id in m)
            && (forall i, j :: 0 <= i < j < |keys| ==> keys[i] != keys[j])
  {
    var keys := SortedKeys(m.Keys);
    forall i, j | 0 <= i < j < |keys| ensures keys[i] != keys[j] {
      assert Before(keys[i], keys[j]);
    }
  }

  lemma {:induction false} LogAfterSaves(s: Tables, h: VaultHeader, k: KeyHierarchy, env: Env, reason: string,
                                         saves: seq<Effect>, n: nat)
    ensures var log := Log(h, k, env, "lockdown.tickets_revoked", "critical", "allow",
                           map["revoked_tickets" := Audit.JNumber(n), "reason" := Audit.JString(reason)]);
            DoAll(s, saves + [log]).tickets == DoAll(s, saves).tickets
    decreases |saves|
  {
    var log := Log(h, k, env, "lockdown.tickets_revoked", "critical", "allow",
                   map["revoked_tickets" := Audit.JNumber(n), "reason" := Audit.JString(reason)]);
    if saves == [] {
      assert saves + [log] == [log] && [log][1..] == [];
      assert DoAll(s, [log]) == DoAll(Do(s, log), []);
    } else {
      assert (saves + [log])[1..] == saves[1..] + [log];
      LogAfterSaves(Do(s, saves[0]), h, k, env, reason, saves[1..], n);
    }
  }
}
