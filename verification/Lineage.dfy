/** Where tickets come from when processes interleave. A renewal reads the policy twice and writes
    without comparing, so a ticket's policy need not be the one that granted its context; it is one
    that was stored under the same id. */
module Lineage {
  import opened Wrappers
  import opened Keys
  import opened Envelope
  import opened Policy
  import opened Tickets
  import opened Ordering
  import opened Store
  import opened Operations
  import opened Writes
  import opened Invariants
  import opened Soundness
  import opened Interleaving
  import opened Provenance

  /** A world, the decisions of the policy engine so far, and every policy ever stored. */
  datatype Annals = Annals(world: World, grants: seq<Grant>, policies: set<AccessPolicy>)

  /** The decision a process is about to make. */
  ghost function Deciding(s: Tables, pc: Pc): seq<Grant>
  {
    if pc.Found? && pc.op.IssueTicket? && Evaluate(Listing(s.policies), pc.op.request).policy.Some? then
      [Grant(pc.op.request, Evaluate(Listing(s.policies), pc.op.request).policy.value)]
    else []
  }

  /** The policy a process is about to store. */
  function Storing(pc: Pc): set<AccessPolicy>
  {
    if pc.Writing? && pc.effects != [] && pc.effects[0].SavePolicy? then {pc.effects[0].policy} else {}
  }

  ghost function Note(a: Annals, event: Event): Annals
  {
    var world := Interleaving.Next(a.world, event);
    match event
    case Begin(_, _, _, _) => Annals(world, a.grants, a.policies)
    case Advance(process) =>
      var pc := a.world.At(process);
      Annals(world, a.grants + Deciding(a.world.tables, pc), a.policies + Storing(pc))
  }

  ghost function NoteAll(a: Annals, events: seq<Event>): Annals
    decreases |events|
  {
    if events == [] then a else NoteAll(Note(a, events[0]), events[1..])
  }

  /** Context, session and policy id are those of a granted request. */
  ghost predicate InContext(b: TicketBody, g: Grant)
  {
    && SameContext(b, g.request) && b.brokerSessionId == g.request.brokerSessionId
    && b.policyId == g.policy.policyId && Grants(g.policy, g.request)
  }

  /** The ticket carries this policy's terms. */
  ghost predicate UnderPolicy(b: TicketBody, p: AccessPolicy)
  {
    b.policyId == p.policyId && b.policyHash == PolicyHash(p) && b.exportable == p.exportable && b.maxUses == p.maxUses
  }

  ghost predicate Descends(b: TicketBody, grants: seq<Grant>, policies: set<AccessPolicy>)
  {
    && (exists i :: 0 <= i < |grants| && InContext(b, grants[i]) && grants[i].policy in policies)
    && (exists p <- policies :: UnderPolicy(b, p))
  }

  // ---- The invariant ----

  ghost predicate EffectDescends(e: Effect, grants: seq<Grant>, policies: set<AccessPolicy>)
  {
    e.SaveTicket? ==> Descends(e.ticket.body, grants, policies)
  }

  ghost predicate EffectsDescend(es: seq<Effect>, grants: seq<Grant>, policies: set<AccessPolicy>)
  {
    forall i :: 0 <= i < |es| ==> EffectDescends(es[i], grants, policies)
  }

  predicate Holding(pc: Pc)
  {
    pc.Validated? || pc.PolicyChecked? || pc.Checked?
  }

  ghost predicate PcDescends(pc: Pc, grants: seq<Grant>, policies: set<AccessPolicy>)
  {
    && (Holding(pc) && OnTicket(pc.op) ==> SameContext(pc.ticket.body, pc.op.request))
    && (pc.Writing? ==> EffectsDescend(pc.effects, grants, policies))
  }

  ghost predicate RowsDescend(s: Tables, grants: seq<Grant>, policies: set<AccessPolicy>)
  {
    && (forall id <- s.tickets :: Descends(s.tickets[id].body, grants, policies))
    && (forall id <- s.policies :: s.policies[id] in policies)
  }

  ghost predicate AnnalsOk(a: Annals, k: KeyHierarchy)
  {
    && WorldOk(a.world, k)
    && RowsDescend(a.world.tables, a.grants, a.policies)
    && (forall process <- a.world.pcs :: PcDescends(a.world.pcs[process], a.grants, a.policies))
  }

  lemma DescendsOn(b: TicketBody, c: TicketBody, grants: seq<Grant>, more: seq<Grant>, policies: set<AccessPolicy>,
                   others: set<AccessPolicy>)
    requires Descends(b, grants, policies) && Core(b) == Core(c)
    ensures Descends(c, grants + more, policies + others)
  {
    hide Grants, PolicyHash;
    var i :| 0 <= i < |grants| && InContext(b, grants[i]) && grants[i].policy in policies;
    assert (grants + more)[i] == grants[i];
    assert Core(b).policyId == Core(c).policyId;
    assert InContext(c, (grants + more)[i]);
    var p :| p in policies && UnderPolicy(b, p);
    assert UnderPolicy(c, p);
  }

  lemma PcGrows(pc: Pc, grants: seq<Grant>, more: seq<Grant>, policies: set<AccessPolicy>, others: set<AccessPolicy>)
    requires PcDescends(pc, grants, policies)
    ensures PcDescends(pc, grants + more, policies + others)
  {
    hide Descends, SameContext;
    if pc.Writing? {
      forall i | 0 <= i < |pc.effects| ensures EffectDescends(pc.effects[i], grants + more, policies + others) {
        if pc.effects[i].SaveTicket? {
          var b := pc.effects[i].ticket.body;
          DescendsOn(b, b, grants, more, policies, others);
        }
      }
    }
  }

  lemma RowsGrow(s: Tables, grants: seq<Grant>, more: seq<Grant>, policies: set<AccessPolicy>, others: set<AccessPolicy>)
    requires RowsDescend(s, grants, policies)
    ensures RowsDescend(s, grants + more, policies + others)
  {
    hide Descends;
    forall id <- s.tickets ensures Descends(s.tickets[id].body, grants + more, policies + others) {
      DescendsOn(s.tickets[id].body, s.tickets[id].body, grants, more, policies, others);
    }
  }

  // ---- Writes ----

  lemma WriteDescends(s: Tables, k: KeyHierarchy, e: Effect, grants: seq<Grant>, policies: set<AccessPolicy>)
    requires RowsDescend(s, grants, policies) && EffectDescends(e, grants, policies) && EffectOk(s, k, e)
    requires e.SavePolicy? ==> e.policy in policies
    ensures RowsDescend(Do(s, e), grants, policies)
  {
    hide Descends, TicketOk, RecordOk, JobOk, HeaderOk, Core, Used;
    if e.SwapTicket? && SwapApplies(s.tickets, e.expected) {
      UsedOk(e.expected, s.records, k);
      DescendsOn(e.expected.body, e.updated.body, grants, [], policies, {});
      assert grants + [] == grants && policies + {} == policies;
    }
  }

  // ---- Plans ----

  lemma Untouched(es: seq<Effect>, grants: seq<Grant>, policies: set<AccessPolicy>)
    requires forall i :: 0 <= i < |es| ==> Ticketless(es[i])
    ensures EffectsDescend(es, grants, policies)
  {
  }

  lemma IssueDescends(s: Tables, h: VaultHeader, k: KeyHierarchy, env: Env, q: AccessRequest, r: SecretRecord,
                      grants: seq<Grant>, policies: set<AccessPolicy>)
    requires forall id <- s.policies :: s.policies[id] in policies
    requires var p := Evaluate(Listing(s.policies), q).policy; p.Some? ==> Grant(q, p.value) in grants
    ensures EffectsDescend(IssuePlan(h, k, env, q, r, Listing(s.policies)).effects, grants, policies)
  {
    EvaluateExact(Listing(s.policies), q);
    ListingMembers(s.policies);
    hide Grants, Evaluate, Listing, UtcMillis, SignedSeconds, DeliveryModeString;
    var result := Evaluate(Listing(s.policies), q);
    if result.policy.Some? {
      var p := result.policy.value;
      assert p in s.policies.Values;
      var i :| 0 <= i < |grants| && grants[i] == Grant(q, p);
      var t := Manager(k).Issue(env.freshId, h.vaultId, r.secretId, r.secretVersion, q, p, PolicyHash(p), q.brokerSessionId);
      assert InContext(t.body, grants[i]) && UnderPolicy(t.body, p);
    }
  }

  lemma RowOf(s: Tables, t: SecretAccessTicket, grants: seq<Grant>, policies: set<AccessPolicy>)
    requires RowsDescend(s, grants, policies) && Inherits(s.tickets, t)
    ensures Descends(t.body, grants, policies)
  {
    DescendsOn(s.tickets[t.body.ticketId].body, t.body, grants, [], policies, {});
    assert grants + [] == grants && policies + {} == policies;
  }

  lemma BarredDescends(k: KeyHierarchy, t: SecretAccessTicket, grants: seq<Grant>, policies: set<AccessPolicy>)
    requires Descends(t.body, grants, policies)
    ensures Descends(Barred(k, t).body, grants, policies)
    ensures Manager(k).Revoke(t).Ok? ==> Manager(k).Revoke(t) == Ok(Barred(k, t))
  {
    DescendsOn(t.body, Barred(k, t).body, grants, [], policies, {});
    assert grants + [] == grants && policies + {} == policies;
    hide Descends;
  }

  lemma RenewedDescends(h: VaultHeader, k: KeyHierarchy, env: Env, t: SecretAccessTicket, q: AccessRequest, p: AccessPolicy,
                        grants: seq<Grant>, policies: set<AccessPolicy>)
    requires Descends(t.body, grants, policies) && SameContext(t.body, q)
    requires p in policies && p.policyId == t.body.policyId
    ensures var renewed := Manager(k).Issue(env.freshId, h.vaultId, t.body.secretId, t.body.secretVersion, q, p,
                                            PolicyHash(p), t.body.brokerSessionId);
            Descends(renewed.body, grants, policies)
  {
    hide Grants, UtcMillis, SignedSeconds;
    var i :| 0 <= i < |grants| && InContext(t.body, grants[i]) && grants[i].policy in policies;
    var renewed := Manager(k).Issue(env.freshId, h.vaultId, t.body.secretId, t.body.secretVersion, q, p, PolicyHash(p),
                                    t.body.brokerSessionId);
    assert InContext(renewed.body, grants[i]) && UnderPolicy(renewed.body, p);
  }

  lemma RenewDescends(s: Tables, h: VaultHeader, k: KeyHierarchy, env: Env, t: SecretAccessTicket, q: AccessRequest,
                      grants: seq<Grant>, policies: set<AccessPolicy>)
    requires RowsDescend(s, grants, policies) && Inherits(s.tickets, t) && SameContext(t.body, q)
    ensures EffectsDescend(RenewPlan(h, k, env, t, q, ActivePolicy(s, t)).effects, grants, policies)
  {
    hide Descends, SameContext, Inherits, PolicyHash, Barred, UtcMillis, SignedSeconds, ActivePolicy, EffectsDescend,
         RenewPlan;
    RowOf(s, t, grants, policies);
    ActiveIn(s, t, policies);
    RenewPlanDescends(h, k, env, t, q, ActivePolicy(s, t), grants, policies);
  }

  lemma RenewPlanDescends(h: VaultHeader, k: KeyHierarchy, env: Env, t: SecretAccessTicket, q: AccessRequest,
                          active: Option<AccessPolicy>, grants: seq<Grant>, policies: set<AccessPolicy>)
    requires Descends(t.body, grants, policies) && SameContext(t.body, q)
    requires active.Some? ==> active.value in policies && active.value.policyId == t.body.policyId
    ensures EffectsDescend(RenewPlan(h, k, env, t, q, active).effects, grants, policies)
  {
    hide Descends, SameContext, PolicyHash, Barred, UtcMillis, SignedSeconds;
    BarredDescends(k, t, grants, policies);
    if active.Some? {
      RenewedDescends(h, k, env, t, q, active.value, grants, policies);
    }
  }

  /** A renewal past its checks plans a ticket exactly if a policy is stored under the id. */
  lemma RenewalReads(s: Tables, k: KeyHierarchy, pc: Pc)
    requires PcOk(s, k, pc) && pc.Checked? && pc.op.RenewTicket?
    ensures var active, next := ActivePolicy(s, pc.ticket), ReadStep(s, pc);
            && (next.Writing? <==> active.Some?)
            && (active.Some? ==>
                  && |next.effects| >= 2 && next.effects[1].SaveTicket?
                  && next.effects[1].ticket ==
                       Manager(k).Issue(pc.env.freshId, pc.h.vaultId, pc.ticket.body.secretId, pc.ticket.body.secretVersion,
                                        pc.op.request, active.value, PolicyHash(active.value),
                                        pc.ticket.body.brokerSessionId))
  {
    hide ActivePolicy, UtcMillis, SignedSeconds, HeaderOk, PolicyHash, Log;
    assert Manager(k).Authentic(pc.ticket);
  }

  /** That ticket comes from a grant exactly if the old one has that grant's context and the policy
      stored now is the one that granted it. */
  lemma RenewalStep(s: Tables, k: KeyHierarchy, pc: Pc, g: Grant)
    requires PcOk(s, k, pc) && pc.Checked? && pc.op.RenewTicket? && SameContext(pc.ticket.body, pc.op.request)
    requires ActivePolicy(s, pc.ticket).Some? && ReadStep(s, pc).Writing? && |ReadStep(s, pc).effects| >= 2
    requires ReadStep(s, pc).effects[1].SaveTicket?
    ensures ComesFrom(ReadStep(s, pc).effects[1].ticket.body, g) <==>
              InContext(pc.ticket.body, g) && ActivePolicy(s, pc.ticket).value == g.policy
  {
    hide ActivePolicy, Grants, UtcMillis, SignedSeconds, HeaderOk, ReadStep, PcOk;
    RenewalReads(s, k, pc);
    ActiveNamed(s, pc.ticket);
  }

  lemma ActiveNamed(s: Tables, t: SecretAccessTicket)
    ensures ActivePolicy(s, t).Some? ==> ActivePolicy(s, t).value.policyId == t.body.policyId
  {
    hide Listing;
  }

  lemma ActiveIn(s: Tables, t: SecretAccessTicket, policies: set<AccessPolicy>)
    requires forall id <- s.policies :: s.policies[id] in policies
    ensures var active := ActivePolicy(s, t);
            active.Some? ==> active.value in policies && active.value.policyId == t.body.policyId
  {
    ListingMembers(s.policies);
    hide Listing;
    var active := ActivePolicy(s, t);
    if active.Some? {
      assert active.value in s.policies.Values;
    }
  }

  lemma {:induction false} RevokeLoopDescends(k: KeyHierarchy, list: seq<SecretAccessTicket>, grants: seq<Grant>,
                                              policies: set<AccessPolicy>)
    requires forall i :: 0 <= i < |list| ==> Descends(list[i].body, grants, policies)
    ensures EffectsDescend(RevokeLoop(k, list).0, grants, policies)
  {
    hide Descends;
    if list != [] {
      RevokeLoopDescends(k, list[1..], grants, policies);
      BarredDescends(k, list[0], grants, policies);
      hide Barred;
    }
  }

  lemma RevokeDescends(s: Tables, h: VaultHeader, k: KeyHierarchy, op: Op, env: Env, grants: seq<Grant>,
                       policies: set<AccessPolicy>)
    requires RowsDescend(s, grants, policies) && (op.RevokeTicket? || op.RevokeAllTickets?)
    ensures EffectsDescend(PlanOf(s, h, k, op, env).effects, grants, policies)
  {
    hide Descends, RevokeLoop, Listing;
    if op.RevokeTicket? {
      if op.ticketId in s.tickets {
        BarredDescends(k, s.tickets[op.ticketId], grants, policies);
        hide Barred;
      }
    } else {
      ListingMembers(s.tickets);
      var list := Listing(s.tickets);
      forall i | 0 <= i < |list| ensures Descends(list[i].body, grants, policies) {
        assert list[i] in list;
      }
      RevokeLoopDescends(k, list, grants, policies);
    }
  }

  lemma CarryDescends(plan: Plan, grants: seq<Grant>, policies: set<AccessPolicy>)
    requires EffectsDescend(plan.effects, grants, policies)
    ensures PcDescends(Carry(plan), grants, policies)
  {
    hide EffectDescends;
  }

  lemma LoadDescends(s: Tables, op: Op, env: Env, h: VaultHeader, k: KeyHierarchy, grants: seq<Grant>,
                     policies: set<AccessPolicy>)
    requires OnTicket(op)
    ensures PcDescends(LoadStep(s, op, env, h, k), grants, policies)
  {
    if op.ticketId in s.tickets {
      ValidateExact(Manager(k), s.tickets[op.ticketId], op.request, env.now);
    }
    hide SameContext, ParseStamp, SessionMatches;
  }

  lemma UnlockedDescends(s: Tables, pc: Pc, grants: seq<Grant>, policies: set<AccessPolicy>)
    requires RowsDescend(s, grants, policies) && pc.Unlocked?
    ensures PcDescends(ReadStep(s, pc), grants, policies)
  {
    hide PlanOf, PcDescends, EffectsDescend, RowsDescend, Carry, LoadStep, LatestRecord, Unlock, Ticketless, Within;
    var op := pc.op;
    var plan := PlanOf(s, pc.h, pc.k, op, pc.env);
    NothingHeld(grants, policies);
    if OnTicket(op) {
      LoadDescends(s, op, pc.env, pc.h, pc.k, grants, policies);
    } else if !op.IssueTicket? {
      if op.RevokeTicket? || op.RevokeAllTickets? {
        RevokeDescends(s, pc.h, pc.k, op, pc.env, grants, policies);
      } else {
        PlanWithin(s, pc.h, pc.k, op, pc.env);
        TicketlessWithin(plan.effects, Writable(op));
        Untouched(plan.effects, grants, policies);
      }
      CarryDescends(plan, grants, policies);
    }
  }

  lemma NothingHeld(grants: seq<Grant>, policies: set<AccessPolicy>)
    ensures forall pc: Pc :: !Holding(pc) && !pc.Writing? ==> PcDescends(pc, grants, policies)
  {
  }

  lemma ReadDescends(s: Tables, k: KeyHierarchy, pc: Pc, grants: seq<Grant>, policies: set<AccessPolicy>)
    requires RowsDescend(s, grants, policies) && PcDescends(pc, grants, policies) && PcOk(s, k, pc)
    requires forall i :: 0 <= i < |Deciding(s, pc)| ==> Deciding(s, pc)[i] in grants
    ensures PcDescends(ReadStep(s, pc), grants, policies)
  {
    hide RowsDescend, EffectsDescend, Carry, LoadStep, LatestRecord, Unlock, Ticketless, FirstRead, PolicyCheck, CurrencyCheck,
         ActivePolicy, IssuePlan, RenewPlan, MaterializePlan, ReadForTicket, Listing, TotpEnrolled, SameContext, Evaluate,
         HeaderOk, TicketOk, RecordOk, EffectsOk;
    NothingHeld(grants, policies);
    match pc
    case Unlocked(_, _, _, _, _) => UnlockedDescends(s, pc, grants, policies);
    case Reunlocked(op, env, h, held) => LoadDescends(s, op, env, h, held, grants, policies);
    case Found(op, env, h, held, r) =>
      if op.IssueTicket? {
        FoundDescends(s, pc, grants, policies);
      }
    case Checked(op, env, h, held, t) =>
      if op.RenewTicket? {
        RenewDescends(s, h, held, env, t, op.request, grants, policies);
        CarryDescends(RenewPlan(h, held, env, t, op.request, ActivePolicy(s, t)), grants, policies);
      }
    case Swapped(op, env, h, held, t) =>
      if op.ConsumeTicket? {
        var plan := MaterializePlan(h, held, env, t, op.request, ReadForTicket(s.records, t));
        MaterializeWithin(h, held, env, t, op.request, ReadForTicket(s.records, t));
        TicketlessWithin(plan.effects, {EventRow});
        Untouched(plan.effects, grants, policies);
        CarryDescends(plan, grants, policies);
      }
    case _ =>
  }

  lemma FoundDescends(s: Tables, pc: Pc, grants: seq<Grant>, policies: set<AccessPolicy>)
    requires RowsDescend(s, grants, policies) && pc.Found? && pc.op.IssueTicket?
    requires forall i :: 0 <= i < |Deciding(s, pc)| ==> Deciding(s, pc)[i] in grants
    ensures PcDescends(ReadStep(s, pc), grants, policies)
  {
    hide Evaluate, Listing, IssuePlan, Carry, PcDescends, EffectsDescend, Descends;
    var q := pc.op.request;
    var p := Evaluate(Listing(s.policies), q).policy;
    if p.Some? {
      assert Deciding(s, pc) == [Grant(q, p.value)];
      assert Deciding(s, pc)[0] in grants;
    }
    IssueDescends(s, pc.h, pc.k, pc.env, q, pc.record, grants, policies);
    CarryDescends(IssuePlan(pc.h, pc.k, pc.env, q, pc.record, Listing(s.policies)), grants, policies);
  }

  // ---- Steps and runs ----

  lemma StepDescends(s: Tables, k: KeyHierarchy, pc: Pc, grants: seq<Grant>, policies: set<AccessPolicy>)
    requires RowsDescend(s, grants, policies) && PcDescends(pc, grants, policies) && PcOk(s, k, pc)
    requires forall i :: 0 <= i < |Deciding(s, pc)| ==> Deciding(s, pc)[i] in grants
    requires Storing(pc) <= policies
    ensures RowsDescend(Advanced(s, pc).0, grants, policies) && PcDescends(Advanced(s, pc).1, grants, policies)
  {
    hide RowsDescend, ReadStep, SwapApplies, Fresh, Used, TicketSeen, HeaderOk, Descends, SameContext, EffectOk, Do;
    NothingHeld(grants, policies);
    if Swapping(s, pc) {
      SwapSound(s, k, pc.op, pc.ticket);
      WriteDescends(s, k, SwapTicket(pc.ticket, Used(pc.k, pc.ticket)), grants, policies);
    } else if pc.Writing? && pc.effects != [] {
      if Fresh(s, pc.effects[0]) {
        WriteDescends(s, k, pc.effects[0], grants, policies);
        CarryDescends(Plan(pc.effects[1..], pc.outcome), grants, policies);
      }
    } else {
      hide PcDescends, PcOk;
      ReadDescends(s, k, pc, grants, policies);
    }
  }

  lemma NoteKeeps(a: Annals, k: KeyHierarchy, event: Event)
    requires AnnalsOk(a, k)
    ensures AnnalsOk(Note(a, event), k)
  {
    NextKeeps(a.world, k, event);
    hide TablesOk, PcOk, Advanced, Budget, RowsDescend, PcDescends, Deciding, Storing, Swapping;
    NothingPending(a.grants, a.policies, event);
    if event.Advance? {
      AdvanceDescends(a, k, event.process);
    }
  }

  lemma AdvanceDescends(a: Annals, k: KeyHierarchy, process: nat)
    requires AnnalsOk(a, k)
    ensures var b := Note(a, Advance(process));
            && RowsDescend(b.world.tables, b.grants, b.policies)
            && forall p <- b.world.pcs :: PcDescends(b.world.pcs[p], b.grants, b.policies)
  {
    hide TablesOk, PcOk, Advanced, Budget, RowsDescend, PcDescends, Deciding, Storing, Swapping;
    var b := Note(a, Advance(process));
    var pc := a.world.At(process);
    var more, others := Deciding(a.world.tables, pc), Storing(pc);
    NothingPending(a.grants, a.policies, Advance(process));
    AtOk(a.world, k, process);
    RowsGrow(a.world.tables, a.grants, more, a.policies, others);
    PcGrows(pc, a.grants, more, a.policies, others);
    assert forall i :: 0 <= i < |more| ==> b.grants[|a.grants| + i] == more[i];
    StepDescends(a.world.tables, k, pc, b.grants, b.policies);
    hide WorldOk;
    forall p <- b.world.pcs ensures PcDescends(b.world.pcs[p], b.grants, b.policies) {
      if p != process {
        PcGrows(a.world.pcs[p], a.grants, more, a.policies, others);
      }
    }
  }

  lemma NothingPending(grants: seq<Grant>, policies: set<AccessPolicy>, event: Event)
    ensures PcDescends(Idle, grants, policies)
    ensures event.Begin? ==> PcDescends(Start(event.op, event.passphrase, event.env), grants, policies)
  {
  }

  lemma {:induction false} NoteAllKeeps(a: Annals, k: KeyHierarchy, events: seq<Event>)
    requires AnnalsOk(a, k)
    ensures AnnalsOk(NoteAll(a, events), k) && NoteAll(a, events).world == Run(a.world, events)
    decreases |events|
  {
    hide AnnalsOk, Interleaving.Next, Deciding, Storing;
    if events != [] {
      NoteKeeps(a, k, events[0]);
      NoteAllKeeps(Note(a, events[0]), k, events[1..]);
    }
  }

  /** Only one policy was ever stored under the id. */
  ghost predicate StoredOnce(policyId: string, policies: set<AccessPolicy>)
  {
    forall p, q | p in policies && q in policies :: p.policyId == policyId && q.policyId == policyId ==> p == q
  }

  /** Context of a grant, terms of a stored policy; both of the grant if its policy was stored once. */
  ghost predicate HasLineage(b: TicketBody, grants: seq<Grant>, policies: set<AccessPolicy>)
  {
    exists i, p :: 0 <= i < |grants| && InContext(b, grants[i]) && p in policies && UnderPolicy(b, p)
      && (StoredOnce(b.policyId, policies) ==> ComesFrom(b, grants[i]))
  }

  lemma LineageOf(b: TicketBody, grants: seq<Grant>, policies: set<AccessPolicy>)
    requires Descends(b, grants, policies)
    ensures HasLineage(b, grants, policies)
  {
    hide Grants, SameContext, PolicyHash;
    var i :| 0 <= i < |grants| && InContext(b, grants[i]) && grants[i].policy in policies;
    var p :| p in policies && UnderPolicy(b, p);
    assert StoredOnce(b.policyId, policies) ==> grants[i].policy == p;
  }

  lemma StartOk(h: VaultHeader, k: KeyHierarchy, env: Env, details: map<string, Audit.Json>)
    requires HeaderOk(h, k)
    ensures AnnalsOk(Annals(Opened(h, k, env, details), [], {}), k)
  {
    CreatedOk(h, k, env, details);
    OpenedBudget(h, k, env, details);
    NothingYet(h, k, env, details);
    hide TablesOk, Budget, Created, HeaderOk, PcOk, PcDescends, Descends;
  }

  lemma NothingYet(h: VaultHeader, k: KeyHierarchy, env: Env, details: map<string, Audit.Json>)
    ensures var s := Created(h, k, env, details); s.tickets == map[] && s.policies == map[]
  {
  }

  /** In every interleaved run from creation each ticket, through any renewals, has the context,
      session and policy id of a request the engine granted, and the terms of a policy stored under
      that id at some time. If only one policy was ever stored under that id, it is the very policy
      that granted the request, as in serial runs. */
  lemma TicketsDescend(h: VaultHeader, k: KeyHierarchy, env: Env, details: map<string, Audit.Json>, events: seq<Event>,
                       id: string)
    requires HeaderOk(h, k) && id in Run(Opened(h, k, env, details), events).tables.tickets
    ensures var a := NoteAll(Annals(Opened(h, k, env, details), [], {}), events);
            a.world == Run(Opened(h, k, env, details), events)
            && HasLineage(a.world.tables.tickets[id].body, a.grants, a.policies)
  {
    var start := Annals(Opened(h, k, env, details), [], {});
    StartOk(h, k, env, details);
    hide TablesOk, NoteAll, Created, Run, HasLineage, Descends, WorldOk, PcDescends;
    NoteAllKeeps(start, k, events);
    var a := NoteAll(start, events);
    LineageOf(a.world.tables.tickets[id].body, a.grants, a.policies);
  }

  lemma RenewalOrigins(s: Tables, k: KeyHierarchy, pc: Pc, grants: seq<Grant>, policies: set<AccessPolicy>)
    requires PcOk(s, k, pc) && PcDescends(pc, grants, policies) && pc.Checked? && pc.op.RenewTicket?
    ensures var active, next := ActivePolicy(s, pc.ticket), ReadStep(s, pc);
            && (next.Writing? <==> active.Some?)
            && (active.Some? ==>
                  && |next.effects| >= 2 && next.effects[1].SaveTicket?
                  && (Origin(next.effects[1].ticket.body, grants) <==>
                        exists i :: 0 <= i < |grants| && InContext(pc.ticket.body, grants[i])
                          && grants[i].policy == active.value))
  {
    hide ReadStep, ActivePolicy, ComesFrom, InContext, SameContext, HeaderOk, TicketOk, PolicyHash;
    RenewalReads(s, k, pc);
    if ActivePolicy(s, pc.ticket).Some? {
      forall i | 0 <= i < |grants|
        ensures ComesFrom(ReadStep(s, pc).effects[1].ticket.body, grants[i]) <==>
                  InContext(pc.ticket.body, grants[i]) && grants[i].policy == ActivePolicy(s, pc.ticket).value
      {
        RenewalStep(s, k, pc, grants[i]);
      }
    }
  }

  /** In every interleaved run, a renewal past its checks plans a ticket that goes back to a grant of
      the run exactly if its policy, as stored when it is read again, granted the old ticket's context. */
  lemma RenewalExact(h: VaultHeader, k: KeyHierarchy, env: Env, details: map<string, Audit.Json>, events: seq<Event>,
                     process: nat)
    requires HeaderOk(h, k)
    requires var w := Run(Opened(h, k, env, details), events);
             process in w.pcs && w.pcs[process].Checked? && w.pcs[process].op.RenewTicket?
    ensures var a := NoteAll(Annals(Opened(h, k, env, details), [], {}), events);
            var s, pc := a.world.tables, Run(Opened(h, k, env, details), events).pcs[process];
            var active, next := ActivePolicy(s, pc.ticket), ReadStep(s, pc);
            && a.world == Run(Opened(h, k, env, details), events)
            && (next.Writing? <==> active.Some?)
            && (active.Some? ==>
                  && |next.effects| >= 2 && next.effects[1].SaveTicket?
                  && (Origin(next.effects[1].ticket.body, a.grants) <==>
                        exists i :: 0 <= i < |a.grants| && InContext(pc.ticket.body, a.grants[i])
                          && a.grants[i].policy == active.value))
  {
    var start := Annals(Opened(h, k, env, details), [], {});
    StartOk(h, k, env, details);
    hide WorldOk, PcDescends, RowsDescend, NoteAll, Created, Run, ReadStep, ActivePolicy, Origin, InContext;
    NoteAllKeeps(start, k, events);
    var a := NoteAll(start, events);
    AtOk(a.world, k, process);
    RenewalOrigins(a.world.tables, k, a.world.pcs[process], a.grants, a.policies);
  }
}
