/** An interleaved run from a new vault after which a renewed ticket goes back to no granted request. */
module RenewalRace {
  import opened Wrappers
  import opened Keys
  import opened Envelope
  import opened Policy
  import opened Tickets
  import opened Ordering
  import opened Store
  import opened Operations
  import opened Invariants
  import opened Soundness
  import opened Interleaving
  import opened Refinement
  import opened Provenance
  import opened Outcomes
  import opened Race
  import Brokered

  /** A policy open to everyone, and one under the same id that is closed to everyone. */
  function Open(): AccessPolicy
  {
    AccessPolicy("p", ["*"], ["*"], [], ["*"], [], [Pipe], [], [], [], [], [], [], false, None, [], [], [], [], [], [], false,
                 3600, 1, "A0", false, false, None)
  }

  function Closed(): AccessPolicy
  {
    Open().(allowedConsumers := [])
  }

  function Asking(): AccessRequest
  {
    AccessRequest("secret://a", "consumer", "purpose", Pipe, "A0", false, None, None, None, None, None, None, None, None, false,
                  None, 0)
  }

  lemma OpenGrants()
    ensures Grants(Open(), Asking()) && forall q :: !Grants(Closed(), q)
  {
  }

  // ---- What single operations leave behind ----

  lemma PolicySaved(s: Tables, h: VaultHeader, k: KeyHierarchy, policy: AccessPolicy, passphrase: Option<string>, env: Env)
    requires Unlock(s.header, passphrase) == Ok((h, k))
    ensures var t := Exec(s, AddPolicy(policy), passphrase, env).0;
            && t.policies == s.policies[policy.policyId := policy]
            && t.header == s.header && t.tickets == s.tickets && t.records == s.records
  {
    hide Unlock, Exec;
    ExecIs(s, h, k, AddPolicy(policy), passphrase, env);
    var es := AddPolicyPlan(h, k, env, policy).effects;
    assert DoAll(s, es) == DoAll(Do(s, es[0]), es[1..]);
    assert DoAll(Do(s, es[0]), es[1..]) == Do(Do(s, es[0]), es[1]);
    hide DoAll;
  }

  lemma PutLeaves(s: Tables, h: VaultHeader, k: KeyHierarchy, secretRef: string, passphrase: Option<string>, env: Env)
    requires Unlock(s.header, passphrase) == Ok((h, k))
    ensures var t := Exec(s, Put(secretRef, [], Generic), passphrase, env).0;
            t.header == s.header && t.policies == s.policies && t.tickets == s.tickets
  {
    hide Unlock, Exec, EncryptAt, LatestVersion, DoAll, Do;
    ExecIs(s, h, k, Put(secretRef, [], Generic), passphrase, env);
    var es := PutPlan(h, k, env, secretRef, [], Generic, LatestVersion(s.records, secretRef)).effects;
    DoAllLeaves(s, es);
  }

  predicate Elsewhere(e: Effect)
  {
    e.SaveRecord? || e.SaveFingerprint? || e.AppendAudit?
  }

  lemma {:induction false} DoAllLeaves(s: Tables, es: seq<Effect>)
    requires forall i :: 0 <= i < |es| ==> Elsewhere(es[i])
    ensures var t := DoAll(s, es); t.header == s.header && t.policies == s.policies && t.tickets == s.tickets
    decreases |es|
  {
    if es != [] {
      DoAllLeaves(Do(s, es[0]), es[1..]);
    }
  }

  // ---- A usable ticket ----

  /** The ticket is stored under the open policy, the only one, and passes its checks. */
  ghost predicate Ready(s: Tables, h: VaultHeader, k: KeyHierarchy, id: string)
  {
    && TablesOk(s, k) && s.header == Some(h) && s.policies == map["p" := Open()]
    && id in s.tickets && s.tickets[id].body.policyId == "p" && Manager(k).Authentic(s.tickets[id])
    && CheckedTicket(s, k, id, Asking(), 0).Ok?
  }

  lemma IssuedReady(s: Tables, h: VaultHeader, k: KeyHierarchy, passphrase: Option<string>, env: Env)
    requires TablesOk(s, k) && FreshEnv(s, env) && s.header == Some(h) && s.policies == map["p" := Open()]
    requires Unlock(s.header, passphrase) == Ok((h, k))
    requires LatestRecord(s.records, "secret://a").Some? && LatestRecord(s.records, "secret://a").value.status == Active
    ensures Ready(Exec(s, IssueTicket(Asking()), passphrase, env).0, h, k, env.freshId)
  {
    hide TablesOk, FreshEnv, Unlock, Exec, LatestRecord, Listing, Grants, CheckedTicket, Evaluate, ComesFrom, LoggedOnce,
         PoliciesOk, OnlyTickets, Brokered.EndOfLife;
    var q, t := Asking(), Exec(s, IssueTicket(Asking()), passphrase, env).0;
    OnlyOpen(s);
    OpenGrants();
    EvaluateExact(Listing(s.policies), q);
    IssueExact(s, k, q, passphrase, env);
    Brokered.IssuedTicket(s, k, q, passphrase, env);
    ExecKeeps(s, k, IssueTicket(q), passphrase, env);
    Brokered.SameButTickets(s, t);
    Brokered.PoliciesSound(t, k);
    var r := LatestRecord(s.records, q.secretRef).value;
    Brokered.NewTicketChecks(t, k, t.tickets[env.freshId], env.freshId, h, r, q, Open(), 0);
    OpenLasts();
  }

  lemma OnlyOpen(s: Tables)
    requires s.policies == map["p" := Open()]
    ensures Open() in Listing(s.policies) && forall p <- Listing(s.policies) :: p == Open()
  {
    ListingMembers(s.policies);
    hide Listing, Open;
    assert s.policies["p"] == Open();
    forall p <- Listing(s.policies) ensures p == Open() {
      assert p in s.policies.Values;
    }
  }

  lemma OpenLasts()
    ensures Brokered.EndOfLife(Asking(), Open()) >= 0
  {
  }

  /** From a new vault: store the open policy, put the secret, issue the ticket. */
  lemma ReachesReady(w: World, h: VaultHeader, k: KeyHierarchy, passphrase: Option<string>)
    returns (events: seq<Event>, id: string)
    requires TablesOk(w.tables, k) && Free(w, 0) && Free(w, 1) && Represents(w.tables, k, PlainVault(h, map[], map[]))
    requires w.tables.policies == map[] && Unlock(Some(h), passphrase) == Ok((h, k))
    ensures var v := Run(w, events); Free(v, 0) && Free(v, 1) && Ready(v.tables, h, k, id)
  {
    hide TablesOk, Represents, Exec, FreshEnv, Run, PlainExec, Unlock, LatestRecord, Ready, Free;
    var op1, op2 := AddPolicy(Open()), Put("secret://a", [], Generic);
    var p0 := PlainVault(h, map[], map[]);
    HeaderHeld(w.tables, k, p0);
    var env1 := FreshEnvExists(w.tables);
    var one := RunsExec(w, k, 0, op1, passphrase, env1);
    var v1 := Run(w, one);
    FreeStays(w, v1);
    ExecRefines(w.tables, k, p0, op1, passphrase, env1);
    UnrelatedIdle(p0, op1, passphrase, env1.freshId);
    PolicySaved(w.tables, h, k, Open(), passphrase, env1);
    var env2 := FreshEnvExists(v1.tables);
    var two := RunsExec(v1, k, 0, op2, passphrase, env2);
    var v2 := Run(v1, two);
    FreeStays(v1, v2);
    ExecRefines(v1.tables, k, p0, op2, passphrase, env2);
    PutLeaves(v1.tables, h, k, "secret://a", passphrase, env2);
    PlainStored(h, k, passphrase, env2.freshId, v2.tables);
    var env3 := FreshEnvExists(v2.tables);
    var three := RunsExec(v2, k, 0, IssueTicket(Asking()), passphrase, env3);
    FreeStays(v2, Run(v2, three));
    IssuedReady(v2.tables, h, k, passphrase, env3);
    id := env3.freshId;
    RunJoins(w, one, two);
    RunJoins(w, one + two, three);
    events := one + two + three;
  }

  lemma FreeStays(w: World, v: World)
    ensures OthersStay(w, v, 0) && Free(w, 1) ==> Free(v, 1)
  {
  }

  lemma PlainStored(h: VaultHeader, k: KeyHierarchy, passphrase: Option<string>, newId: string, s: Tables)
    requires Unlock(Some(h), passphrase).Ok? && TablesOk(s, k)
    requires Represents(s, k, PlainExec(PlainVault(h, map[], map[]), Put("secret://a", [], Generic), passphrase, newId).0)
    ensures LatestRecord(s.records, "secret://a").Some? && LatestRecord(s.records, "secret://a").value.status == Active
  {
    hide TablesOk, Represents, Unlock, LatestRecord;
    assert "secret://" <= "secret://a";
    var p := PlainExec(PlainVault(h, map[], map[]), Put("secret://a", [], Generic), passphrase, newId).0;
    LatestMatches(s, k, p, "secret://a");
    assert |p.Slots("secret://a")| == 1;
  }

  // ---- A renewal overtaken by a change of policy ----

  /** Two unlocks and three checks take a renewal of a usable ticket to its plan. */
  lemma FiveReads(s: Tables, k: KeyHierarchy, h: VaultHeader, id: string, q: AccessRequest, passphrase: Option<string>, env: Env)
    requires Unlock(s.header, passphrase) == Ok((h, k)) && CheckedTicket(s, k, id, q, env.now).Ok?
    ensures id in s.tickets
            && Steps(s, Start(RenewTicket(id, q), passphrase, env), 5)
               == (s, Checked(RenewTicket(id, q), env, h, k, s.tickets[id]))
  {
    hide Unlock, Listing, LatestRecord, ActivePolicy, PolicyCheck, CurrencyCheck, CheckedTicket, PlanOf, Carry, RenewPlan,
         IssuePlan, MaterializePlan, ReadForTicket, TotpEnrolled, Steps, LoadStep;
    LaterChecks(s, k, id, q, env.now);
    var op := RenewTicket(id, q);
    var t := s.tickets[id];
    var a, b, c := Unlocked(op, passphrase, env, h, k), Reunlocked(op, env, h, k), Validated(op, env, h, k, t);
    var d, e := PolicyChecked(op, env, h, k, t), Checked(op, env, h, k, t);
    Loads(s, k, op, env, h);
    assert ReadStep(s, Permitted(op, passphrase, env)) == a;
    assert ReadStep(s, a) == b;
    assert ReadStep(s, b) == c;
    assert ReadStep(s, c) == d;
    assert ReadStep(s, d) == e;
    FiveSteps(s, Permitted(op, passphrase, env), a, b, c, d, e);
  }

  lemma Loads(s: Tables, k: KeyHierarchy, op: Op, env: Env, h: VaultHeader)
    requires OnTicket(op) && CheckedTicket(s, k, op.ticketId, op.request, env.now).Ok?
    ensures op.ticketId in s.tickets && LoadStep(s, op, env, h, k) == Validated(op, env, h, k, s.tickets[op.ticketId])
  {
    hide LatestRecord, ActivePolicy, PolicyCheck, CurrencyCheck;
  }

  lemma LaterChecks(s: Tables, k: KeyHierarchy, id: string, q: AccessRequest, now: int)
    requires CheckedTicket(s, k, id, q, now).Ok?
    ensures id in s.tickets
            && var t := s.tickets[id];
               && PolicyCheck(k, t, ActivePolicy(s, t)).Ok?
               && CurrencyCheck(t, LatestRecord(s.records, t.body.secretRef)).Ok?
  {
    hide LatestRecord, ActivePolicy, PolicyCheck, CurrencyCheck;
  }

  predicate OnlyReads(pc: Pc)
  {
    !pc.Writing? && !pc.Checked?
  }

  lemma FiveSteps(s: Tables, first: Pc, a: Pc, b: Pc, c: Pc, d: Pc, e: Pc)
    requires OnlyReads(first) && OnlyReads(a) && OnlyReads(b) && OnlyReads(c) && OnlyReads(d)
    requires ReadStep(s, first) == a && ReadStep(s, a) == b && ReadStep(s, b) == c && ReadStep(s, c) == d && ReadStep(s, d) == e
    ensures Steps(s, first, 5) == (s, e)
  {
    hide ReadStep;
    assert Advanced(s, first) == (s, a) && Advanced(s, a) == (s, b) && Advanced(s, b) == (s, c);
    assert Advanced(s, c) == (s, d) && Advanced(s, d) == (s, e);
    hide Advanced;
    assert Steps(s, d, 1) == Steps(s, e, 0);
    assert Steps(s, c, 2) == Steps(s, d, 1);
    assert Steps(s, b, 3) == Steps(s, c, 2);
    assert Steps(s, a, 4) == Steps(s, b, 3);
  }

  /** Its next steps store a ticket of the policy found then. */
  lemma RenewalStored(s: Tables, k: KeyHierarchy, h: VaultHeader, q: AccessRequest, t: SecretAccessTicket, p: AccessPolicy,
                      env: Env, id: string)
    requires Manager(k).Authentic(t) && ActivePolicy(s, t) == Some(p)
    requires env.freshId !in s.tickets && t.body.ticketId in s.tickets
    ensures var s' := Steps(s, Checked(RenewTicket(id, q), env, h, k, t), 3).0;
            env.freshId in s'.tickets && s'.tickets[env.freshId].body.policyHash == PolicyHash(p)
  {
    hide ActivePolicy, UtcMillis, SignedSeconds, Log, Steps;
    var pc := Checked(RenewTicket(id, q), env, h, k, t);
    var plan := RenewPlan(h, k, env, t, q, Some(p));
    assert Advanced(s, pc) == (s, Writing(plan.effects, plan.outcome));
    WriteTwo(s, pc, plan.effects, plan.outcome);
  }

  lemma WriteTwo(s: Tables, pc: Pc, es: seq<Effect>, outcome: Outcome)
    requires Advanced(s, pc) == (s, Writing(es, outcome)) && |es| > 2
    requires InsertOf(es[0]).None? && Fresh(Do(s, es[0]), es[1])
    ensures Steps(s, pc, 3).0 == Do(Do(s, es[0]), es[1])
  {
    hide Do, InsertOf, IdUsed, ReadStep;
    var s1 := Do(s, es[0]);
    var s2 := Do(s1, es[1]);
    assert Advanced(s, Writing(es, outcome)) == (s1, Writing(es[1..], outcome));
    assert Advanced(s1, Writing(es[1..], outcome)).0 == s2;
    hide Advanced;
    assert Steps(s1, Writing(es[1..], outcome), 1).0 == s2;
    assert Steps(s, Writing(es, outcome), 2).0 == s2;
  }

  lemma Overtakes(w: World, h: VaultHeader, k: KeyHierarchy, passphrase: Option<string>, id: string)
    returns (events: seq<Event>, renewed: string)
    requires Free(w, 0) && Free(w, 1) && Ready(w.tables, h, k, id) && Unlock(Some(h), passphrase) == Ok((h, k))
    ensures var s := Run(w, events).tables;
            renewed in s.tickets && s.tickets[renewed].body.policyHash == PolicyHash(Closed())
  {
    hide Unlock, TablesOk, Steps, Run, Exec, CheckedTicket, Listing, ActivePolicy, PolicyHash;
    var t := w.tables.tickets[id];
    var env := FreshEnvExists(w.tables);
    renewed := env.freshId;
    var one := StartsAndRuns(w, 0, RenewTicket(id, Asking()), passphrase, env, 5);
    var v1 := Run(w, one);
    FiveReads(w.tables, k, h, id, Asking(), passphrase, env);
    assert v1.At(1) == w.At(1);
    var two := RunsExec(v1, k, 1, AddPolicy(Closed()), passphrase, env);
    var v2 := Run(v1, two);
    assert v2.At(0) == v1.At(0);
    PolicySaved(v1.tables, h, k, Closed(), passphrase, env);
    ClosedFound(v2.tables, t);
    NamedById(w.tables, k, id);
    var three := RunsAlone(v2, 0, 3);
    RenewalStored(v2.tables, k, h, Asking(), t, Closed(), env, id);
    RunJoins(w, one, two);
    RunJoins(w, one + two, three);
    events := one + two + three;
  }

  lemma NamedById(s: Tables, k: KeyHierarchy, id: string)
    requires TablesOk(s, k) && id in s.tickets
    ensures s.tickets[id].body.ticketId == id
  {
    hide TicketOk;
  }

  lemma ClosedFound(s: Tables, t: SecretAccessTicket)
    requires s.policies == map["p" := Open()]["p" := Closed()] && t.body.policyId == "p"
    ensures ActivePolicy(s, t) == Some(Closed())
  {
    ListingMembers(s.policies);
    hide Listing;
    assert s.policies["p"] == Closed();
    assert Closed() in s.policies.Values;
    Brokered.StoredIsFound(s, Closed());
  }

  /** From any new vault some interleaved run renews a ticket, between whose checks and whose plan the
      policy is replaced, into one that no request was ever granted: its policy grants none. */
  lemma ProvenanceCanBeLost(h: VaultHeader, k: KeyHierarchy, env: Env, details: map<string, Audit.Json>)
    requires HeaderOk(h, k)
    ensures exists events, id ::
              var tickets := Run(Interleaving.Opened(h, k, env, details), events).tables.tickets;
              id in tickets && forall g: Grant :: !ComesFrom(tickets[id].body, g)
  {
    hide TablesOk, HeaderOk, Represents, Unlock, Run, Ready, ComesFrom, PolicyHash;
    var w := Interleaving.Opened(h, k, env, details);
    CreatedOk(h, k, env, details);
    CreatedRepresents(h, k, env, details);
    assert w.tables.policies == map[];
    assert Free(w, 0) && Free(w, 1);
    var passphrase := CanUnlock(h, k);
    hide Created, Free;
    var one, first := ReachesReady(w, h, k, passphrase);
    var two, renewed := Overtakes(Run(w, one), h, k, passphrase, first);
    RunJoins(w, one, two);
    NeverGranted(Run(w, one + two).tables.tickets[renewed].body);
  }

  lemma NeverGranted(b: TicketBody)
    requires b.policyHash == PolicyHash(Closed())
    ensures forall g: Grant :: !ComesFrom(b, g)
  {
    OpenGrants();
    hide Grants, SameContext;
  }
}
