/** The broker's `checkout` and `materialize` against the vault: what an unlocked session gets. */
module Brokered {
  import opened Wrappers
  import opened Keys
  import opened Envelope
  import opened Policy
  import opened Tickets
  import opened Ordering
  import opened Store
  import opened Operations
  import opened Invariants
  import opened Soundness
  import opened Provenance
  import opened Outcomes
  import Broker

  datatype Answer = NotUnlocked | Failed(error: VaultError) | Given(reply: Reply)

  /** The request as the broker completes it from its session. */
  function AccessRequestOf(s: Broker.Session, q: AccessRequest): AccessRequest
  {
    q.(mfaVerified := s.mfaVerified, brokerSessionId := s.sessionId)
  }

  function PassphraseOf(s: Broker.Session): Option<string>
  {
    Some(if s.passphrase.Some? then s.passphrase.value else "")
  }

  function AnswerOf(outcome: Outcome): Answer
  {
    match outcome
    case Ok(reply) => Given(reply)
    case Err(e) => Failed(e)
  }

  /** What the vault does for `materialize`: it issues a ticket and consumes it at once. */
  ghost function Materialized(t: Tables, q: AccessRequest, passphrase: Option<string>, issuing: Env, consuming: Env)
    : (Tables, Outcome)
  {
    var (t', issued) := Exec(t, IssueTicket(q), passphrase, issuing);
    if issued.Err? || !issued.value.TicketOf? then (t', issued)
    else Exec(t', ConsumeTicket(issued.value.ticket.body.ticketId, q), passphrase, consuming)
  }

  /** The session after idle checks, if it is still unlocked. */
  function Checked(s: Broker.Session, timeout: int, times: Broker.Times): Broker.Session
  {
    Broker.AfterIdle(Broker.AfterIdle(s, timeout, times.accepted), timeout, times.checked)
  }

  ghost function Materialize(s: Broker.Session, timeout: int, t: Tables, q: AccessRequest, times: Broker.Times,
                             issuing: Env, consuming: Env): (Broker.Session, Tables, Answer)
  {
    var c := Checked(s, timeout, times);
    if !c.unlocked then (c, t, NotUnlocked)
    else
      var (t', outcome) := Materialized(t, AccessRequestOf(c, q), PassphraseOf(c), issuing, consuming);
      (if outcome.Ok? then Broker.Marked(c, times.done) else c, t', AnswerOf(outcome))
  }

  /** `checkout` never asks for raw export. */
  ghost function Checkout(s: Broker.Session, timeout: int, t: Tables, q: AccessRequest, times: Broker.Times, issuing: Env)
    : (Broker.Session, Tables, Answer)
  {
    var c := Checked(s, timeout, times);
    if !c.unlocked then (c, t, NotUnlocked)
    else
      var bounded := AccessRequestOf(c, q).(rawExportRequested := false);
      var (t', outcome) := Exec(t, IssueTicket(bounded), PassphraseOf(c), issuing);
      (if outcome.Ok? then Broker.Marked(c, times.done) else c, t', AnswerOf(outcome))
  }

  /** The session changes as for any access. */
  lemma AccessSession(s: Broker.Session, timeout: int, t: Tables, q: AccessRequest, times: Broker.Times, issuing: Env,
                      consuming: Env, answers: Broker.Answers, newId: string)
    ensures var (s', _, answer) := Materialize(s, timeout, t, q, times, issuing, consuming);
            answers.succeeds == answer.Given? ==>
              s' == Broker.Handle(s, timeout, Broker.Access, times, answers, newId).0
    ensures var (s', _, answer) := Checkout(s, timeout, t, q, times, issuing);
            answers.succeeds == answer.Given? ==>
              s' == Broker.Handle(s, timeout, Broker.Access, times, answers, newId).0
  {
    hide Materialized, Exec;
  }

  // ---- A ticket issued and consumed at once ----

  lemma IssuedIs(h: VaultHeader, k: KeyHierarchy, env: Env, q: AccessRequest, r: SecretRecord, policies: seq<AccessPolicy>)
    ensures var outcome := IssuePlan(h, k, env, q, r, policies).outcome;
            var p := Evaluate(policies, q).policy;
            && (outcome.Ok? <==> p.Some?)
            && (p.Some? ==>
                  && p.value in policies
                  && outcome == Ok(TicketOf(Manager(k).Issue(
                       env.freshId, h.vaultId, r.secretId, r.secretVersion, q, p.value, PolicyHash(p.value),
                       q.brokerSessionId))))
  {
    EvaluateExact(policies, q);
    hide Evaluate, Grants, UtcMillis, SignedSeconds, DeliveryModeString, PolicyHash;
  }

  lemma {:induction false} FindPolicyFinds(policies: seq<AccessPolicy>, p: AccessPolicy)
    requires p in policies && forall q <- policies :: q.policyId == p.policyId ==> q == p
    ensures FindPolicy(policies, p.policyId) == Some(p)
  {
    assert policies[0] in policies;
    if policies[0].policyId != p.policyId {
      assert policies == [policies[0]] + policies[1..];
      assert forall q <- policies[1..] :: q in policies;
      FindPolicyFinds(policies[1..], p);
    }
  }

  lemma StoredIsFound(s: Tables, p: AccessPolicy)
    requires PoliciesOk(s.policies) && p in Listing(s.policies)
    ensures FindPolicy(Listing(s.policies), p.policyId) == Some(p)
  {
    ListingMembers(s.policies);
    hide Listing;
    forall q <- Listing(s.policies) ensures q.policyId == p.policyId ==> q == p {
      assert q in s.policies.Values && p in s.policies.Values;
    }
    FindPolicyFinds(Listing(s.policies), p);
  }

  /** The lifetime of a ticket ends, in nanoseconds, at the last whole millisecond. */
  function EndOfLife(q: AccessRequest, p: AccessPolicy): int
  {
    var end := q.now + SignedSeconds(p.maxTicketTtlSeconds) * 1_000_000_000;
    end - end % 1_000_000
  }

  /** A ticket just issued passes all checks for its own request exactly if it may be used at all and
      its lifetime has not ended yet. */
  lemma NewTicketChecks(s: Tables, k: KeyHierarchy, t: SecretAccessTicket, id: string, h: VaultHeader, r: SecretRecord,
                        q: AccessRequest, p: AccessPolicy, now: int)
    requires PoliciesOk(s.policies) && p in Listing(s.policies)
    requires LatestRecord(s.records, q.secretRef) == Some(r) && r.status == Active
    requires t == Manager(k).Issue(id, h.vaultId, r.secretId, r.secretVersion, q, p, PolicyHash(p), q.brokerSessionId)
    requires id in s.tickets && s.tickets[id] == t
    ensures CheckedTicket(s, k, id, q, now).Ok? <==> p.maxUses >= 1 && now <= EndOfLife(q, p)
  {
    hide PoliciesOk, Listing, LatestRecord, FindPolicy, PolicyHash, ValidateCheck, CheckedTicket, SameContext, SessionMatches,
         EndOfLife, PolicyCheck, CurrencyCheck;
    StoredIsFound(s, p);
    SelfContext(t, q, k, id, h, r, p);
    NewTicketValid(k, t, id, h, r, q, p, now);
    NewTicketCurrent(s, k, t, p, r);
    CheckedIfValid(s, k, id, q, now);
  }

  lemma NewTicketValid(k: KeyHierarchy, t: SecretAccessTicket, id: string, h: VaultHeader, r: SecretRecord,
                       q: AccessRequest, p: AccessPolicy, now: int)
    requires t == Manager(k).Issue(id, h.vaultId, r.secretId, r.secretVersion, q, p, PolicyHash(p), q.brokerSessionId)
    ensures Manager(k).Validate(t, q, now).Ok? <==> p.maxUses >= 1 && now <= EndOfLife(q, p)
  {
    hide PolicyHash, SameContext, SessionMatches, SignedSeconds, UtcMillis, ParseStamp;
    IssuedUsable(Manager(k), id, h.vaultId, r.secretId, r.secretVersion, q, p, q.brokerSessionId, q, now);
    SelfContext(t, q, k, id, h, r, p);
  }

  /** With its policy and version in order a ticket passes its checks if it validates. */
  lemma CheckedIfValid(s: Tables, k: KeyHierarchy, id: string, q: AccessRequest, now: int)
    requires id in s.tickets
    requires var t := s.tickets[id];
             PolicyCheck(k, t, ActivePolicy(s, t)).Ok? && CurrencyCheck(t, LatestRecord(s.records, t.body.secretRef)).Ok?
    ensures CheckedTicket(s, k, id, q, now).Ok? <==> Manager(k).Validate(s.tickets[id], q, now).Ok?
  {
    hide LatestRecord, ActivePolicy, PolicyCheck, CurrencyCheck;
  }

  lemma SelfContext(t: SecretAccessTicket, q: AccessRequest, k: KeyHierarchy, id: string, h: VaultHeader, r: SecretRecord,
                    p: AccessPolicy)
    requires t == Manager(k).Issue(id, h.vaultId, r.secretId, r.secretVersion, q, p, PolicyHash(p), q.brokerSessionId)
    ensures SameContext(t.body, q) && SessionMatches(t.body.brokerSessionId, q.brokerSessionId)
    ensures t.body.policyId == p.policyId && t.body.policyHash == PolicyHash(p)
    ensures t.body.secretRef == q.secretRef && t.body.secretVersion == r.secretVersion
  {
    hide UtcMillis, SignedSeconds, PolicyHash;
  }

  lemma NewTicketCurrent(s: Tables, k: KeyHierarchy, t: SecretAccessTicket, p: AccessPolicy, r: SecretRecord)
    requires FindPolicy(Listing(s.policies), p.policyId) == Some(p)
    requires t.body.policyId == p.policyId && t.body.policyHash == PolicyHash(p)
    requires LatestRecord(s.records, t.body.secretRef) == Some(r) && r.status == Active
    requires t.body.secretVersion == r.secretVersion
    ensures PolicyCheck(k, t, ActivePolicy(s, t)).Ok? && CurrencyCheck(t, LatestRecord(s.records, t.body.secretRef)).Ok?
  {
    hide Listing, LatestRecord, FindPolicy, PolicyHash;
  }

  /** Whether the request may have the secret, and how: the policy that grants it first. */
  ghost predicate Obtains(t: Tables, q: AccessRequest, passphrase: Option<string>, now: int)
  {
    && (q.rawExportRequested ==>
          ExportCheck(Lookup(t.metadata, PLAINTEXT_EXPORT_CONFIG_KEY), LatestRecord(t.records, TOTP_SECRET_REF),
                      q.mfaVerified).Ok?)
    && Unlock(t.header, passphrase).Ok?
    && LatestRecord(t.records, q.secretRef).Some? && LatestRecord(t.records, q.secretRef).value.status == Active
    && var p := Evaluate(Listing(t.policies), q).policy;
       p.Some? && p.value.maxUses >= 1 && now <= EndOfLife(q, p.value)
  }

  /** The vault gives a secret to a request issued and consumed at once exactly if the policy that
      first grants it allows a use within its lifetime; then it gives what `get` gives, spends one
      use of the new ticket and writes no other row. */
  lemma MaterializedExact(t: Tables, k: KeyHierarchy, q: AccessRequest, passphrase: Option<string>, issuing: Env,
                          consuming: Env)
    requires TablesOk(t, k) && FreshEnv(t, issuing)
    requires FreshEnv(Exec(t, IssueTicket(q), passphrase, issuing).0, consuming)
    ensures var (t', outcome) := Materialized(t, q, passphrase, issuing, consuming);
            && (outcome.Ok? <==> Obtains(t, q, passphrase, consuming.now))
            && (outcome.Ok? ==> outcome == Exec(t, Get(q.secretRef), passphrase, consuming).1 && OnlyTickets(t, t'))
            && (outcome.Ok? ==> issuing.freshId in t'.tickets
                                && t'.tickets[issuing.freshId].body.usesRemaining + 1 == t'.tickets[issuing.freshId].body.maxUses)
  {
    hide TablesOk, FreshEnv, Exec, Listing, LatestRecord, Evaluate, Grants, ComesFrom, LoggedOnce, Unlock, ExportCheck,
         OnlyTickets, EndOfLife, CheckedTicket, Precheck, LatestVersion, Used;
    var (t1, issued) := Exec(t, IssueTicket(q), passphrase, issuing);
    IssueExact(t, k, q, passphrase, issuing);
    ExecKeeps(t, k, IssueTicket(q), passphrase, issuing);
    IssuedTicket(t, k, q, passphrase, issuing);
    if issued.Ok? {
      SameButTickets(t, t1);
      ConsumeNew(t, t1, k, q, passphrase, issued.value.ticket, issuing.freshId, consuming);
    }
  }

  lemma SameButTickets(a: Tables, b: Tables)
    requires OnlyTickets(a, b)
    ensures b.header == a.header && b.metadata == a.metadata && b.records == a.records && b.policies == a.policies
  {
  }

  lemma IssuedTicket(t: Tables, k: KeyHierarchy, q: AccessRequest, passphrase: Option<string>, env: Env)
    requires TablesOk(t, k)
    ensures var outcome := Exec(t, IssueTicket(q), passphrase, env).1;
            var latest, p := LatestRecord(t.records, q.secretRef), Evaluate(Listing(t.policies), q).policy;
            && (outcome.Ok? <==> Unlock(t.header, passphrase).Ok? && latest.Some? && latest.value.status == Active && p.Some?)
            && (outcome.Ok? ==>
                  && p.value in Listing(t.policies)
                  && outcome == Ok(TicketOf(Manager(k).Issue(
                       env.freshId, Unlock(t.header, passphrase).value.0.vaultId, latest.value.secretId,
                       latest.value.secretVersion, q, p.value, PolicyHash(p.value), q.brokerSessionId))))
  {
    hide TablesOk, Exec, Listing, LatestRecord, Evaluate, Unlock, IssuePlan, HeaderOk, PolicyHash, DoAll;
    UnlockHeld(t, k, passphrase);
    var unlocked := Unlock(t.header, passphrase);
    if unlocked.Err? {
      ExecRefuses(t, IssueTicket(q), passphrase, env);
    } else {
      var h := unlocked.value.0;
      ExecIs(t, h, k, IssueTicket(q), passphrase, env);
      var latest := LatestRecord(t.records, q.secretRef);
      if latest.Some? {
        IssuedIs(h, k, env, q, latest.value, Listing(t.policies));
      }
    }
  }

  lemma ConsumeNew(t: Tables, t1: Tables, k: KeyHierarchy, q: AccessRequest, passphrase: Option<string>,
                   ticket: SecretAccessTicket, id: string, env: Env)
    requires TablesOk(t, k) && TablesOk(t1, k) && FreshEnv(t1, env) && OnlyTickets(t, t1)
    requires t1.tickets == t.tickets[id := ticket] && ticket.body.ticketId == id
    requires Unlock(t.header, passphrase).Ok?
    requires var latest, p := LatestRecord(t.records, q.secretRef), Evaluate(Listing(t.policies), q).policy;
             && latest.Some? && latest.value.status == Active && p.Some? && p.value in Listing(t.policies)
             && ticket == Manager(k).Issue(id, Unlock(t.header, passphrase).value.0.vaultId, latest.value.secretId,
                                           latest.value.secretVersion, q, p.value, PolicyHash(p.value), q.brokerSessionId)
    ensures var (t', outcome) := Exec(t1, ConsumeTicket(id, q), passphrase, env);
            && (outcome.Ok? <==> Obtains(t, q, passphrase, env.now))
            && (outcome.Ok? ==> outcome == Exec(t, Get(q.secretRef), passphrase, env).1 && OnlyTickets(t, t'))
            && (outcome.Ok? ==> id in t'.tickets && t'.tickets[id].body.usesRemaining + 1 == t'.tickets[id].body.maxUses)
  {
    var latest, p := LatestRecord(t.records, q.secretRef).value, Evaluate(Listing(t.policies), q).policy.value;
    hide TablesOk, FreshEnv, Exec, Listing, LatestRecord, Evaluate, Unlock, ExportCheck, EndOfLife, CheckedTicket,
         LatestVersion, PolicyHash, OnlyTickets, PoliciesOk;
    PoliciesSound(t1, k);
    SameButTickets(t, t1);
    NewTicketChecks(t1, k, ticket, id, Unlock(t.header, passphrase).value.0, latest, q, p, env.now);
    ConsumeGets(t1, k, q, passphrase, ticket, id, env);
    SameGet(t, t1, k, q.secretRef, passphrase, env);
    OnlyTicketsTwice(t, t1, Exec(t1, ConsumeTicket(id, q), passphrase, env).0);
  }

  lemma OnlyTicketsTwice(a: Tables, b: Tables, c: Tables)
    ensures OnlyTickets(a, b) && OnlyTickets(b, c) ==> OnlyTickets(a, c)
  {
  }

  /** Consuming a ticket with all its uses left, in terms of its checks. */
  lemma ConsumeGets(s: Tables, k: KeyHierarchy, q: AccessRequest, passphrase: Option<string>, ticket: SecretAccessTicket,
                    id: string, env: Env)
    requires TablesOk(s, k) && FreshEnv(s, env)
    requires id in s.tickets && s.tickets[id] == ticket && ticket.body.secretRef == q.secretRef
    requires ticket.body.usesRemaining == ticket.body.maxUses
    ensures var (t', outcome) := Exec(s, ConsumeTicket(id, q), passphrase, env);
            && (outcome.Ok? <==>
                  && (q.rawExportRequested ==>
                        ExportCheck(Lookup(s.metadata, PLAINTEXT_EXPORT_CONFIG_KEY),
                                    LatestRecord(s.records, TOTP_SECRET_REF), q.mfaVerified).Ok?)
                  && Unlock(s.header, passphrase).Ok?
                  && CheckedTicket(s, k, id, q, env.now).Ok?)
            && (outcome.Ok? ==> outcome == Exec(s, Get(q.secretRef), passphrase, env).1 && OnlyTickets(s, t'))
            && (outcome.Ok? ==> id in t'.tickets && t'.tickets[id].body.usesRemaining + 1 == t'.tickets[id].body.maxUses)
  {
    hide TablesOk, FreshEnv, Exec, Listing, LatestRecord, Evaluate, Unlock, ExportCheck, CheckedTicket,
         LatestVersion, LoggedOnce, PolicyHash, OnlyTickets;
    ConsumeIsGet(s, k, id, q, passphrase, env);
    ConsumeIsLogged(s, k, id, q, passphrase, env);
    NewUses(ticket, k);
    hide Used;
  }

  lemma PoliciesSound(s: Tables, k: KeyHierarchy)
    requires TablesOk(s, k)
    ensures PoliciesOk(s.policies)
  {
  }

  lemma NewUses(ticket: SecretAccessTicket, k: KeyHierarchy)
    ensures ticket.body.usesRemaining >= 1 ==>
              Used(k, ticket).body.usesRemaining + 1 == ticket.body.usesRemaining
              && Used(k, ticket).body.maxUses == ticket.body.maxUses
  {
  }

  lemma SameGet(a: Tables, b: Tables, k: KeyHierarchy, secretRef: string, passphrase: Option<string>, env: Env)
    requires TablesOk(a, k) && TablesOk(b, k) && b.header == a.header && b.records == a.records
    ensures Exec(a, Get(secretRef), passphrase, env).1 == Exec(b, Get(secretRef), passphrase, env).1
  {
    hide TablesOk, Unlock, DoAll, GetPlan, LatestRecord, Exec, HeaderOk;
    UnlockHeld(a, k, passphrase);
    var unlocked := Unlock(a.header, passphrase);
    if unlocked.Err? {
      ExecRefuses(a, Get(secretRef), passphrase, env);
      ExecRefuses(b, Get(secretRef), passphrase, env);
    } else {
      var h := unlocked.value.0;
      ExecIs(a, h, k, Get(secretRef), passphrase, env);
      ExecIs(b, h, k, Get(secretRef), passphrase, env);
    }
  }

  /** `materialize` gives out a secret exactly in an unlocked session that has not idled out, when the
      vault grants the request with that session's id and MFA standing. */
  lemma MaterializeExact(s: Broker.Session, timeout: int, t: Tables, k: KeyHierarchy, q: AccessRequest, times: Broker.Times,
                         issuing: Env, consuming: Env)
    requires TablesOk(t, k) && FreshEnv(t, issuing)
    requires FreshEnv(Exec(t, IssueTicket(AccessRequestOf(s, q)), PassphraseOf(s), issuing).0, consuming)
    ensures var (_, t', answer) := Materialize(s, timeout, t, q, times, issuing, consuming);
            && (answer.Given? <==>
                  && s.unlocked && !Broker.Idle(s, timeout, times.accepted) && !Broker.Idle(s, timeout, times.checked)
                  && Obtains(t, AccessRequestOf(s, q), PassphraseOf(s), consuming.now))
            && (answer.Given? ==>
                  Ok(answer.reply) == Exec(t, Get(q.secretRef), PassphraseOf(s), consuming).1 && OnlyTickets(t, t'))
            && (answer.NotUnlocked? ==> t' == t)
  {
    hide TablesOk, FreshEnv, Exec, Materialized, Obtains, OnlyTickets;
    MaterializedExact(t, k, AccessRequestOf(s, q), PassphraseOf(s), issuing, consuming);
  }
}
