/** `tickets.rs`: secret access tickets. The MAC of a ticket covers all its other fields. */
module Tickets {
  import opened Wrappers
  import opened Keys
  import opened Envelope
  import opened Policy

  datatype TicketBody = TicketBody(
    ticketId: string,
    vaultId: string,
    secretId: string,
    secretRef: string,
    secretVersion: nat,
    consumer: string,
    purpose: string,
    deliveryMode: DeliveryMode,
    httpHost: Option<string>,
    httpScheme: Option<string>,
    httpMethod: Option<string>,
    httpPath: Option<string>,
    httpRequestBodyBytes: Option<nat>,
    osUid: Option<nat>,
    executablePath: Option<string>,
    executableSha256: Option<string>,
    policyId: string,
    policyHash: Digest<AccessPolicy>,
    exportable: bool,
    modelVisible: bool,
    shellVisible: bool,
    brokerSessionId: Option<string>,
    issuedAt: Stamp,
    expiresAt: Stamp,
    maxUses: nat,
    usesRemaining: nat,
    revoked: bool)

  datatype TicketMac = MacOf(key: Key, body: TicketBody) | OtherMac(text: string)

  datatype SecretAccessTicket = SecretAccessTicket(body: TicketBody, mac: TicketMac)

  datatype TicketValidationError =
    | MacMismatch | Revoked | ReplayDenied | Expired
    | SecretContextMismatch | ConsumerContextMismatch | PurposeContextMismatch | DeliveryContextMismatch
    | HttpHostContextMismatch | HttpSchemeContextMismatch | HttpMethodContextMismatch | HttpPathContextMismatch
    | HttpRequestBodyContextMismatch | OsUserContextMismatch | ExecutablePathContextMismatch
    | ExecutableHashContextMismatch | PolicyContextMismatch | BrokerSessionContextMismatch

  function PolicyHash(policy: AccessPolicy): Digest<AccessPolicy>
  {
    Sha256(policy)
  }

  /** `max_ticket_ttl_seconds as i64`. */
  function SignedSeconds(seconds: nat): int
  {
    var word := seconds % 0x1_0000_0000_0000_0000;
    if word < 0x8000_0000_0000_0000 then word else word - 0x1_0000_0000_0000_0000
  }

  predicate SessionMatches(ticketSession: Option<string>, requestSession: Option<string>)
  {
    ticketSession.None? || ticketSession == requestSession
  }

  datatype TicketManager = TicketManager(macKey: Key) {
    function Sealed(body: TicketBody): SecretAccessTicket
    {
      SecretAccessTicket(body, MacOf(macKey, body))
    }

    predicate Authentic(t: SecretAccessTicket)
    {
      t.mac == MacOf(macKey, t.body)
    }

    function Issue(ticketId: string, vaultId: string, secretId: string, secretVersion: nat, q: AccessRequest,
                   policy: AccessPolicy, policyHash: Digest<AccessPolicy>, brokerSessionId: Option<string>)
      : SecretAccessTicket
    {
      Sealed(TicketBody(
        ticketId, vaultId, secretId, q.secretRef, secretVersion, q.consumer, q.purpose, q.deliveryMode,
        q.httpHost, q.httpScheme, q.httpMethod, q.httpPath, q.httpRequestBodyBytes,
        q.osUid, q.executablePath, q.executableSha256,
        policy.policyId, policyHash, policy.exportable, false,
        q.deliveryMode.ChildEnv? || q.deliveryMode.TerminalPrint? || q.deliveryMode.Raw?,
        brokerSessionId,
        UtcMillis(q.now), UtcMillis(q.now + SignedSeconds(policy.maxTicketTtlSeconds) * 1_000_000_000),
        policy.maxUses, policy.maxUses, false))
    }

    function Validate(t: SecretAccessTicket, q: AccessRequest, now: int): Result<(), TicketValidationError>
    {
      var b := t.body;
      if !Authentic(t) then Err(MacMismatch)
      else if b.revoked then Err(Revoked)
      else if b.usesRemaining < 1 then Err(ReplayDenied)
      else if ParseStamp(b.expiresAt).None? || now > ParseStamp(b.expiresAt).value then Err(Expired)
      else if b.secretRef != q.secretRef then Err(SecretContextMismatch)
      else if !SessionMatches(b.brokerSessionId, q.brokerSessionId) then Err(BrokerSessionContextMismatch)
      else if b.consumer != q.consumer then Err(ConsumerContextMismatch)
      else if b.purpose != q.purpose then Err(PurposeContextMismatch)
      else if b.deliveryMode != q.deliveryMode then Err(DeliveryContextMismatch)
      else if b.httpHost != q.httpHost then Err(HttpHostContextMismatch)
      else if b.httpScheme != q.httpScheme then Err(HttpSchemeContextMismatch)
      else if b.httpMethod != q.httpMethod then Err(HttpMethodContextMismatch)
      else if b.httpPath != q.httpPath then Err(HttpPathContextMismatch)
      else if b.httpRequestBodyBytes != q.httpRequestBodyBytes then Err(HttpRequestBodyContextMismatch)
      else if b.osUid != q.osUid then Err(OsUserContextMismatch)
      else if b.executablePath != q.executablePath then Err(ExecutablePathContextMismatch)
      else if b.executableSha256 != q.executableSha256 then Err(ExecutableHashContextMismatch)
      else Ok(())
    }

    function ValidatePolicy(t: SecretAccessTicket, policy: AccessPolicy, currentHash: Digest<AccessPolicy>)
      : Result<(), TicketValidationError>
    {
      if t.body.policyId != policy.policyId || t.body.policyHash != currentHash then Err(PolicyContextMismatch)
      else Ok(())
    }

    function Consume(t: SecretAccessTicket, q: AccessRequest, now: int): Result<SecretAccessTicket, TicketValidationError>
    {
      match Validate(t, q, now)
      case Err(e) => Err(e)
      case Ok(_) => Ok(Sealed(t.body.(usesRemaining := t.body.usesRemaining - 1)))
    }

    function Revoke(t: SecretAccessTicket): Result<SecretAccessTicket, TicketValidationError>
    {
      if !Authentic(t) then Err(MacMismatch) else Ok(Sealed(t.body.(revoked := true)))
    }
  }

  /** The ticket's context is the request's: what consuming re-checks. */
  ghost predicate SameContext(b: TicketBody, q: AccessRequest)
  {
    && b.secretRef == q.secretRef && b.consumer == q.consumer && b.purpose == q.purpose
    && b.deliveryMode == q.deliveryMode
    && b.httpHost == q.httpHost && b.httpScheme == q.httpScheme && b.httpMethod == q.httpMethod
    && b.httpPath == q.httpPath && b.httpRequestBodyBytes == q.httpRequestBodyBytes
    && b.osUid == q.osUid && b.executablePath == q.executablePath && b.executableSha256 == q.executableSha256
  }

  /** What never changes in a ticket's life. */
  function Core(b: TicketBody): TicketBody
  {
    b.(usesRemaining := 0, revoked := false)
  }

  /** A ticket validates for a request exactly when its MAC holds, it is unrevoked, unspent and
      unexpired, and context and session agree. Assurance, MFA, raw export and the request's own
      time are not compared. */
  lemma ValidateExact(m: TicketManager, t: SecretAccessTicket, q: AccessRequest, now: int)
    ensures m.Validate(t, q, now).Ok? <==>
            && m.Authentic(t) && !t.body.revoked && t.body.usesRemaining >= 1
            && ParseStamp(t.body.expiresAt).Some? && now <= ParseStamp(t.body.expiresAt).value
            && SessionMatches(t.body.brokerSessionId, q.brokerSessionId) && SameContext(t.body, q)
  {
    hide ParseStamp, SessionMatches;
  }

  /** When a ticket just issued can be used: for its own context and session, until its lifetime
      ends, rounded down to the millisecond; a lifetime of 2^63 seconds or more counts as negative. */
  lemma IssuedUsable(m: TicketManager, ticketId: string, vaultId: string, secretId: string, secretVersion: nat,
                     q: AccessRequest, policy: AccessPolicy, session: Option<string>, r: AccessRequest, now: int)
    ensures var t := m.Issue(ticketId, vaultId, secretId, secretVersion, q, policy, PolicyHash(policy), session);
            var end := q.now + SignedSeconds(policy.maxTicketTtlSeconds) * 1_000_000_000;
            && (m.Validate(t, r, now).Ok? <==>
                  policy.maxUses >= 1 && now <= end - end % 1_000_000 && SessionMatches(session, r.brokerSessionId)
                  && SameContext(t.body, r))
            && m.ValidatePolicy(t, policy, PolicyHash(policy)).Ok?
            && forall p :: m.ValidatePolicy(t, p, PolicyHash(p)).Ok? ==> p == policy
  {
    var t := m.Issue(ticketId, vaultId, secretId, secretVersion, q, policy, PolicyHash(policy), session);
    ValidateExact(m, t, r, now);
    hide SignedSeconds, SessionMatches, SameContext;
    var end := q.now + SignedSeconds(policy.maxTicketTtlSeconds) * 1_000_000_000;
    assert ParseStamp(t.body.expiresAt) == Some(end / 1_000_000 * 1_000_000);
    assert end / 1_000_000 * 1_000_000 == end - end % 1_000_000;
  }
}
