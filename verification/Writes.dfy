/** Which kinds of rows each operation writes, whatever it read. */
module Writes {
  import opened Wrappers
  import opened Keys
  import opened Envelope
  import opened Policy
  import opened Tickets
  import opened Rotation
  import opened Ordering
  import opened Store
  import opened Operations

  datatype Kind =
    | HeaderRow | MetadataRow | RecordRow | FingerprintRow | PolicyRow | TicketRow | TicketSwap | JobRow | EventRow

  function KindOf(e: Effect): Kind
  {
    match e
    case SaveHeader(_) => HeaderRow
    case SaveMetadata(_, _) => MetadataRow
    case SaveRecord(_) => RecordRow
    case SaveFingerprint(_, _, _) => FingerprintRow
    case SavePolicy(_) => PolicyRow
    case SaveTicket(_) => TicketRow
    case SwapTicket(_, _) => TicketSwap
    case SaveJob(_) => JobRow
    case AppendAudit(_, _) => EventRow
  }

  predicate Within(es: seq<Effect>, kinds: set<Kind>)
  {
    forall i :: 0 <= i < |es| ==> KindOf(es[i]) in kinds
  }

  /** What the operation may write. */
  function Writable(op: Op): set<Kind>
  {
    match op
    case Put(_, _, _) => {RecordRow, FingerprintRow, EventRow}
    case EnrollTotp(_, _) => {RecordRow, EventRow}
    case Disable(_) => {RecordRow, EventRow}
    case Destroy(_) => {RecordRow, EventRow}
    case AddPolicy(_) => {PolicyRow, EventRow}
    case IssueTicket(_) => {TicketRow, EventRow}
    case RenewTicket(_, _) => {TicketRow, EventRow}
    case ConsumeTicket(_, _) => {TicketSwap, EventRow}
    case RevokeTicket(_) => {TicketRow, EventRow}
    case RevokeAllTickets(_) => {TicketRow, EventRow}
    case StartRotation(_, _, _) => {JobRow, EventRow}
    case VerifyRotation(_) => {JobRow, EventRow}
    case PromoteRotation(_) => {RecordRow, FingerprintRow, JobRow, EventRow}
    case RollbackRotation(_) => {JobRow, EventRow}
    case RewrapProvider(_, _, _) => {HeaderRow, EventRow}
    case SetPlaintextExport(_, _) => {MetadataRow, EventRow}
    case Get(_) => {EventRow}
    case ValidateTicket(_, _) => {}
    case VerifyAudit => {}
  }

  lemma NoneWithin(kinds: set<Kind>)
    ensures Within([], kinds)
  {
  }

  // ---- Plan by plan ----

  lemma SecretPlansWithin(h: VaultHeader, k: KeyHierarchy, env: Env, secretRef: string, value: seq<byte>,
                          secretType: SecretType, details: map<string, Audit.Json>, latest: Option<nat>)
    ensures Within(PutPlan(h, k, env, secretRef, value, secretType, latest).effects, {RecordRow, FingerprintRow, EventRow})
    ensures Within(EnrollPlan(h, k, env, value, details, latest).effects, {RecordRow, EventRow})
    ensures Within(StartPlan(h, k, env, secretRef, value, secretType, latest).effects, {JobRow, EventRow})
  {
    hide EncryptAt, SecretIdFromRef, Next;
  }

  lemma RecordPlansWithin(h: VaultHeader, k: KeyHierarchy, env: Env, secretRef: string, latest: Option<SecretRecord>,
                          status: SecretStatus, eventType: string, severity: string)
    ensures Within(GetPlan(h, k, env, secretRef, latest).effects, {EventRow})
    ensures Within(StatusPlan(h, k, env, secretRef, latest, status, eventType, severity).effects, {RecordRow, EventRow})
  {
    hide DecryptSecret, StatusString;
  }

  lemma JobPlansWithin(h: VaultHeader, k: KeyHierarchy, env: Env, id: string, found: Option<RotationJob>)
    ensures Within(VerifyPlan(h, k, env, id, found).effects, {JobRow, EventRow})
    ensures Within(PromotePlan(h, k, env, id, found).effects, {RecordRow, FingerprintRow, JobRow, EventRow})
    ensures Within(RollbackPlan(h, k, env, id, found).effects, {JobRow, EventRow})
  {
    hide DecryptSecret;
  }

  lemma IssueWithin(h: VaultHeader, k: KeyHierarchy, env: Env, q: AccessRequest, r: SecretRecord, policies: seq<AccessPolicy>)
    ensures Within(IssuePlan(h, k, env, q, r, policies).effects, {TicketRow, EventRow})
  {
    hide Evaluate, DeliveryModeString, UtcMillis, SignedSeconds;
  }

  lemma RenewWithin(h: VaultHeader, k: KeyHierarchy, env: Env, t: SecretAccessTicket, q: AccessRequest,
                    active: Option<AccessPolicy>)
    ensures Within(RenewPlan(h, k, env, t, q, active).effects, {TicketRow, EventRow})
  {
    hide UtcMillis, SignedSeconds;
  }

  lemma MaterializeWithin(h: VaultHeader, k: KeyHierarchy, env: Env, t: SecretAccessTicket, q: AccessRequest,
                          read: Option<SecretRecord>)
    ensures Within(MaterializePlan(h, k, env, t, q, read).effects, {EventRow})
  {
    hide DecryptSecret, StatusString, DeliveryModeString;
  }

  lemma ConsumeWithin(s: Tables, h: VaultHeader, k: KeyHierarchy, env: Env, ticketId: string, q: AccessRequest)
    ensures Within(ConsumePlan(s, h, k, env, ticketId, q).effects, {TicketSwap, EventRow})
  {
    hide CheckedTicket, MaterializePlan, ReadForTicket, SwapApplies, Used;
    var checked := CheckedTicket(s, k, ticketId, q, env.now);
    if checked.Ok? {
      MaterializeWithin(h, k, env, checked.value, q, ReadForTicket(s.records, checked.value));
    }
  }

  lemma {:induction false} RevokeLoopWithin(k: KeyHierarchy, list: seq<SecretAccessTicket>)
    ensures Within(RevokeLoop(k, list).0, {TicketRow})
  {
    if list != [] {
      RevokeLoopWithin(k, list[1..]);
    }
  }

  lemma RevokeWithin(h: VaultHeader, k: KeyHierarchy, env: Env, id: string, found: Option<SecretAccessTicket>,
                     reason: string, list: seq<SecretAccessTicket>)
    ensures Within(RevokePlan(h, k, env, id, found).effects, {TicketRow, EventRow})
    ensures Within(RevokeAllPlan(h, k, env, reason, list).effects, {TicketRow, EventRow})
  {
    RevokeLoopWithin(k, list);
    hide RevokeLoop;
  }

  lemma AddPolicyWithin(h: VaultHeader, k: KeyHierarchy, env: Env, policy: AccessPolicy)
    ensures Within(AddPolicyPlan(h, k, env, policy).effects, {PolicyRow, EventRow})
  {
  }

  lemma RewrapWithin(h: VaultHeader, k: KeyHierarchy, env: Env, provider: string, newPassphrase: Option<string>,
                     device: string)
    ensures Within(RewrapPlan(h, k, env, provider, newPassphrase, device).effects, {HeaderRow, EventRow})
  {
    hide NewBinding;
  }

  lemma ExportConfigWithin(h: VaultHeader, k: KeyHierarchy, env: Env, enabled: bool, allowWithoutMfa: bool,
                           totp: Option<SecretRecord>)
    ensures Within(ExportConfigPlan(h, k, env, enabled, allowWithoutMfa, totp).effects, {MetadataRow, EventRow})
  {
    hide TotpEnrolled;
  }

  // ---- All operations ----

  predicate OnLatest(op: Op)
  {
    op.Put? || op.EnrollTotp? || op.StartRotation? || op.Get? || op.Disable? || op.Destroy?
  }

  predicate OnTickets(op: Op)
  {
    op.IssueTicket? || op.ValidateTicket? || op.RenewTicket? || op.ConsumeTicket? || op.RevokeTicket? || op.RevokeAllTickets?
  }

  lemma LatestWithin(s: Tables, h: VaultHeader, k: KeyHierarchy, op: Op, env: Env)
    requires OnLatest(op)
    ensures Within(PlanOf(s, h, k, op, env).effects, Writable(op))
  {
    hide PutPlan, EnrollPlan, StartPlan, GetPlan, StatusPlan, LatestVersion, LatestRecord, Within;
    match op
    case Put(ref, value, secretType) =>
      SecretPlansWithin(h, k, env, ref, value, secretType, map[], LatestVersion(s.records, ref));
    case EnrollTotp(value, details) =>
      SecretPlansWithin(h, k, env, "", value, Token, details, LatestVersion(s.records, TOTP_SECRET_REF));
    case StartRotation(ref, value, secretType) =>
      SecretPlansWithin(h, k, env, ref, value, secretType, map[], LatestVersion(s.records, ref));
    case Get(ref) => RecordPlansWithin(h, k, env, ref, LatestRecord(s.records, ref), Active, "", "");
    case Disable(ref) =>
      RecordPlansWithin(h, k, env, ref, LatestRecord(s.records, ref), Disabled, "secret.disabled", "high");
    case Destroy(ref) =>
      RecordPlansWithin(h, k, env, ref, LatestRecord(s.records, ref), Destroyed, "secret.destroyed", "critical");
  }

  lemma TicketsWithin(s: Tables, h: VaultHeader, k: KeyHierarchy, op: Op, env: Env)
    requires OnTickets(op)
    ensures Within(PlanOf(s, h, k, op, env).effects, Writable(op))
  {
    hide IssuePlan, RenewPlan, ConsumePlan, RevokePlan, RevokeAllPlan, CheckedTicket, LatestRecord, Listing, ActivePolicy,
         Lookup, Within;
    NoneWithin(Writable(op));
    match op
    case IssueTicket(q) =>
      var latest := LatestRecord(s.records, q.secretRef);
      if latest.Some? {
        IssueWithin(h, k, env, q, latest.value, Listing(s.policies));
      }
    case ValidateTicket(_, _) =>
    case RenewTicket(id, q) =>
      var checked := CheckedTicket(s, k, id, q, env.now);
      if checked.Ok? {
        RenewWithin(h, k, env, checked.value, q, ActivePolicy(s, checked.value));
      }
    case ConsumeTicket(id, q) => ConsumeWithin(s, h, k, env, id, q);
    case RevokeTicket(id) => RevokeWithin(h, k, env, id, Lookup(s.tickets, id), "", []);
    case RevokeAllTickets(reason) => RevokeWithin(h, k, env, "", None, reason, Listing(s.tickets));
  }

  lemma OthersWithin(s: Tables, h: VaultHeader, k: KeyHierarchy, op: Op, env: Env)
    requires !OnLatest(op) && !OnTickets(op)
    ensures Within(PlanOf(s, h, k, op, env).effects, Writable(op))
  {
    hide VerifyPlan, PromotePlan, RollbackPlan, AddPolicyPlan, RewrapPlan, ExportConfigPlan, Lookup, LatestRecord,
         Audit.ChainError, Within;
    NoneWithin(Writable(op));
    match op
    case VerifyRotation(id) => JobPlansWithin(h, k, env, id, Lookup(s.jobs, id));
    case PromoteRotation(id) => JobPlansWithin(h, k, env, id, Lookup(s.jobs, id));
    case RollbackRotation(id) => JobPlansWithin(h, k, env, id, Lookup(s.jobs, id));
    case AddPolicy(p) => AddPolicyWithin(h, k, env, p);
    case RewrapProvider(provider, passphrase, device) => RewrapWithin(h, k, env, provider, passphrase, device);
    case SetPlaintextExport(enabled, allow) =>
      ExportConfigWithin(h, k, env, enabled, allow, LatestRecord(s.records, TOTP_SECRET_REF));
    case VerifyAudit =>
  }

  /** Whatever the tables hold, an operation plans only writes of its own kinds. */
  lemma PlanWithin(s: Tables, h: VaultHeader, k: KeyHierarchy, op: Op, env: Env)
    ensures Within(PlanOf(s, h, k, op, env).effects, Writable(op))
  {
    hide PlanOf, Within, Writable;
    if OnLatest(op) {
      LatestWithin(s, h, k, op, env);
    } else if OnTickets(op) {
      TicketsWithin(s, h, k, op, env);
    } else {
      OthersWithin(s, h, k, op, env);
    }
  }
}
