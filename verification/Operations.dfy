/** What each vault operation decides from what it has read: the writes it will make, in
    order, and its reply. Run at once they are the operation (`Exec`); spread over several
    statements they are the steps of a process in a concurrent run (module `Interleaving`). */
module Operations {
  import opened Wrappers
  import opened Keys
  import opened Envelope
  import opened Policy
  import opened Tickets
  import opened Rotation
  import opened Ordering
  import opened Store
  import opened Audit

  const TOTP_SECRET_REF := "secret://hbse/internal/mfa/totp"
  const PLAINTEXT_EXPORT_CONFIG_KEY := "config.plaintext_export"

  /** One operation's clock reading, random choices and new identifiers. */
  datatype Env = Env(now: int, random: Randomness, freshId: string, eventId: string)

  datatype Op =
    | Put(secretRef: string, plaintext: seq<byte>, secretType: SecretType)
    | EnrollTotp(config: seq<byte>, details: map<string, Json>)
    | Get(secretRef: string)
    | Disable(secretRef: string)
    | Destroy(secretRef: string)
    | AddPolicy(policy: AccessPolicy)
    | IssueTicket(request: AccessRequest)
    | ValidateTicket(ticketId: string, request: AccessRequest)
    | RenewTicket(ticketId: string, request: AccessRequest)
    | ConsumeTicket(ticketId: string, request: AccessRequest)
    | RevokeTicket(ticketId: string)
    | RevokeAllTickets(reason: string)
    | StartRotation(secretRef: string, plaintext: seq<byte>, secretType: SecretType)
    | VerifyRotation(jobId: string)
    | PromoteRotation(jobId: string)
    | RollbackRotation(jobId: string)
    | RewrapProvider(provider: string, newPassphrase: Option<string>, device: string)
    | SetPlaintextExport(enabled: bool, allowWithoutMfa: bool)
    | VerifyAudit

  datatype Reply =
    | Version(version: nat)
    | Plaintext(bytes: seq<byte>)
    | Record(record: SecretRecord)
    | PolicyOf(policy: AccessPolicy)
    | TicketOf(ticket: SecretAccessTicket)
    | JobOf(job: RotationJob)
    | Count(count: nat)
    | HeaderOf(header: VaultHeader)
    | Done

  type Outcome = Result<Reply, VaultError>

  datatype Plan = Plan(effects: seq<Effect>, outcome: Outcome)

  function Refuse(e: VaultError): Plan
  {
    Plan([], Err(e))
  }

  function Log(h: VaultHeader, k: KeyHierarchy, env: Env, eventType: string, severity: string, decision: string,
               metadata: map<string, Json>): Effect
  {
    AppendAudit(k.AuditIntegrityKey(),
                Entry(env.eventId, UtcMillis(env.now), h.vaultId, h.namespaceId, eventType, severity, decision, metadata))
  }

  function StatusString(status: SecretStatus): string
  {
    match status
    case Active => "active"
    case Staged => "staged"
    case Disabled => "disabled"
    case Destroyed => "destroyed"
  }

  function DeliveryModeString(mode: DeliveryMode): string
  {
    match mode
    case BrokeredHttp => "brokered_http"
    case BrokeredOperation => "brokered_operation"
    case Callback => "callback"
    case Pipe => "pipe"
    case Fd => "fd"
    case TempFile => "temp_file"
    case ChildEnv => "child_env"
    case Raw => "raw"
    case TerminalPrint => "terminal_print"
  }

  // ---- Unlocking ----

  /** Reads the header and unwraps the root key. */
  function Unlock(header: Option<VaultHeader>, passphrase: Option<string>): Result<(VaultHeader, KeyHierarchy), VaultError>
  {
    match header
    case None => Err(VaultNotInitialized)
    case Some(h) =>
      match h.binding
      case PassphraseBinding(p, root) =>
        if passphrase.None? then Err(PassphraseRequired)
        else if passphrase.value != p then Err(ProviderFailure)
        else Ok((h, KeyHierarchy(h.vaultId, root)))
      case Tpm2Binding(_, root) => Ok((h, KeyHierarchy(h.vaultId, root)))
      case Tpm2EsapiBinding(_, root) => Ok((h, KeyHierarchy(h.vaultId, root)))
      case SystemFingerprintBinding(root) => Ok((h, KeyHierarchy(h.vaultId, root)))
      case OtherBinding(id) => Err(UnsupportedProvider(id))
  }

  function ProviderId(b: ProviderBinding): string
  {
    match b
    case PassphraseBinding(_, _) => "passphrase"
    case Tpm2Binding(_, _) => "tpm2"
    case Tpm2EsapiBinding(_, _) => "tpm2-esapi"
    case SystemFingerprintBinding(_) => "system-fingerprint"
    case OtherBinding(id) => id
  }

  function NewBinding(provider: string, newPassphrase: Option<string>, device: string, root: Key)
    : Result<ProviderBinding, VaultError>
  {
    match provider
    case "passphrase" =>
      if newPassphrase.None? then Err(NewPassphraseRequired) else Ok(PassphraseBinding(newPassphrase.value, root))
    case "tpm2" => Ok(Tpm2Binding(device, root))
    case "tpm2-direct" => Ok(Tpm2EsapiBinding(device, root))
    case "tpm2-esapi" => Ok(Tpm2EsapiBinding(device, root))
    case "system-fingerprint" => Ok(SystemFingerprintBinding(root))
    case _ => Err(UnsupportedProvider(provider))
  }

  // ---- Secrets ----

  /** The truncated digest of the reference, as symbolic text. */
  function SecretIdFromRef(secretRef: string): Option<string>
  {
    if "secret://" <= secretRef then Some("sha256:" + secretRef) else None
  }

  function EncryptAt(h: VaultHeader, k: KeyHierarchy, env: Env, secretId: string, secretRef: string, version: nat,
                     plaintext: seq<byte>, secretType: SecretType): SecretRecord
  {
    EncryptSecret(k, h.namespaceId, secretId, secretRef, version, plaintext, secretType,
                  "default-deny", "mvp-default-deny-policy", Sha256(secretRef), "unbound-provider-policy",
                  env.now, env.random)
  }

  function Next(latest: Option<nat>): nat
  {
    (if latest.None? then 0 else latest.value) + 1
  }

  function PutPlan(h: VaultHeader, k: KeyHierarchy, env: Env, secretRef: string, plaintext: seq<byte>,
                   secretType: SecretType, latest: Option<nat>): Plan
  {
    var version := Next(latest);
    match SecretIdFromRef(secretRef)
    case None => Refuse(InvalidSecretRef)
    case Some(id) =>
      Plan([SaveRecord(EncryptAt(h, k, env, id, secretRef, version, plaintext, secretType)),
            SaveFingerprint(secretRef, version, Fingerprint(k.RedactionFingerprintKey(), plaintext)),
            Log(h, k, env, "secret.stored", "info", "allow",
                map["secret_ref" := JString(secretRef), "secret_version" := JNumber(version)])],
           Ok(Version(version)))
  }

  function EnrollPlan(h: VaultHeader, k: KeyHierarchy, env: Env, config: seq<byte>, details: map<string, Json>,
                      latest: Option<nat>): Plan
  {
    match SecretIdFromRef(TOTP_SECRET_REF)
    case None => Refuse(InvalidSecretRef)
    case Some(id) =>
      Plan([SaveRecord(EncryptAt(h, k, env, id, TOTP_SECRET_REF, Next(latest), config, Token)),
            Log(h, k, env, "mfa.totp_enrolled", "high", "allow", details)],
           Ok(Done))
  }

  function GetPlan(h: VaultHeader, k: KeyHierarchy, env: Env, secretRef: string, latest: Option<SecretRecord>): Plan
  {
    match latest
    case None => Refuse(SecretNotFound(secretRef))
    case Some(r) =>
      if r.status != Active then
        Plan([Log(h, k, env, "secret.access_denied", "high", "deny",
                  map["secret_ref" := JString(secretRef), "secret_version" := JNumber(r.secretVersion),
                      "reason" := JString("secret status is " + StatusString(r.status))])],
             Err(SecretUnavailable(r.status)))
      else
        match DecryptSecret(k, r)
        case Err(e) => Refuse(CryptoFailure(e))
        case Ok(plaintext) =>
          Plan([Log(h, k, env, "secret.materialized", "critical", "allow",
                    map["secret_ref" := JString(secretRef), "secret_version" := JNumber(r.secretVersion)])],
               Ok(Plaintext(plaintext)))
  }

  function StatusPlan(h: VaultHeader, k: KeyHierarchy, env: Env, secretRef: string, latest: Option<SecretRecord>,
                      status: SecretStatus, eventType: string, severity: string): Plan
  {
    match latest
    case None => Refuse(SecretNotFound(secretRef))
    case Some(r) =>
      var updated := r.(status := status);
      Plan([SaveRecord(updated),
            Log(h, k, env, eventType, severity, "allow",
                map["secret_ref" := JString(secretRef), "secret_version" := JNumber(r.secretVersion)])],
           Ok(Record(updated)))
  }

  // ---- Tickets ----

  function Manager(k: KeyHierarchy): TicketManager
  {
    TicketManager(k.TicketMacKey())
  }

  function IssuePlan(h: VaultHeader, k: KeyHierarchy, env: Env, q: AccessRequest, r: SecretRecord,
                     policies: seq<AccessPolicy>): Plan
  {
    var result := Evaluate(policies, q);
    if result.policy.None? then
      Plan([Log(h, k, env, "ticket.issue_denied", "high", "deny",
                map["secret_ref" := JString(q.secretRef), "consumer" := JString(q.consumer),
                    "purpose" := JString(q.purpose), "reason" := JString(result.reason)])],
           Err(PolicyDenied(result.reason)))
    else if result.decision != Allow then
      Plan([Log(h, k, env, "ticket.issue_denied", "high", "deny",
                map["secret_ref" := JString(q.secretRef), "consumer" := JString(q.consumer),
                    "purpose" := JString(q.purpose), "policy_id" := JString(result.policy.value.policyId),
                    "reason" := JString(result.reason)])],
           Err(PolicyDenied(result.reason)))
    else
      var policy := result.policy.value;
      var t := Manager(k).Issue(env.freshId, h.vaultId, r.secretId, r.secretVersion, q, policy, PolicyHash(policy),
                                q.brokerSessionId);
      Plan([SaveTicket(t),
            Log(h, k, env, "ticket.issued", "info", "allow",
                map["secret_ref" := JString(t.body.secretRef), "consumer" := JString(t.body.consumer),
                    "purpose" := JString(t.body.purpose),
                    "delivery_mode" := JString(DeliveryModeString(t.body.deliveryMode)),
                    "ticket_id" := JString(t.body.ticketId), "policy_id" := JString(t.body.policyId)])],
           Ok(TicketOf(t)))
  }

  /** `active_policy_for_ticket` and `validate_policy`. */
  function PolicyCheck(k: KeyHierarchy, t: SecretAccessTicket, active: Option<AccessPolicy>): Result<AccessPolicy, VaultError>
  {
    match active
    case None => Err(TicketPolicyChanged)
    case Some(p) =>
      match Manager(k).ValidatePolicy(t, p, PolicyHash(p))
      case Err(e) => Err(TicketRejected(e))
      case Ok(_) => Ok(p)
  }

  /** `ensure_ticket_secret_is_current`; `latest` is what was read unless the version is 0. */
  function CurrencyCheck(t: SecretAccessTicket, latest: Option<SecretRecord>): Result<(), VaultError>
  {
    if t.body.secretVersion == 0 then Ok(())
    else match latest
      case None => Err(SecretNotFound(t.body.secretRef))
      case Some(r) =>
        if r.secretVersion == t.body.secretVersion && r.status == Active then Ok(()) else Err(TicketSecretVersionStale)
  }

  function ValidateCheck(k: KeyHierarchy, t: SecretAccessTicket, q: AccessRequest, now: int,
                         active: Option<AccessPolicy>, latest: Option<SecretRecord>): Result<AccessPolicy, VaultError>
  {
    match Manager(k).Validate(t, q, now)
    case Err(e) => Err(TicketRejected(e))
    case Ok(_) =>
      match PolicyCheck(k, t, active)
      case Err(e) => Err(e)
      case Ok(p) => match CurrencyCheck(t, latest)
        case Err(e) => Err(e)
        case Ok(_) => Ok(p)
  }

  function RenewPlan(h: VaultHeader, k: KeyHierarchy, env: Env, t: SecretAccessTicket, q: AccessRequest,
                     active: Option<AccessPolicy>): Plan
  {
    match active
    case None => Refuse(TicketPolicyChanged)
    case Some(p) =>
      var renewed := Manager(k).Issue(env.freshId, h.vaultId, t.body.secretId, t.body.secretVersion, q, p, PolicyHash(p),
                                      t.body.brokerSessionId);
      match Manager(k).Revoke(t)
      case Err(e) => Refuse(TicketRejected(e))
      case Ok(revoked) =>
        Plan([SaveTicket(revoked), SaveTicket(renewed),
              Log(h, k, env, "ticket.renewed", "info", "allow",
                  map["old_ticket_id" := JString(t.body.ticketId), "ticket_id" := JString(renewed.body.ticketId),
                      "secret_ref" := JString(renewed.body.secretRef), "policy_id" := JString(renewed.body.policyId)])],
             Ok(TicketOf(renewed)))
  }

  /** What follows the compare-and-swap of a consume, given the record then read. */
  function MaterializePlan(h: VaultHeader, k: KeyHierarchy, env: Env, t: SecretAccessTicket, q: AccessRequest,
                           read: Option<SecretRecord>): Plan
  {
    match read
    case None => Refuse(SecretNotFound(t.body.secretRef))
    case Some(r) =>
      if r.status != Active then
        Plan([Log(h, k, env, "secret.access_denied", "high", "deny",
                  map["secret_ref" := JString(t.body.secretRef), "ticket_id" := JString(t.body.ticketId),
                      "reason" := JString("secret status is " + StatusString(r.status))])],
             Err(SecretUnavailable(r.status)))
      else
        match DecryptSecret(k, r)
        case Err(e) => Refuse(CryptoFailure(e))
        case Ok(plaintext) =>
          Plan([Log(h, k, env, "secret.materialized", if q.rawExportRequested then "critical" else "info", "allow",
                    map["secret_ref" := JString(t.body.secretRef), "ticket_id" := JString(t.body.ticketId),
                        "consumer" := JString(q.consumer), "purpose" := JString(q.purpose),
                        "delivery_mode" := JString(DeliveryModeString(q.deliveryMode))])],
               Ok(Plaintext(plaintext)))
  }

  ghost function ReadForTicket(records: Records, t: SecretAccessTicket): Option<SecretRecord>
  {
    var key := (t.body.secretRef, t.body.secretVersion);
    if t.body.secretVersion == 0 then LatestRecord(records, t.body.secretRef)
    else if key in records then Some(records[key]) else None
  }

  function RevokePlan(h: VaultHeader, k: KeyHierarchy, env: Env, ticketId: string, found: Option<SecretAccessTicket>): Plan
  {
    match found
    case None => Refuse(TicketNotFound)
    case Some(t) =>
      match Manager(k).Revoke(t)
      case Err(e) => Refuse(TicketRejected(e))
      case Ok(revoked) =>
        Plan([SaveTicket(revoked),
              Log(h, k, env, "ticket.revoked", "high", "allow",
                  map["ticket_id" := JString(ticketId), "secret_ref" := JString(t.body.secretRef)])],
             Ok(TicketOf(revoked)))
  }

  /** The writes of the lockdown loop over `list`, up to the first ticket that does not
      authenticate, and the number revoked. */
  function RevokeLoop(k: KeyHierarchy, list: seq<SecretAccessTicket>): (seq<Effect>, Result<nat, VaultError>)
  {
    if list == [] then ([], Ok(0))
    else if list[0].body.revoked then RevokeLoop(k, list[1..])
    else
      match Manager(k).Revoke(list[0])
      case Err(e) => ([], Err(TicketRejected(e)))
      case Ok(revoked) =>
        var (saves, count) := RevokeLoop(k, list[1..]);
        ([SaveTicket(revoked)] + saves, More(1, count))
  }

  function More(n: nat, count: Result<nat, VaultError>): Result<nat, VaultError>
  {
    match count
    case Ok(m) => Ok(n + m)
    case Err(e) => Err(e)
  }

  /** The loop takes the head of the list, then runs on the rest. */
  lemma RevokeLoopStep(s: Tables, k: KeyHierarchy, list: seq<SecretAccessTicket>)
    requires list != []
    ensures list[0].body.revoked ==> RevokeLoop(k, list) == RevokeLoop(k, list[1..])
    ensures !list[0].body.revoked && !Manager(k).Authentic(list[0]) ==>
              DoAll(s, RevokeLoop(k, list).0) == s && RevokeLoop(k, list).1 == Err(TicketRejected(MacMismatch))
    ensures !list[0].body.revoked && Manager(k).Authentic(list[0]) ==>
              var revoked := Barred(k, list[0]);
              && DoAll(s, RevokeLoop(k, list).0) == DoAll(Do(s, SaveTicket(revoked)), RevokeLoop(k, list[1..]).0)
              && RevokeLoop(k, list).1 == More(1, RevokeLoop(k, list[1..]).1)
  {
    var tail := RevokeLoop(k, list[1..]);
    if !list[0].body.revoked && Manager(k).Revoke(list[0]).Ok? {
      var revoked := Manager(k).Revoke(list[0]).value;
      assert ([SaveTicket(revoked)] + tail.0)[1..] == tail.0;
    }
  }

  function RevokeAllPlan(h: VaultHeader, k: KeyHierarchy, env: Env, reason: string, list: seq<SecretAccessTicket>): Plan
  {
    var (saves, count) := RevokeLoop(k, list);
    match count
    case Err(e) => Plan(saves, Err(e))
    case Ok(n) =>
      Plan(saves + [Log(h, k, env, "lockdown.tickets_revoked", "critical", "allow",
                        map["revoked_tickets" := JNumber(n), "reason" := JString(reason)])],
           Ok(Count(n)))
  }

  // ---- Rotation ----

  function StartPlan(h: VaultHeader, k: KeyHierarchy, env: Env, secretRef: string, plaintext: seq<byte>,
                     secretType: SecretType, latest: Option<nat>): Plan
  {
    var version := Next(latest);
    match SecretIdFromRef(secretRef)
    case None => Refuse(InvalidSecretRef)
    case Some(id) =>
      var staged := EncryptAt(h, k, env, id, secretRef, version, plaintext, secretType).(status := Staged);
      var job := CreateJob(env.freshId, h.vaultId, secretRef, version, staged, env.now);
      Plan([SaveJob(job),
            Log(h, k, env, "rotation.started", "info", "allow",
                map["job_id" := JString(job.jobId), "secret_ref" := JString(secretRef),
                    "staged_version" := JNumber(version)])],
           Ok(JobOf(job)))
  }

  function VerifyPlan(h: VaultHeader, k: KeyHierarchy, env: Env, jobId: string, found: Option<RotationJob>): Plan
  {
    match found
    case None => Refuse(RotationJobNotFound)
    case Some(job) =>
      if job.status != StagedJob then Refuse(InvalidRotationState(job.status))
      else
        match DecryptSecret(k, job.stagedRecord)
        case Err(e) => Refuse(CryptoFailure(e))
        case Ok(_) =>
          var verified := Transition(job, Verified, None, env.now);
          Plan([SaveJob(verified),
                Log(h, k, env, "rotation.verified", "info", "allow",
                    map["job_id" := JString(jobId), "secret_ref" := JString(verified.secretRef)])],
               Ok(JobOf(verified)))
  }

  function PromotePlan(h: VaultHeader, k: KeyHierarchy, env: Env, jobId: string, found: Option<RotationJob>): Plan
  {
    match found
    case None => Refuse(RotationJobNotFound)
    case Some(job) =>
      if job.status != Verified then Refuse(InvalidRotationState(job.status))
      else
        match DecryptSecret(k, job.stagedRecord)
        case Err(e) => Refuse(CryptoFailure(e))
        case Ok(plaintext) =>
          var promoted := Transition(job, Promoted, None, env.now);
          Plan([SaveRecord(job.stagedRecord.(status := Active)),
                SaveFingerprint(job.secretRef, job.stagedVersion, Fingerprint(k.RedactionFingerprintKey(), plaintext)),
                SaveJob(promoted),
                Log(h, k, env, "rotation.promoted", "high", "allow",
                    map["job_id" := JString(jobId), "secret_ref" := JString(promoted.secretRef),
                        "version" := JNumber(promoted.stagedVersion)])],
               Ok(JobOf(promoted)))
  }

  function RollbackPlan(h: VaultHeader, k: KeyHierarchy, env: Env, jobId: string, found: Option<RotationJob>): Plan
  {
    match found
    case None => Refuse(RotationJobNotFound)
    case Some(job) =>
      if job.status != StagedJob && job.status != Verified then Refuse(InvalidRotationState(job.status))
      else
        var rolledBack := Transition(job, RolledBack, None, env.now);
        Plan([SaveJob(rolledBack),
              Log(h, k, env, "rotation.rolled_back", "critical", "allow",
                  map["job_id" := JString(jobId), "secret_ref" := JString(rolledBack.secretRef)])],
             Ok(JobOf(rolledBack)))
  }

  // ---- Configuration ----

  function AddPolicyPlan(h: VaultHeader, k: KeyHierarchy, env: Env, policy: AccessPolicy): Plan
  {
    Plan([SavePolicy(policy),
          Log(h, k, env, "policy.saved", "high", "allow", map["policy_id" := JString(policy.policyId)])],
         Ok(PolicyOf(policy)))
  }

  function RewrapPlan(h: VaultHeader, k: KeyHierarchy, env: Env, provider: string, newPassphrase: Option<string>,
                      device: string): Plan
  {
    match NewBinding(provider, newPassphrase, device, k.rootKey)
    case Err(e) => Refuse(e)
    case Ok(binding) =>
      var updated := h.(binding := binding);
      Plan([SaveHeader(updated),
            Log(updated, k, env, "provider.rewrapped", "high", "allow",
                map["old_provider_id" := JString(ProviderId(h.binding)), "new_provider_id" := JString(ProviderId(binding))])],
           Ok(HeaderOf(updated)))
  }

  function TotpEnrolled(latest: Option<SecretRecord>): bool
  {
    latest.Some? && latest.value.status == Active
  }

  function ExportConfigPlan(h: VaultHeader, k: KeyHierarchy, env: Env, enabled: bool, allowWithoutMfa: bool,
                            totp: Option<SecretRecord>): Plan
  {
    if enabled && !allowWithoutMfa && !TotpEnrolled(totp) then Refuse(PlaintextExportMfaEnrollmentRequired)
    else
      Plan([SaveMetadata(PLAINTEXT_EXPORT_CONFIG_KEY, if enabled then "enabled" else "disabled"),
            Log(h, k, env,
                if enabled then "config.plaintext_export_enabled" else "config.plaintext_export_disabled",
                "critical", "allow",
                map["plaintext_export_enabled" := JBool(enabled), "allow_without_mfa" := JBool(allowWithoutMfa)])],
           Ok(Done))
  }

  function ExportCheck(config: Option<string>, totp: Option<SecretRecord>, mfaVerified: bool): Result<(), VaultError>
  {
    if config != Some("enabled") then Err(PlaintextExportDisabled)
    else if TotpEnrolled(totp) && !mfaVerified then Err(PlaintextExportMfaRequired)
    else Ok(())
  }

  // ---- Whole operations ----

  function Lookup<K, V>(m: map<K, V>, key: K): Option<V>
  {
    if key in m then Some(m[key]) else None
  }

  /** The policy found for a ticket in the listing of the policy table. */
  ghost function ActivePolicy(s: Tables, t: SecretAccessTicket): Option<AccessPolicy>
  {
    FindPolicy(Listing(s.policies), t.body.policyId)
  }

  ghost function CheckedTicket(s: Tables, k: KeyHierarchy, ticketId: string, q: AccessRequest, now: int)
    : Result<SecretAccessTicket, VaultError>
  {
    match Lookup(s.tickets, ticketId)
    case None => Err(TicketNotFound)
    case Some(t) =>
      match ValidateCheck(k, t, q, now, ActivePolicy(s, t), LatestRecord(s.records, t.body.secretRef))
      case Err(e) => Err(e)
      case Ok(_) => Ok(t)
  }

  /** The ticket a consume writes back. */
  function Used(k: KeyHierarchy, t: SecretAccessTicket): SecretAccessTicket
    requires t.body.usesRemaining >= 1
  {
    Manager(k).Sealed(t.body.(usesRemaining := t.body.usesRemaining - 1))
  }

  /** The ticket a revocation writes. */
  function Barred(k: KeyHierarchy, t: SecretAccessTicket): SecretAccessTicket
  {
    Manager(k).Sealed(t.body.(revoked := true))
  }

  ghost function ConsumePlan(s: Tables, h: VaultHeader, k: KeyHierarchy, env: Env, ticketId: string, q: AccessRequest): Plan
  {
    match CheckedTicket(s, k, ticketId, q, env.now)
    case Err(e) => Refuse(e)
    case Ok(t) =>
      if !SwapApplies(s.tickets, t) then Refuse(TicketConflict(t.body.ticketId))
      else
        var rest := MaterializePlan(h, k, env, t, q, ReadForTicket(s.records, t));
        Plan([SwapTicket(t, Used(k, t))] + rest.effects, rest.outcome)
  }

  ghost function PlanOf(s: Tables, h: VaultHeader, k: KeyHierarchy, op: Op, env: Env): Plan
  {
    match op
    case Put(secretRef, plaintext, secretType) =>
      PutPlan(h, k, env, secretRef, plaintext, secretType, LatestVersion(s.records, secretRef))
    case EnrollTotp(config, details) =>
      EnrollPlan(h, k, env, config, details, LatestVersion(s.records, TOTP_SECRET_REF))
    case Get(secretRef) => GetPlan(h, k, env, secretRef, LatestRecord(s.records, secretRef))
    case Disable(secretRef) =>
      StatusPlan(h, k, env, secretRef, LatestRecord(s.records, secretRef), Disabled, "secret.disabled", "high")
    case Destroy(secretRef) =>
      StatusPlan(h, k, env, secretRef, LatestRecord(s.records, secretRef), Destroyed, "secret.destroyed", "critical")
    case AddPolicy(policy) => AddPolicyPlan(h, k, env, policy)
    case IssueTicket(q) =>
      (match LatestRecord(s.records, q.secretRef)
       case None => Refuse(SecretNotFound(q.secretRef))
       case Some(r) =>
         if r.status != Active then Refuse(SecretUnavailable(r.status))
         else IssuePlan(h, k, env, q, r, Listing(s.policies)))
    case ValidateTicket(ticketId, q) =>
      (match CheckedTicket(s, k, ticketId, q, env.now)
       case Err(e) => Refuse(e)
       case Ok(t) => Plan([], Ok(TicketOf(t))))
    case RenewTicket(ticketId, q) =>
      (match CheckedTicket(s, k, ticketId, q, env.now)
       case Err(e) => Refuse(e)
       case Ok(t) => RenewPlan(h, k, env, t, q, ActivePolicy(s, t)))
    case ConsumeTicket(ticketId, q) => ConsumePlan(s, h, k, env, ticketId, q)
    case RevokeTicket(ticketId) => RevokePlan(h, k, env, ticketId, Lookup(s.tickets, ticketId))
    case RevokeAllTickets(reason) => RevokeAllPlan(h, k, env, reason, Listing(s.tickets))
    case StartRotation(secretRef, plaintext, secretType) =>
      StartPlan(h, k, env, secretRef, plaintext, secretType, LatestVersion(s.records, secretRef))
    case VerifyRotation(jobId) => VerifyPlan(h, k, env, jobId, Lookup(s.jobs, jobId))
    case PromoteRotation(jobId) => PromotePlan(h, k, env, jobId, Lookup(s.jobs, jobId))
    case RollbackRotation(jobId) => RollbackPlan(h, k, env, jobId, Lookup(s.jobs, jobId))
    case RewrapProvider(provider, newPassphrase, device) => RewrapPlan(h, k, env, provider, newPassphrase, device)
    case SetPlaintextExport(enabled, allowWithoutMfa) =>
      ExportConfigPlan(h, k, env, enabled, allowWithoutMfa, LatestRecord(s.records, TOTP_SECRET_REF))
    case VerifyAudit => VerifyAuditPlan(s, k)
  }

  ghost function VerifyAuditPlan(s: Tables, k: KeyHierarchy): Plan
  {
    match ChainError(s.audit, k.AuditIntegrityKey(), 0)
    case None => Plan([], Ok(Done))
    case Some(e) => Refuse(AuditFailure(e))
  }

  /** What an operation checks before unlocking. */
  ghost function Precheck(s: Tables, op: Op): Result<(), VaultError>
  {
    if op.ConsumeTicket? && op.request.rawExportRequested then
      ExportCheck(Lookup(s.metadata, PLAINTEXT_EXPORT_CONFIG_KEY), LatestRecord(s.records, TOTP_SECRET_REF),
                  op.request.mfaVerified)
    else Ok(())
  }

  /** One whole operation, undisturbed: the new tables and the reply. */
  ghost function Exec(s: Tables, op: Op, passphrase: Option<string>, env: Env): (Tables, Outcome)
  {
    match Precheck(s, op)
    case Err(e) => (s, Err(e))
    case Ok(_) =>
      match Unlock(s.header, passphrase)
      case Err(e) => (s, Err(e))
      case Ok((h, k)) =>
        var plan := PlanOf(s, h, k, op, env);
        (DoAll(s, plan.effects), plan.outcome)
  }

  lemma ExecIs(s: Tables, h: VaultHeader, k: KeyHierarchy, op: Op, passphrase: Option<string>, env: Env)
    requires Precheck(s, op).Ok? && Unlock(s.header, passphrase) == Ok((h, k))
    ensures var plan := PlanOf(s, h, k, op, env);
            Exec(s, op, passphrase, env) == (DoAll(s, plan.effects), plan.outcome)
  {
    hide Precheck, Unlock, PlanOf, DoAll;
  }

  lemma ExecRefuses(s: Tables, op: Op, passphrase: Option<string>, env: Env)
    requires Precheck(s, op).Err? || Unlock(s.header, passphrase).Err?
    ensures Exec(s, op, passphrase, env) ==
            (s, Err(if Precheck(s, op).Err? then Precheck(s, op).error else Unlock(s.header, passphrase).error))
  {
    hide Precheck, Unlock, PlanOf, DoAll;
  }
}
