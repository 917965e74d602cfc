/** `store.rs`: the vault's tables. A table is a map from its primary key to the stored value;
    serialized JSON is the value itself. */
module Store {
  import opened Wrappers
  import opened Keys
  import opened Envelope
  import opened Policy
  import opened Tickets
  import opened Rotation
  import opened Ordering
  import Audit

  /** How the root key is wrapped; unwrapping gives back the same key for the right input. */
  datatype ProviderBinding =
    | PassphraseBinding(passphrase: string, root: Key)
    | Tpm2Binding(device: string, root: Key)
    | Tpm2EsapiBinding(device: string, root: Key)
    | SystemFingerprintBinding(root: Key)
    | OtherBinding(providerId: string)

  datatype VaultHeader = VaultHeader(vaultId: string, namespaceId: string, binding: ProviderBinding, createdAt: Stamp)

  datatype Fingerprint = Fingerprint(key: Key, plaintext: seq<byte>)

  datatype VaultError =
    | VaultNotInitialized | VaultAlreadyInitialized | SecretNotFound(secretRef: string) | TicketConflict(ticketId: string)
    | DuplicateEventId
    | ProviderFailure | PassphraseRequired | UnsupportedProvider(name: string) | NewPassphraseRequired
    | InvalidSecretRef | SecretUnavailable(status: SecretStatus)
    | TicketNotFound | TicketRejected(ticketError: TicketValidationError) | PolicyDenied(reason: string)
    | TicketPolicyChanged | TicketSecretVersionStale
    | RotationJobNotFound | InvalidRotationState(jobStatus: RotationJobStatus)
    | PlaintextExportDisabled | PlaintextExportMfaEnrollmentRequired | PlaintextExportMfaRequired
    | CryptoFailure(cryptoError: CryptoError) | AuditFailure(auditError: Audit.AuditVerificationError)

  type Records = map<(string, nat), SecretRecord>

  datatype Tables = Tables(
    header: Option<VaultHeader>,
    metadata: map<string, string>,
    records: Records,
    policies: map<string, AccessPolicy>,
    tickets: map<string, SecretAccessTicket>,
    audit: seq<Audit.AuditEvent>,
    fingerprints: map<(string, nat), Fingerprint>,
    jobs: map<string, RotationJob>)

  const EMPTY := Tables(None, map[], map[], map[], map[], [], map[], map[])

  // ---- Queries ----

  ghost function Versions(records: Records, secretRef: string): set<nat>
  {
    set key | key in records && key.0 == secretRef :: key.1
  }

  predicate IsHighest(s: set<nat>, v: nat)
  {
    v in s && forall w <- s :: w <= v
  }

  lemma OneMoreHighest(s: set<nat>, x: nat, v: nat)
    requires x in s && IsHighest(s - {x}, v)
    ensures IsHighest(s, if v < x then x else v)
  {
    forall w <- s ensures w <= if v < x then x else v {
      assert w == x || w in s - {x};
    }
  }

  lemma {:induction false} HighestExists(s: set<nat>)
    requires s != {}
    ensures exists v :: IsHighest(s, v)
  {
    var x :| x in s;
    if s == {x} {
      assert IsHighest(s, x);
    } else {
      HighestExists(s - {x});
      var v :| IsHighest(s - {x}, v);
      OneMoreHighest(s, x, v);
    }
  }

  /** `SELECT MAX(version)`. */
  ghost function LatestVersion(records: Records, secretRef: string): (v: Option<nat>)
    ensures v.None? <==> Versions(records, secretRef) == {}
    ensures v.Some? ==> v.value in Versions(records, secretRef) && (secretRef, v.value) in records
                        && forall w <- Versions(records, secretRef) :: w <= v.value
  {
    var s := Versions(records, secretRef);
    if s == {} then None else
      HighestExists(s);
      var v :| IsHighest(s, v);
      Some(v)
  }

  ghost function LatestRecord(records: Records, secretRef: string): Option<SecretRecord>
  {
    match LatestVersion(records, secretRef)
    case None => None
    case Some(v) => Some(records[(secretRef, v)])
  }

  ghost function FindPolicy(policies: seq<AccessPolicy>, policyId: string): (r: Option<AccessPolicy>)
    ensures r.Some? ==> r.value in policies && r.value.policyId == policyId
  {
    if policies == [] then None
    else if policies[0].policyId == policyId then Some(policies[0])
    else FindPolicy(policies[1..], policyId)
  }

  ghost predicate FreshEvent(s: Tables, eventId: string)
  {
    forall i :: 0 <= i < |s.audit| ==> s.audit[i].entry.eventId != eventId
  }

  // ---- Writes ----

  /** One statement or transaction that writes. */
  datatype Effect =
    | SaveHeader(header: VaultHeader)
    | SaveMetadata(key: string, value: string)
    | SaveRecord(record: SecretRecord)
    | SaveFingerprint(secretRef: string, version: nat, fingerprint: Fingerprint)
    | SavePolicy(policy: AccessPolicy)
    | SaveTicket(ticket: SecretAccessTicket)
    | SwapTicket(expected: SecretAccessTicket, updated: SecretAccessTicket)
    | SaveJob(job: RotationJob)
    | AppendAudit(macKey: Key, entry: Audit.Entry)

  /** `save_ticket_if_current` changes a row only if it holds exactly the expected ticket. */
  predicate SwapApplies(tickets: map<string, SecretAccessTicket>, expected: SecretAccessTicket)
  {
    expected.body.ticketId in tickets && tickets[expected.body.ticketId] == expected
  }

  function Do(s: Tables, e: Effect): Tables
  {
    match e
    case SaveHeader(h) => s.(header := Some(h))
    case SaveMetadata(k, v) => s.(metadata := s.metadata[k := v])
    case SaveRecord(r) => s.(records := s.records[(r.secretRef, r.secretVersion) := r])
    case SaveFingerprint(secretRef, v, f) => s.(fingerprints := s.fingerprints[(secretRef, v) := f])
    case SavePolicy(p) => s.(policies := s.policies[p.policyId := p])
    case SaveTicket(t) => s.(tickets := s.tickets[t.body.ticketId := t])
    case SwapTicket(t, u) =>
      if SwapApplies(s.tickets, t) then s.(tickets := s.tickets[t.body.ticketId := u]) else s
    case SaveJob(j) => s.(jobs := s.jobs[j.jobId := j])
    case AppendAudit(key, entry) => s.(audit := Audit.Appended(key, s.audit, entry))
  }

  function DoAll(s: Tables, es: seq<Effect>): Tables
    decreases |es|
  {
    if es == [] then s else DoAll(Do(s, es[0]), es[1..])
  }

  class SqliteVaultStore {
    var header: Option<VaultHeader>
    var metadata: map<string, string>
    var records: Records
    var policies: map<string, AccessPolicy>
    var tickets: map<string, SecretAccessTicket>
    var auditEvents: seq<Audit.AuditEvent>
    var fingerprints: map<(string, nat), Fingerprint>
    var jobs: map<string, RotationJob>

    ghost function State(): Tables
      reads this
    {
      Tables(header, metadata, records, policies, tickets, auditEvents, fingerprints, jobs)
    }

    constructor ()
      ensures State() == EMPTY
    {
      header, metadata, records, policies := None, map[], map[], map[];
      tickets, auditEvents, fingerprints, jobs := map[], [], map[], map[];
    }

    method CreateVault(h: VaultHeader) returns (r: Result<(), VaultError>)
      modifies this
      ensures old(header).Some? ==> r == Err(VaultAlreadyInitialized) && State() == old(State())
      ensures old(header).None? ==> r == Ok(()) && State() == Do(old(State()), SaveHeader(h))
    {
      if header.Some? {
        return Err(VaultAlreadyInitialized);
      }
      header := Some(h);
      return Ok(());
    }

    method LoadHeader() returns (r: Result<VaultHeader, VaultError>)
      ensures r == match header case Some(h) => Ok(h) case None => Err(VaultNotInitialized)
    {
      r := match header case Some(h) => Ok(h) case None => Err(VaultNotInitialized);
    }

    method UpdateHeader(h: VaultHeader) returns (r: Result<(), VaultError>)
      modifies this
      ensures old(header).None? ==> r == Err(VaultNotInitialized) && State() == old(State())
      ensures old(header).Some? ==> r == Ok(()) && State() == Do(old(State()), SaveHeader(h))
    {
      if header.None? {
        return Err(VaultNotInitialized);
      }
      header := Some(h);
      return Ok(());
    }

    method SetMetadata(key: string, value: string)
      modifies this
      ensures State() == Do(old(State()), SaveMetadata(key, value))
    {
      metadata := metadata[key := value];
    }

    method SaveSecretRecord(record: SecretRecord) returns (r: Result<(), VaultError>)
      modifies this
      ensures old(header).None? ==> r == Err(VaultNotInitialized) && State() == old(State())
      ensures old(header).Some? ==> r == Ok(()) && State() == Do(old(State()), SaveRecord(record))
    {
      if header.None? {
        return Err(VaultNotInitialized);
      }
      records := records[(record.secretRef, record.secretVersion) := record];
      return Ok(());
    }

    method MaxVersion(secretRef: string) returns (v: Option<nat>)
      ensures v == LatestVersion(records, secretRef)
    {
      var rows := set key | key in records && key.0 == secretRef :: key.1;
      assert rows == Versions(records, secretRef);
      if rows == {} {
        return None;
      }
      HighestExists(rows);
      var top :| IsHighest(rows, top);
      return Some(top);
    }

    method LoadLatestSecret(secretRef: string) returns (r: Result<SecretRecord, VaultError>)
      ensures r == match LatestRecord(records, secretRef) case Some(x) => Ok(x) case None => Err(SecretNotFound(secretRef))
    {
      var v := MaxVersion(secretRef);
      if v.None? {
        return Err(SecretNotFound(secretRef));
      }
      return Ok(records[(secretRef, v.value)]);
    }

    method LoadSecretVersion(secretRef: string, version: nat) returns (r: Result<SecretRecord, VaultError>)
      ensures r == if (secretRef, version) in records then Ok(records[(secretRef, version)])
                   else Err(SecretNotFound(secretRef))
    {
      r := if (secretRef, version) in records then Ok(records[(secretRef, version)]) else Err(SecretNotFound(secretRef));
    }

    /** The latest row is read, given the new status, and written back. */
    method SaveUpdatedSecretStatus(secretRef: string, status: SecretStatus) returns (r: Result<SecretRecord, VaultError>)
      modifies this
      ensures match LatestRecord(old(records), secretRef)
              case None => r == Err(SecretNotFound(secretRef)) && State() == old(State())
              case Some(latest) =>
                if old(header).None? then r == Err(VaultNotInitialized) && State() == old(State())
                else r == Ok(latest.(status := status))
                     && State() == Do(old(State()), SaveRecord(latest.(status := status)))
    {
      var latest := LoadLatestSecret(secretRef);
      if latest.Err? {
        return latest;
      }
      var record := latest.value.(status := status);
      var saved := SaveSecretRecord(record);
      if saved.Err? {
        return Err(saved.error);
      }
      return Ok(record);
    }

    /** One immediate transaction: read the whole log, build the next event, insert it. */
    method AppendAuditEvent(macKey: Key, entry: Audit.Entry) returns (r: Result<Audit.AuditEvent, VaultError>)
      modifies this
      ensures FreshEvent(old(State()), entry.eventId) ==>
                r.Ok? && State() == Do(old(State()), AppendAudit(macKey, entry))
      ensures !FreshEvent(old(State()), entry.eventId) ==> r == Err(DuplicateEventId) && State() == old(State())
    {
      var manager := new Audit.AuditManager(macKey, auditEvents);
      var event := manager.Append(entry);
      assert manager.events[|auditEvents|] == event;
      var duplicate := exists i :: 0 <= i < |auditEvents| && auditEvents[i].entry.eventId == event.entry.eventId;
      if duplicate {
        return Err(DuplicateEventId);
      }
      auditEvents := auditEvents + [event];
      return Ok(event);
    }

    method StorePolicy(policy: AccessPolicy)
      modifies this
      ensures State() == Do(old(State()), SavePolicy(policy))
    {
      policies := policies[policy.policyId := policy];
    }

    method ListPolicies() returns (r: seq<AccessPolicy>)
      ensures r == Listing(policies)
    {
      r := ListByKey(policies);
    }

    method StoreTicket(ticket: SecretAccessTicket)
      modifies this
      ensures State() == Do(old(State()), SaveTicket(ticket))
    {
      tickets := tickets[ticket.body.ticketId := ticket];
    }

    method SaveTicketIfCurrent(expected: SecretAccessTicket, updated: SecretAccessTicket)
      returns (r: Result<(), VaultError>)
      modifies this
      ensures State() == Do(old(State()), SwapTicket(expected, updated))
      ensures r == if SwapApplies(old(tickets), expected) then Ok(()) else Err(TicketConflict(expected.body.ticketId))
    {
      var id := expected.body.ticketId;
      if id in tickets && tickets[id] == expected {
        tickets := tickets[id := updated];
        return Ok(());
      }
      return Err(TicketConflict(id));
    }

    method LoadTicket(ticketId: string) returns (r: Option<SecretAccessTicket>)
      ensures r == if ticketId in tickets then Some(tickets[ticketId]) else None
    {
      r := if ticketId in tickets then Some(tickets[ticketId]) else None;
    }

    method ListTickets() returns (r: seq<SecretAccessTicket>)
      ensures r == Listing(tickets)
    {
      r := ListByKey(tickets);
    }

    method SaveRotationJob(job: RotationJob)
      modifies this
      ensures State() == Do(old(State()), SaveJob(job))
    {
      jobs := jobs[job.jobId := job];
    }

    method LoadRotationJob(jobId: string) returns (r: Option<RotationJob>)
      ensures r == if jobId in jobs then Some(jobs[jobId]) else None
    {
      r := if jobId in jobs then Some(jobs[jobId]) else None;
    }

    method SaveRedactionFingerprint(secretRef: string, version: nat, fingerprint: Fingerprint)
      modifies this
      ensures State() == Do(old(State()), SaveFingerprint(secretRef, version, fingerprint))
    {
      fingerprints := fingerprints[(secretRef, version) := fingerprint];
    }
  }
}
