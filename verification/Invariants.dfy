/** What every write keeps true of the tables, and what a value read from an earlier state is
    still good for. Runs of whole operations and interleaved runs both build on this. */
module Invariants {
  import opened Wrappers
  import opened Keys
  import opened Envelope
  import opened Policy
  import opened Tickets
  import opened Rotation
  import opened Store
  import opened Operations

  // ---- Sound tables ----

  function RootOf(b: ProviderBinding): Option<Key>
  {
    match b
    case PassphraseBinding(_, root) => Some(root)
    case Tpm2Binding(_, root) => Some(root)
    case Tpm2EsapiBinding(_, root) => Some(root)
    case SystemFingerprintBinding(root) => Some(root)
    case OtherBinding(_) => None
  }

  predicate HeaderOk(h: VaultHeader, k: KeyHierarchy)
  {
    h.vaultId == k.vaultId && RootOf(h.binding) == Some(k.rootKey)
  }

  predicate RecordOk(r: SecretRecord, k: KeyHierarchy)
  {
    r.secretVersion >= 1 && r.status != Staged && DecryptSecret(k, r).Ok?
  }

  /** The version before `v` is stored, if there is one. */
  predicate Follows(records: Records, secretRef: string, v: nat)
  {
    v >= 1 && (v == 1 || (secretRef, v - 1) in records)
  }

  ghost predicate RecordsOk(records: Records, k: KeyHierarchy)
  {
    forall key <- records ::
      && RecordOk(records[key], k)
      && key == (records[key].secretRef, records[key].secretVersion)
      && Follows(records, key.0, key.1)
  }

  predicate TicketOk(t: SecretAccessTicket, records: Records, k: KeyHierarchy)
  {
    && Manager(k).Authentic(t)
    && t.body.secretVersion >= 1 && (t.body.secretRef, t.body.secretVersion) in records
    && t.body.usesRemaining <= t.body.maxUses
  }

  ghost predicate TicketsOk(tickets: map<string, SecretAccessTicket>, records: Records, k: KeyHierarchy)
  {
    forall id <- tickets :: TicketOk(tickets[id], records, k) && tickets[id].body.ticketId == id
  }

  predicate JobOk(j: RotationJob, records: Records, k: KeyHierarchy)
  {
    && j.stagedRecord.secretRef == j.secretRef && j.stagedRecord.secretVersion == j.stagedVersion
    && Follows(records, j.secretRef, j.stagedVersion)
    && DecryptSecret(k, j.stagedRecord).Ok?
    && j.status != Failed
  }

  ghost predicate JobsOk(jobs: map<string, RotationJob>, records: Records, k: KeyHierarchy)
  {
    forall id <- jobs :: JobOk(jobs[id], records, k) && jobs[id].jobId == id
  }

  ghost predicate PoliciesOk(policies: map<string, AccessPolicy>)
  {
    forall id <- policies :: policies[id].policyId == id
  }

  ghost predicate TablesOk(s: Tables, k: KeyHierarchy)
  {
    && s.header.Some? && HeaderOk(s.header.value, k)
    && RecordsOk(s.records, k)
    && TicketsOk(s.tickets, s.records, k)
    && JobsOk(s.jobs, s.records, k)
    && PoliciesOk(s.policies)
    && Audit.Verifies(s.audit, k.AuditIntegrityKey())
  }

  /** The tables of a vault just created. */
  function Created(h: VaultHeader, k: KeyHierarchy, env: Env, details: map<string, Audit.Json>): Tables
  {
    Do(Do(EMPTY, SaveHeader(h)), Log(h, k, env, "vault.initialized", "info", "allow", details))
  }

  lemma CreatedOk(h: VaultHeader, k: KeyHierarchy, env: Env, details: map<string, Audit.Json>)
    requires HeaderOk(h, k)
    ensures TablesOk(Created(h, k, env, details), k)
  {
    var entry := Log(h, k, env, "vault.initialized", "info", "allow", details).entry;
    Audit.AppendVerifies(k.AuditIntegrityKey(), [], entry);
  }

  // ---- How tables change over time ----

  /** What identifies a rotation job's content: all but its status. */
  function JobCore(j: RotationJob): (string, nat, SecretRecord)
  {
    (j.secretRef, j.stagedVersion, j.stagedRecord)
  }

  /** The row for the same ticket is still there, and revoked if it was. */
  predicate Inherits(tickets: map<string, SecretAccessTicket>, t: SecretAccessTicket)
  {
    var id := t.body.ticketId;
    id in tickets && Core(tickets[id].body) == Core(t.body)
  }

  ghost predicate TicketsGrow(a: map<string, SecretAccessTicket>, b: map<string, SecretAccessTicket>)
  {
    forall id <- a :: id in b && Core(a[id].body) == Core(b[id].body) && (a[id].body.revoked ==> b[id].body.revoked)
  }

  ghost predicate JobsGrow(a: map<string, RotationJob>, b: map<string, RotationJob>)
  {
    forall id <- a :: id in b && JobCore(a[id]) == JobCore(b[id])
  }

  /** From `a` to `b`: nothing disappears, tickets keep all but their uses, revoked stays
      revoked, and the audit log only gets longer. */
  ghost predicate Grows(a: Tables, b: Tables)
  {
    && a.records.Keys <= b.records.Keys
    && a.policies.Keys <= b.policies.Keys
    && TicketsGrow(a.tickets, b.tickets)
    && JobsGrow(a.jobs, b.jobs)
    && a.audit <= b.audit
  }

  lemma GrowsTransitive(a: Tables, b: Tables, c: Tables)
    requires Grows(a, b) && Grows(b, c)
    ensures Grows(a, c)
  {
  }

  // ---- Sound writes ----

  /** A new row's identifier. */
  datatype Ident = TicketId(id: string) | JobId(id: string) | EventId(id: string)

  function InsertOf(e: Effect): Option<Ident>
  {
    match e
    case SaveTicket(t) => if t.body.revoked then None else Some(TicketId(t.body.ticketId))
    case SaveJob(j) => if j.status == StagedJob then Some(JobId(j.jobId)) else None
    case AppendAudit(_, entry) => Some(EventId(entry.eventId))
    case _ => None
  }

  ghost predicate IdUsed(s: Tables, x: Ident)
  {
    match x
    case TicketId(id) => id in s.tickets
    case JobId(id) => id in s.jobs
    case EventId(id) => !FreshEvent(s, id)
  }

  /** Random identifiers do not repeat. */
  ghost predicate Fresh(s: Tables, e: Effect)
  {
    InsertOf(e).Some? ==> !IdUsed(s, InsertOf(e).value)
  }

  /** A write that keeps sound tables sound. It stays one however the tables grow. */
  predicate EffectOk(s: Tables, k: KeyHierarchy, e: Effect)
  {
    match e
    case SaveHeader(h) => HeaderOk(h, k)
    case SaveMetadata(_, _) => true
    case SaveRecord(r) => RecordOk(r, k) && Follows(s.records, r.secretRef, r.secretVersion)
    case SaveFingerprint(_, _, _) => true
    case SavePolicy(_) => true
    case SaveTicket(t) =>
      TicketOk(t, s.records, k)
      && (if t.body.revoked then Inherits(s.tickets, t) else t.body.usesRemaining == t.body.maxUses)
    case SwapTicket(t, u) =>
      && TicketOk(t, s.records, k) && Inherits(s.tickets, t) && !t.body.revoked
      && t.body.usesRemaining >= 1 && u == Used(k, t)
    case SaveJob(j) =>
      JobOk(j, s.records, k)
      && (j.status == StagedJob || (j.jobId in s.jobs && JobCore(s.jobs[j.jobId]) == JobCore(j)))
    case AppendAudit(key, _) => key == k.AuditIntegrityKey()
  }

  lemma EffectStaysOk(a: Tables, b: Tables, k: KeyHierarchy, e: Effect)
    requires EffectOk(a, k, e) && Grows(a, b)
    ensures EffectOk(b, k, e)
  {
    hide DecryptSecret;
  }

  lemma StillFollows(records: Records, more: Records, secretRef: string, v: nat)
    requires Follows(records, secretRef, v) && records.Keys <= more.Keys
    ensures Follows(more, secretRef, v)
  {
  }

  lemma RecordReplaced(records: Records, k: KeyHierarchy, r: SecretRecord)
    requires RecordsOk(records, k) && RecordOk(r, k) && Follows(records, r.secretRef, r.secretVersion)
    ensures RecordsOk(records[(r.secretRef, r.secretVersion) := r], k)
  {
    hide RecordOk, Follows;
    var after := records[(r.secretRef, r.secretVersion) := r];
    assert records.Keys <= after.Keys;
    forall key <- after ensures Follows(after, key.0, key.1) {
      StillFollows(records, after, key.0, key.1);
    }
  }

  lemma MoreRecords(s: Tables, records: Records, k: KeyHierarchy)
    requires TicketsOk(s.tickets, s.records, k) && JobsOk(s.jobs, s.records, k) && s.records.Keys <= records.Keys
    ensures TicketsOk(s.tickets, records, k) && JobsOk(s.jobs, records, k)
  {
    hide Manager, DecryptSecret;
  }

  lemma RecordWritten(s: Tables, k: KeyHierarchy, r: SecretRecord)
    requires RecordsOk(s.records, k) && TicketsOk(s.tickets, s.records, k) && JobsOk(s.jobs, s.records, k)
    requires EffectOk(s, k, SaveRecord(r))
    ensures var records := Do(s, SaveRecord(r)).records;
            RecordsOk(records, k) && TicketsOk(s.tickets, records, k) && JobsOk(s.jobs, records, k)
  {
    hide RecordOk, RecordsOk, TicketsOk, JobsOk;
    RecordReplaced(s.records, k, r);
    MoreRecords(s, Do(s, SaveRecord(r)).records, k);
  }

  lemma TicketReplaced(tickets: map<string, SecretAccessTicket>, records: Records, k: KeyHierarchy, u: SecretAccessTicket)
    requires TicketsOk(tickets, records, k) && TicketOk(u, records, k)
    requires var id := u.body.ticketId;
             id in tickets ==> Core(tickets[id].body) == Core(u.body) && (tickets[id].body.revoked ==> u.body.revoked)
    ensures TicketsOk(tickets[u.body.ticketId := u], records, k)
    ensures TicketsGrow(tickets, tickets[u.body.ticketId := u])
  {
    hide TicketOk, Core;
  }

  lemma UsedOk(t: SecretAccessTicket, records: Records, k: KeyHierarchy)
    requires TicketOk(t, records, k) && t.body.usesRemaining >= 1
    ensures TicketOk(Used(k, t), records, k) && Core(Used(k, t).body) == Core(t.body)
    ensures Used(k, t).body.ticketId == t.body.ticketId && Used(k, t).body.revoked == t.body.revoked
  {
  }

  lemma TicketWritten(s: Tables, k: KeyHierarchy, e: Effect)
    requires e.SaveTicket? || e.SwapTicket?
    requires TicketsOk(s.tickets, s.records, k)
    requires EffectOk(s, k, e) && Fresh(s, e)
    ensures TicketsOk(Do(s, e).tickets, s.records, k) && TicketsGrow(s.tickets, Do(s, e).tickets)
    ensures Do(s, e) == s.(tickets := Do(s, e).tickets)
  {
    hide TicketOk, Core, Used;
    match e
    case SaveTicket(t) => TicketReplaced(s.tickets, s.records, k, t);
    case SwapTicket(t, u) =>
      UsedOk(t, s.records, k);
      if SwapApplies(s.tickets, t) {
        TicketReplaced(s.tickets, s.records, k, u);
      }
  }

  lemma JobWritten(s: Tables, k: KeyHierarchy, j: RotationJob)
    requires JobsOk(s.jobs, s.records, k)
    requires EffectOk(s, k, SaveJob(j)) && Fresh(s, SaveJob(j))
    ensures JobsOk(Do(s, SaveJob(j)).jobs, s.records, k) && JobsGrow(s.jobs, Do(s, SaveJob(j)).jobs)
  {
    hide JobOk;
  }

  lemma PolicyWritten(s: Tables, p: AccessPolicy)
    requires PoliciesOk(s.policies)
    ensures PoliciesOk(Do(s, SavePolicy(p)).policies)
  {
  }

  /** Every sound write keeps the tables sound, and the tables only grow. */
  lemma DoKeeps(s: Tables, k: KeyHierarchy, e: Effect)
    requires TablesOk(s, k) && EffectOk(s, k, e) && Fresh(s, e)
    ensures TablesOk(Do(s, e), k) && Grows(s, Do(s, e))
  {
    hide RecordsOk, TicketsOk, JobsOk, Audit.Verifies, PoliciesOk, TicketOk, RecordOk, JobOk, Inherits, Fresh, Used;
    match e
    case SaveRecord(r) => RecordWritten(s, k, r);
    case SaveTicket(_) => TicketWritten(s, k, e);
    case SwapTicket(_, _) => TicketWritten(s, k, e);
    case SaveJob(j) => JobWritten(s, k, j);
    case SavePolicy(p) => PolicyWritten(s, p);
    case AppendAudit(key, entry) => Audit.AppendVerifies(key, s.audit, entry);
    case _ =>
  }

  // ---- Versions ----

  /** How many versions of a reference are stored. */
  ghost function VersionCount(records: Records, secretRef: string): nat
  {
    Next(LatestVersion(records, secretRef)) - 1
  }

  lemma {:induction false} VersionsBelow(records: Records, k: KeyHierarchy, secretRef: string, v: nat, w: nat)
    requires RecordsOk(records, k) && (secretRef, v) in records && 1 <= w <= v
    ensures (secretRef, w) in records
    decreases v
  {
    hide RecordsOk;
    StoredAfter(records, k, secretRef, v);
    if w < v {
      VersionsBelow(records, k, secretRef, v - 1, w);
    }
  }

  lemma StoredAfter(records: Records, k: KeyHierarchy, secretRef: string, v: nat)
    requires RecordsOk(records, k) && (secretRef, v) in records
    ensures Follows(records, secretRef, v)
  {
    hide RecordOk, Follows;
  }

  /** The stored versions of a reference are exactly 1 to their number. */
  lemma VersionsExact(records: Records, k: KeyHierarchy, secretRef: string)
    requires RecordsOk(records, k)
    ensures forall v: nat :: (secretRef, v) in records <==> 1 <= v <= VersionCount(records, secretRef)
  {
    hide RecordsOk;
    var latest := LatestVersion(records, secretRef);
    forall v: nat ensures (secretRef, v) in records <==> 1 <= v <= VersionCount(records, secretRef) {
      if (secretRef, v) in records {
        StoredAfter(records, k, secretRef, v);
        assert v in Versions(records, secretRef);
      } else if latest.Some? && 1 <= v <= latest.value {
        VersionsBelow(records, k, secretRef, latest.value, v);
      }
    }
  }
}
