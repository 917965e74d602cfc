/** Runs of whole operations refine a plain vault: per reference a list of values with their
    status, and per rotation job the value it would write. Nothing is encrypted there. */
module Refinement {
  import opened Wrappers
  import opened Keys
  import opened Envelope
  import opened Rotation
  import opened Store
  import opened Operations
  import opened Writes
  import opened Invariants
  import opened Soundness

  datatype Slot = Slot(value: seq<byte>, status: SecretStatus)

  datatype PlainJob = PlainJob(secretRef: string, version: nat, value: seq<byte>, status: RotationJobStatus)

  datatype PlainVault = PlainVault(header: VaultHeader, secrets: map<string, seq<Slot>>, jobs: map<string, PlainJob>) {
    function Slots(secretRef: string): seq<Slot>
    {
      if secretRef in secrets then secrets[secretRef] else []
    }

    function WithSlots(secretRef: string, slots: seq<Slot>): PlainVault
    {
      this.(secrets := secrets[secretRef := slots])
    }
  }

  /** What a reply shows of a plain vault. */
  datatype PlainReply =
    | PlainVersion(version: nat)
    | PlainValue(bytes: seq<byte>)
    | PlainStatus(version: nat, status: SecretStatus)
    | PlainJobReply(id: string, job: PlainJob)
    | PlainHeader(header: VaultHeader)
    | PlainDone
    | PlainError(error: VaultError)
    | Elsewhere

  // ---- The plain vault ----

  function Append(p: PlainVault, secretRef: string, value: seq<byte>): PlainVault
  {
    p.WithSlots(secretRef, p.Slots(secretRef) + [Slot(value, Active)])
  }

  /** Writes slot `version`: a later one replaces nothing, an earlier or equal one is replaced. */
  function WriteSlot(slots: seq<Slot>, version: nat, slot: Slot): seq<Slot>
  {
    if 1 <= version <= |slots| then slots[version - 1 := slot] else slots + [slot]
  }

  function PlainRead(p: PlainVault, secretRef: string): PlainReply
  {
    var slots := p.Slots(secretRef);
    if slots == [] then PlainError(SecretNotFound(secretRef))
    else
      var last := slots[|slots| - 1];
      if last.status == Active then PlainValue(last.value) else PlainError(SecretUnavailable(last.status))
  }

  function EditLast(p: PlainVault, secretRef: string, status: SecretStatus): (PlainVault, PlainReply)
  {
    var slots := p.Slots(secretRef);
    if slots == [] then (p, PlainError(SecretNotFound(secretRef)))
    else
      var n := |slots|;
      (p.WithSlots(secretRef, slots[n - 1 := slots[n - 1].(status := status)]), PlainStatus(n, status))
  }

  function MoveJob(p: PlainVault, id: string, from: set<RotationJobStatus>, to: RotationJobStatus): (PlainVault, PlainReply)
  {
    if id !in p.jobs then (p, PlainError(RotationJobNotFound))
    else
      var job := p.jobs[id];
      if job.status !in from then (p, PlainError(InvalidRotationState(job.status)))
      else
        var moved := job.(status := to);
        (p.(jobs := p.jobs[id := moved]), PlainJobReply(id, moved))
  }

  function PlainStep(p: PlainVault, op: Op, newId: string): (PlainVault, PlainReply)
  {
    match op
    case Put(secretRef, value, _) =>
      if "secret://" <= secretRef then (Append(p, secretRef, value), PlainVersion(|p.Slots(secretRef)| + 1))
      else (p, PlainError(InvalidSecretRef))
    case EnrollTotp(value, _) => (Append(p, TOTP_SECRET_REF, value), PlainDone)
    case Get(secretRef) => (p, PlainRead(p, secretRef))
    case Disable(secretRef) => EditLast(p, secretRef, Disabled)
    case Destroy(secretRef) => EditLast(p, secretRef, Destroyed)
    case StartRotation(secretRef, value, _) =>
      if "secret://" <= secretRef then
        var job := PlainJob(secretRef, |p.Slots(secretRef)| + 1, value, StagedJob);
        (p.(jobs := p.jobs[newId := job]), PlainJobReply(newId, job))
      else (p, PlainError(InvalidSecretRef))
    case VerifyRotation(id) => MoveJob(p, id, {StagedJob}, Verified)
    case PromoteRotation(id) =>
      var (moved, reply) := MoveJob(p, id, {Verified}, Promoted);
      if !reply.PlainJobReply? then (moved, reply)
      else
        var job := reply.job;
        (moved.WithSlots(job.secretRef, WriteSlot(p.Slots(job.secretRef), job.version, Slot(job.value, Active))), reply)
    case RollbackRotation(id) => MoveJob(p, id, {StagedJob, Verified}, RolledBack)
    case RewrapProvider(provider, newPassphrase, device) =>
      (match RootOf(p.header.binding)
       case None => (p, Elsewhere)
       case Some(root) => match NewBinding(provider, newPassphrase, device, root)
         case Err(e) => (p, PlainError(e))
         case Ok(binding) =>
           var header := p.header.(binding := binding);
           (p.(header := header), PlainHeader(header)))
    case _ => (p, Elsewhere)
  }

  function PlainExec(p: PlainVault, op: Op, passphrase: Option<string>, newId: string): (PlainVault, PlainReply)
  {
    match Unlock(Some(p.header), passphrase)
    case Err(e) => (p, PlainError(e))
    case Ok(_) => PlainStep(p, op, newId)
  }

  // ---- The refinement relation ----

  function Opened(k: KeyHierarchy, r: SecretRecord): seq<byte>
  {
    match DecryptSecret(k, r)
    case Ok(value) => value
    case Err(_) => []
  }

  function SlotOf(k: KeyHierarchy, r: SecretRecord): Slot
  {
    Slot(Opened(k, r), r.status)
  }

  function PlainJobOf(k: KeyHierarchy, j: RotationJob): PlainJob
  {
    PlainJob(j.secretRef, j.stagedVersion, Opened(k, j.stagedRecord), j.status)
  }

  ghost predicate SlotsMatch(records: Records, k: KeyHierarchy, secretRef: string, slots: seq<Slot>)
  {
    && (forall v: nat :: (secretRef, v) in records <==> 1 <= v <= |slots|)
    && (forall v: nat :: 1 <= v <= |slots| ==> slots[v - 1] == SlotOf(k, records[(secretRef, v)]))
  }

  ghost predicate JobsMatch(jobs: map<string, RotationJob>, k: KeyHierarchy, plain: map<string, PlainJob>)
  {
    jobs.Keys == plain.Keys && forall id <- jobs :: plain[id] == PlainJobOf(k, jobs[id])
  }

  ghost predicate Represents(s: Tables, k: KeyHierarchy, p: PlainVault)
  {
    && s.header == Some(p.header)
    && (forall secretRef :: SlotsMatch(s.records, k, secretRef, p.Slots(secretRef)))
    && JobsMatch(s.jobs, k, p.jobs)
  }

  function Shown(k: KeyHierarchy, outcome: Outcome): PlainReply
  {
    match outcome
    case Err(e) => PlainError(e)
    case Ok(Version(v)) => PlainVersion(v)
    case Ok(Plaintext(bytes)) => PlainValue(bytes)
    case Ok(Record(r)) => PlainStatus(r.secretVersion, r.status)
    case Ok(JobOf(j)) => PlainJobReply(j.jobId, PlainJobOf(k, j))
    case Ok(HeaderOf(h)) => PlainHeader(h)
    case Ok(Done) => PlainDone
    case Ok(_) => Elsewhere
  }

  /** What a write does to the plain vault. */
  function PlainDo(p: PlainVault, k: KeyHierarchy, e: Effect): PlainVault
  {
    match e
    case SaveHeader(h) => p.(header := h)
    case SaveRecord(r) =>
      p.WithSlots(r.secretRef, WriteSlot(p.Slots(r.secretRef), r.secretVersion, SlotOf(k, r)))
    case SaveJob(j) => p.(jobs := p.jobs[j.jobId := PlainJobOf(k, j)])
    case _ => p
  }

  function PlainDoAll(p: PlainVault, k: KeyHierarchy, es: seq<Effect>): PlainVault
    decreases |es|
  {
    if es == [] then p else PlainDoAll(PlainDo(p, k, es[0]), k, es[1..])
  }

  lemma RecordRepresented(s: Tables, k: KeyHierarchy, p: PlainVault, r: SecretRecord)
    requires Represents(s, k, p) && EffectOk(s, k, SaveRecord(r))
    ensures Represents(Do(s, SaveRecord(r)), k, PlainDo(p, k, SaveRecord(r)))
  {
    hide SlotOf, RecordOk;
    var slots := p.Slots(r.secretRef);
    assert SlotsMatch(s.records, k, r.secretRef, slots);
    assert 1 <= r.secretVersion <= |slots| + 1;
    var after, p' := Do(s, SaveRecord(r)), PlainDo(p, k, SaveRecord(r));
    forall secretRef ensures SlotsMatch(after.records, k, secretRef, p'.Slots(secretRef)) {
      assert SlotsMatch(s.records, k, secretRef, p.Slots(secretRef));
    }
  }

  lemma JobRepresented(jobs: map<string, RotationJob>, k: KeyHierarchy, plain: map<string, PlainJob>, j: RotationJob)
    requires JobsMatch(jobs, k, plain)
    ensures JobsMatch(jobs[j.jobId := j], k, plain[j.jobId := PlainJobOf(k, j)])
  {
    hide PlainJobOf;
    assert jobs[j.jobId := j].Keys == jobs.Keys + {j.jobId};
  }

  lemma DoRepresented(s: Tables, k: KeyHierarchy, p: PlainVault, e: Effect)
    requires Represents(s, k, p) && EffectOk(s, k, e)
    ensures Represents(Do(s, e), k, PlainDo(p, k, e))
  {
    hide SlotsMatch, SlotOf, RecordOk, TicketOk, JobOk, PlainJobOf, HeaderOk, JobsMatch;
    var p' := PlainDo(p, k, e);
    if e.SaveRecord? {
      RecordRepresented(s, k, p, e.record);
    } else {
      forall secretRef ensures SlotsMatch(Do(s, e).records, k, secretRef, p'.Slots(secretRef)) {
        assert p'.Slots(secretRef) == p.Slots(secretRef);
      }
      if e.SaveJob? {
        JobRepresented(s.jobs, k, p.jobs, e.job);
      }
    }
  }

  lemma {:induction false} DoAllRepresented(s: Tables, k: KeyHierarchy, p: PlainVault, es: seq<Effect>)
    requires TablesOk(s, k) && EffectsOk(s, k, es) && AllFresh(s, es) && Represents(s, k, p)
    ensures Represents(DoAll(s, es), k, PlainDoAll(p, k, es))
    decreases |es|
  {
    hide TablesOk, EffectOk, AllFresh, Do, PlainDo, Represents;
    if es != [] {
      DoRepresented(s, k, p, es[0]);
      RestFresh(s, k, es);
      DoAllRepresented(Do(s, es[0]), k, PlainDo(p, k, es[0]), es[1..]);
    }
  }

  // ---- Each operation against its plain counterpart ----

  /** `latest` is the record of the last slot, if there is one. */
  ghost predicate LatestIs(k: KeyHierarchy, secretRef: string, slots: seq<Slot>, latest: Option<SecretRecord>)
  {
    if slots == [] then latest.None?
    else
      && latest.Some? && latest.value.secretRef == secretRef && latest.value.secretVersion == |slots|
      && DecryptSecret(k, latest.value) == Ok(slots[|slots| - 1].value) && latest.value.status == slots[|slots| - 1].status
  }

  lemma LatestMatches(s: Tables, k: KeyHierarchy, p: PlainVault, secretRef: string)
    requires TablesOk(s, k) && Represents(s, k, p)
    ensures Next(LatestVersion(s.records, secretRef)) == |p.Slots(secretRef)| + 1
    ensures LatestIs(k, secretRef, p.Slots(secretRef), LatestRecord(s.records, secretRef))
  {
    var slots := p.Slots(secretRef);
    assert SlotsMatch(s.records, k, secretRef, slots);
    var latest := LatestVersion(s.records, secretRef);
    if slots != [] {
      assert (secretRef, |slots|) in s.records;
      assert |slots| in Versions(s.records, secretRef);
    }
    hide DecryptSecret, TicketsOk, JobsOk, Audit.Verifies;
    if latest.Some? {
      assert RecordOk(s.records[(secretRef, latest.value)], k);
    }
  }

  lemma PlainOne(p: PlainVault, k: KeyHierarchy, a: Effect)
    ensures PlainDoAll(p, k, [a]) == PlainDo(p, k, a)
  {
    hide PlainDo;
    assert [a][1..] == [];
    assert PlainDoAll(p, k, [a]) == PlainDoAll(PlainDo(p, k, a), k, []);
  }

  lemma PlainTwo(p: PlainVault, k: KeyHierarchy, a: Effect, b: Effect)
    ensures PlainDoAll(p, k, [a, b]) == PlainDo(PlainDo(p, k, a), k, b)
  {
    hide PlainDo;
    assert [a, b][1..] == [b];
    PlainOne(PlainDo(p, k, a), k, b);
  }

  lemma PlainThree(p: PlainVault, k: KeyHierarchy, a: Effect, b: Effect, c: Effect)
    ensures PlainDoAll(p, k, [a, b, c]) == PlainDo(PlainDo(PlainDo(p, k, a), k, b), k, c)
  {
    hide PlainDo;
    assert [a, b, c][1..] == [b, c];
    PlainTwo(PlainDo(p, k, a), k, b, c);
  }

  lemma PlainFour(p: PlainVault, k: KeyHierarchy, a: Effect, b: Effect, c: Effect, d: Effect)
    ensures PlainDoAll(p, k, [a, b, c, d]) == PlainDo(PlainDo(PlainDo(PlainDo(p, k, a), k, b), k, c), k, d)
  {
    hide PlainDo;
    assert [a, b, c, d][1..] == [b, c, d];
    PlainThree(PlainDo(p, k, a), k, b, c, d);
  }

  /** The plan changes the plain vault and replies as the plain step does. */
  ghost predicate Matches(p: PlainVault, k: KeyHierarchy, plan: Plan, step: (PlainVault, PlainReply))
  {
    PlainDoAll(p, k, plan.effects) == step.0 && (step.1.Elsewhere? || Shown(k, plan.outcome) == step.1)
  }

  lemma RefusedMatches(p: PlainVault, k: KeyHierarchy, e: VaultError)
    ensures Matches(p, k, Refuse(e), (p, PlainError(e)))
  {
  }

  lemma AppendMatches(p: PlainVault, k: KeyHierarchy, r: SecretRecord, value: seq<byte>)
    requires DecryptSecret(k, r) == Ok(value) && r.status == Active && r.secretVersion == |p.Slots(r.secretRef)| + 1
    ensures PlainDo(p, k, SaveRecord(r)) == Append(p, r.secretRef, value)
  {
    hide DecryptSecret;
  }

  lemma PutMatches(h: VaultHeader, k: KeyHierarchy, p: PlainVault, env: Env, secretRef: string, value: seq<byte>,
                   secretType: SecretType, latest: Option<nat>)
    requires Next(latest) == |p.Slots(secretRef)| + 1
    ensures Matches(p, k, PutPlan(h, k, env, secretRef, value, secretType, latest),
                    PlainStep(p, Put(secretRef, value, secretType), env.freshId))
  {
    if "secret://" <= secretRef {
      var id := SecretIdFromRef(secretRef).value;
      var r := EncryptAt(h, k, env, id, secretRef, Next(latest), value, secretType);
      EncryptAtOk(h, k, env, id, secretRef, Next(latest), value, secretType);
      AppendMatches(p, k, r, value);
      hide EncryptAt, DecryptSecret, Append;
      var es := PutPlan(h, k, env, secretRef, value, secretType, latest).effects;
      PlainThree(p, k, es[0], es[1], es[2]);
    } else {
      RefusedMatches(p, k, InvalidSecretRef);
    }
  }

  lemma EnrollMatches(h: VaultHeader, k: KeyHierarchy, p: PlainVault, env: Env, value: seq<byte>,
                      details: map<string, Audit.Json>, latest: Option<nat>)
    requires Next(latest) == |p.Slots(TOTP_SECRET_REF)| + 1
    ensures Matches(p, k, EnrollPlan(h, k, env, value, details, latest),
                    PlainStep(p, EnrollTotp(value, details), env.freshId))
  {
    hide EncryptAt, DecryptSecret, Append, MoveJob, EditLast, PlainRead, WriteSlot, NewBinding, PlainJobOf;
    var id := SecretIdFromRef(TOTP_SECRET_REF).value;
    var r := EncryptAt(h, k, env, id, TOTP_SECRET_REF, Next(latest), value, Token);
    EncryptAtOk(h, k, env, id, TOTP_SECRET_REF, Next(latest), value, Token);
    AppendMatches(p, k, r, value);
    var es := EnrollPlan(h, k, env, value, details, latest).effects;
    PlainTwo(p, k, es[0], es[1]);
  }

  lemma StatusMatches(h: VaultHeader, k: KeyHierarchy, p: PlainVault, env: Env, secretRef: string,
                      latest: Option<SecretRecord>, status: SecretStatus, eventType: string, severity: string)
    requires LatestIs(k, secretRef, p.Slots(secretRef), latest)
    ensures Matches(p, k, StatusPlan(h, k, env, secretRef, latest, status, eventType, severity),
                    EditLast(p, secretRef, status))
  {
    if latest.Some? {
      StatusUnbound(k, latest.value, status);
      hide DecryptSecret;
      var es := StatusPlan(h, k, env, secretRef, latest, status, eventType, severity).effects;
      PlainTwo(p, k, es[0], es[1]);
    } else {
      RefusedMatches(p, k, SecretNotFound(secretRef));
    }
  }

  lemma GetMatches(h: VaultHeader, k: KeyHierarchy, p: PlainVault, env: Env, secretRef: string,
                   latest: Option<SecretRecord>)
    requires LatestIs(k, secretRef, p.Slots(secretRef), latest)
    ensures Matches(p, k, GetPlan(h, k, env, secretRef, latest), (p, PlainRead(p, secretRef)))
  {
    if latest.Some? {
      hide DecryptSecret, StatusString;
      var es := GetPlan(h, k, env, secretRef, latest).effects;
      PlainOne(p, k, es[0]);
    } else {
      RefusedMatches(p, k, SecretNotFound(secretRef));
    }
  }

  lemma NewJobShown(k: KeyHierarchy, id: string, vaultId: string, secretRef: string, version: nat, staged: SecretRecord,
                    value: seq<byte>, now: int)
    requires DecryptSecret(k, staged) == Ok(value)
    ensures var job := CreateJob(id, vaultId, secretRef, version, staged, now);
            job.jobId == id && PlainJobOf(k, job) == PlainJob(secretRef, version, value, StagedJob)
  {
    hide DecryptSecret;
  }

  lemma StartMatches(h: VaultHeader, k: KeyHierarchy, p: PlainVault, env: Env, secretRef: string, value: seq<byte>,
                     secretType: SecretType, latest: Option<nat>)
    requires Next(latest) == |p.Slots(secretRef)| + 1
    ensures Matches(p, k, StartPlan(h, k, env, secretRef, value, secretType, latest),
                    PlainStep(p, StartRotation(secretRef, value, secretType), env.freshId))
  {
    hide EncryptAt, DecryptSecret, MoveJob, EditLast, PlainRead, WriteSlot, Append, NewBinding, CreateJob, PlainJobOf;
    if "secret://" <= secretRef {
      var id := SecretIdFromRef(secretRef).value;
      var r := EncryptAt(h, k, env, id, secretRef, Next(latest), value, secretType);
      EncryptAtOk(h, k, env, id, secretRef, Next(latest), value, secretType);
      StatusUnbound(k, r, Staged);
      NewJobShown(k, env.freshId, h.vaultId, secretRef, Next(latest), r.(status := Staged), value, env.now);
      var es := StartPlan(h, k, env, secretRef, value, secretType, latest).effects;
      PlainTwo(p, k, es[0], es[1]);
    } else {
      RefusedMatches(p, k, InvalidSecretRef);
    }
  }

  /** `found` is the stored form of the plain job of that id. */
  ghost predicate JobIs(k: KeyHierarchy, p: PlainVault, id: string, found: Option<RotationJob>)
  {
    if id !in p.jobs then found.None?
    else
      && found.Some? && found.value.jobId == id && p.jobs[id] == PlainJobOf(k, found.value)
      && found.value.stagedRecord.secretRef == found.value.secretRef
      && found.value.stagedRecord.secretVersion == found.value.stagedVersion
      && DecryptSecret(k, found.value.stagedRecord) == Ok(p.jobs[id].value)
  }

  lemma JobMatches(s: Tables, k: KeyHierarchy, p: PlainVault, id: string)
    requires TablesOk(s, k) && Represents(s, k, p)
    ensures JobIs(k, p, id, Lookup(s.jobs, id))
  {
    hide DecryptSecret;
    if id in s.jobs {
      assert JobOk(s.jobs[id], s.records, k);
    }
  }

  lemma VerifyMatches(h: VaultHeader, k: KeyHierarchy, p: PlainVault, env: Env, id: string, found: Option<RotationJob>)
    requires JobIs(k, p, id, found)
    ensures Matches(p, k, VerifyPlan(h, k, env, id, found), MoveJob(p, id, {StagedJob}, Verified))
  {
    if found.Some? && found.value.status == StagedJob {
      hide DecryptSecret;
      var es := VerifyPlan(h, k, env, id, found).effects;
      PlainTwo(p, k, es[0], es[1]);
    } else {
      RefusedMatches(p, k, if found.None? then RotationJobNotFound else InvalidRotationState(found.value.status));
      hide DecryptSecret;
    }
  }

  lemma RollbackMatches(h: VaultHeader, k: KeyHierarchy, p: PlainVault, env: Env, id: string, found: Option<RotationJob>)
    requires JobIs(k, p, id, found)
    ensures Matches(p, k, RollbackPlan(h, k, env, id, found), MoveJob(p, id, {StagedJob, Verified}, RolledBack))
  {
    if found.Some? && found.value.status in {StagedJob, Verified} {
      hide DecryptSecret;
      var es := RollbackPlan(h, k, env, id, found).effects;
      PlainTwo(p, k, es[0], es[1]);
    } else {
      RefusedMatches(p, k, if found.None? then RotationJobNotFound else InvalidRotationState(found.value.status));
      hide DecryptSecret;
    }
  }

  lemma PromoteMatches(h: VaultHeader, k: KeyHierarchy, p: PlainVault, env: Env, id: string, found: Option<RotationJob>)
    requires JobIs(k, p, id, found)
    ensures Matches(p, k, PromotePlan(h, k, env, id, found), PlainStep(p, PromoteRotation(id), env.freshId))
  {
    hide DecryptSecret, WriteSlot;
    if found.Some? && found.value.status == Verified {
      StatusUnbound(k, found.value.stagedRecord, Active);
      var es := PromotePlan(h, k, env, id, found).effects;
      PlainFour(p, k, es[0], es[1], es[2], es[3]);
    } else {
      RefusedMatches(p, k, if found.None? then RotationJobNotFound else InvalidRotationState(found.value.status));
    }
  }

  lemma RewrapMatches(k: KeyHierarchy, p: PlainVault, env: Env, provider: string, newPassphrase: Option<string>,
                      device: string)
    requires HeaderOk(p.header, k)
    ensures Matches(p, k, RewrapPlan(p.header, k, env, provider, newPassphrase, device),
                    PlainStep(p, RewrapProvider(provider, newPassphrase, device), env.freshId))
  {
    hide NewBinding, ProviderId, MoveJob, EditLast, PlainRead, WriteSlot, Append, PlainJobOf, SlotOf, Audit.Appended;
    var binding := NewBinding(provider, newPassphrase, device, k.rootKey);
    if binding.Ok? {
      var es := RewrapPlan(p.header, k, env, provider, newPassphrase, device).effects;
      PlainTwo(p, k, es[0], es[1]);
    } else {
      RefusedMatches(p, k, binding.error);
    }
  }

  /** Writes that no plain vault shows. */
  predicate Silent(e: Effect)
  {
    !e.SaveHeader? && !e.SaveRecord? && !e.SaveJob?
  }

  lemma {:induction false} SilentAll(p: PlainVault, k: KeyHierarchy, es: seq<Effect>)
    requires forall i :: 0 <= i < |es| ==> Silent(es[i])
    ensures PlainDoAll(p, k, es) == p
    decreases |es|
  {
    if es != [] {
      SilentAll(p, k, es[1..]);
    }
  }

  lemma SilentWithin(es: seq<Effect>, kinds: set<Kind>)
    requires Within(es, kinds) && HeaderRow !in kinds && RecordRow !in kinds && JobRow !in kinds
    ensures forall i :: 0 <= i < |es| ==> Silent(es[i])
  {
  }

  /** Policies, tickets, configuration and verification leave the secrets alone. */
  predicate Unrelated(op: Op)
  {
    op.AddPolicy? || op.IssueTicket? || op.ValidateTicket? || op.RenewTicket? || op.ConsumeTicket?
    || op.RevokeTicket? || op.RevokeAllTickets? || op.SetPlaintextExport? || op.VerifyAudit?
  }

  lemma UnrelatedMatches(s: Tables, h: VaultHeader, k: KeyHierarchy, p: PlainVault, op: Op, env: Env)
    requires Unrelated(op)
    ensures Matches(p, k, PlanOf(s, h, k, op, env), PlainStep(p, op, env.freshId))
  {
    hide PlanOf, Within, Silent;
    PlanWithin(s, h, k, op, env);
    SilentWithin(PlanOf(s, h, k, op, env).effects, Writable(op));
    SilentAll(p, k, PlanOf(s, h, k, op, env).effects);
  }

  predicate OnSecret(op: Op)
  {
    op.Put? || op.EnrollTotp? || op.Get? || op.Disable? || op.Destroy? || op.StartRotation?
  }

  lemma SecretPlanMatches(s: Tables, k: KeyHierarchy, p: PlainVault, op: Op, env: Env)
    requires TablesOk(s, k) && Represents(s, k, p) && OnSecret(op)
    ensures Matches(p, k, PlanOf(s, p.header, k, op, env), PlainStep(p, op, env.freshId))
  {
    hide TablesOk, Represents, Matches, LatestIs, LatestVersion, LatestRecord, PutPlan, EnrollPlan, GetPlan, StatusPlan,
         StartPlan, EditLast, PlainRead, Append;
    var h := p.header;
    var ref := if op.EnrollTotp? then TOTP_SECRET_REF else op.secretRef;
    LatestMatches(s, k, p, ref);
    match op
    case Put(_, value, secretType) => PutMatches(h, k, p, env, ref, value, secretType, LatestVersion(s.records, ref));
    case EnrollTotp(value, details) => EnrollMatches(h, k, p, env, value, details, LatestVersion(s.records, ref));
    case Get(_) => GetMatches(h, k, p, env, ref, LatestRecord(s.records, ref));
    case Disable(_) =>
      StatusMatches(h, k, p, env, ref, LatestRecord(s.records, ref), Disabled, "secret.disabled", "high");
    case Destroy(_) =>
      StatusMatches(h, k, p, env, ref, LatestRecord(s.records, ref), Destroyed, "secret.destroyed", "critical");
    case StartRotation(_, value, secretType) =>
      StartMatches(h, k, p, env, ref, value, secretType, LatestVersion(s.records, ref));
  }

  lemma JobPlanMatches(s: Tables, k: KeyHierarchy, p: PlainVault, op: Op, env: Env)
    requires TablesOk(s, k) && Represents(s, k, p)
    requires op.VerifyRotation? || op.PromoteRotation? || op.RollbackRotation?
    ensures Matches(p, k, PlanOf(s, p.header, k, op, env), PlainStep(p, op, env.freshId))
  {
    hide TablesOk, Represents, Matches, JobIs, Lookup, VerifyPlan, PromotePlan, RollbackPlan, MoveJob, WriteSlot;
    var h, found := p.header, Lookup(s.jobs, op.jobId);
    JobMatches(s, k, p, op.jobId);
    match op
    case VerifyRotation(id) => VerifyMatches(h, k, p, env, id, found);
    case PromoteRotation(id) => PromoteMatches(h, k, p, env, id, found);
    case RollbackRotation(id) => RollbackMatches(h, k, p, env, id, found);
  }

  lemma PlanMatches(s: Tables, k: KeyHierarchy, p: PlainVault, op: Op, env: Env)
    requires TablesOk(s, k) && Represents(s, k, p)
    ensures Matches(p, k, PlanOf(s, p.header, k, op, env), PlainStep(p, op, env.freshId))
  {
    assert HeaderOk(p.header, k);
    hide TablesOk, Represents, Matches, PlainStep, RewrapPlan, HeaderOk;
    if OnSecret(op) {
      SecretPlanMatches(s, k, p, op, env);
    } else if op.VerifyRotation? || op.PromoteRotation? || op.RollbackRotation? {
      JobPlanMatches(s, k, p, op, env);
    } else if op.RewrapProvider? {
      RewrapMatches(k, p, env, op.provider, op.newPassphrase, op.device);
    } else {
      hide PlanOf;
      UnrelatedMatches(s, p.header, k, p, op, env);
    }
  }

  lemma StepShows(p: PlainVault, op: Op, newId: string)
    requires RootOf(p.header.binding).Some?
    ensures PlainStep(p, op, newId).1.Elsewhere? ==> Unrelated(op)
  {
  }

  lemma UnrelatedIdle(p: PlainVault, op: Op, passphrase: Option<string>, newId: string)
    requires Unrelated(op)
    ensures PlainExec(p, op, passphrase, newId).0 == p
  {
  }

  /** Whatever the state, an operation does to the plain vault what its plain counterpart does,
      and its reply shows the plain reply. */
  lemma ExecRefines(s: Tables, k: KeyHierarchy, p: PlainVault, op: Op, passphrase: Option<string>, env: Env)
    requires TablesOk(s, k) && FreshEnv(s, env) && Represents(s, k, p)
    ensures var (s', outcome) := Exec(s, op, passphrase, env);
            var (p', reply) := PlainExec(p, op, passphrase, env.freshId);
            && TablesOk(s', k)
            && Represents(s', k, p')
            && (!Unrelated(op) ==> Shown(k, outcome) == reply)
  {
    hide TablesOk, FreshEnv, Represents, PlanOf, Unlock, DoAll, PlainStep, HeaderOk, Precheck, Exec, Shown;
    UnlockHeld(s, k, passphrase);
    ExecKeeps(s, k, op, passphrase, env);
    HeaderHeld(s, k, p);
    var unlocked := Unlock(s.header, passphrase);
    if Unrelated(op) {
      UnrelatedIdle(p, op, passphrase, env.freshId);
    } else {
      NoPrecheckOf(s, op);
    }
    if Precheck(s, op).Err? || unlocked.Err? {
      ExecRefuses(s, op, passphrase, env);
      ErrorShown(k, Exec(s, op, passphrase, env).1);
    } else {
      var h := unlocked.value.0;
      ExecIs(s, h, k, op, passphrase, env);
      PlanRefines(s, k, p, op, env);
    }
  }

  lemma PlanRefines(s: Tables, k: KeyHierarchy, p: PlainVault, op: Op, env: Env)
    requires TablesOk(s, k) && FreshEnv(s, env) && Represents(s, k, p)
    ensures var plan := PlanOf(s, p.header, k, op, env);
            var (p', reply) := PlainStep(p, op, env.freshId);
            Represents(DoAll(s, plan.effects), k, p') && (!Unrelated(op) ==> Shown(k, plan.outcome) == reply)
  {
    HeaderHeld(s, k, p);
    hide TablesOk, FreshEnv, Represents, PlanOf, DoAll, PlainDoAll, PlainStep, HeaderOk, EffectOk;
    var plan := PlanOf(s, p.header, k, op, env);
    PlanMatches(s, k, p, op, env);
    PlanOfOk(s, p.header, k, op, env);
    PlanFresh(s, k, env, plan);
    DoAllRepresented(s, k, p, plan.effects);
    StepShows(p, op, env.freshId);
    hide Shown;
  }

  lemma HeaderHeld(s: Tables, k: KeyHierarchy, p: PlainVault)
    requires TablesOk(s, k) && Represents(s, k, p)
    ensures s.header == Some(p.header) && HeaderOk(p.header, k) && RootOf(p.header.binding).Some?
  {
  }

  lemma NoPrecheckOf(s: Tables, op: Op)
    requires !Unrelated(op)
    ensures Precheck(s, op).Ok?
  {
    hide ExportCheck;
  }

  lemma ErrorShown(k: KeyHierarchy, outcome: Outcome)
    ensures outcome.Err? ==> Shown(k, outcome) == PlainError(outcome.error)
  {
  }

  // ---- Whole runs ----

  function PlainRun(p: PlainVault, calls: seq<Call>): PlainVault
    decreases |calls|
  {
    if calls == [] then p
    else PlainRun(PlainExec(p, calls[0].op, calls[0].passphrase, calls[0].env.freshId).0, calls[1..])
  }

  lemma CreatedRepresents(h: VaultHeader, k: KeyHierarchy, env: Env, details: map<string, Audit.Json>)
    ensures Represents(Created(h, k, env, details), k, PlainVault(h, map[], map[]))
  {
  }

  lemma {:induction false} SeriesRefines(s: Tables, k: KeyHierarchy, p: PlainVault, calls: seq<Call>)
    requires TablesOk(s, k) && Represents(s, k, p) && FreshCalls(s, calls)
    ensures Represents(Series(s, calls), k, PlainRun(p, calls))
    decreases |calls|
  {
    hide TablesOk, Represents, Exec, FreshEnv, PlainExec;
    if calls != [] {
      var c := calls[0];
      ExecRefines(s, k, p, c.op, c.passphrase, c.env);
      SeriesRefines(Exec(s, c.op, c.passphrase, c.env).0, k, PlainExec(p, c.op, c.passphrase, c.env.freshId).0, calls[1..]);
    }
  }

  /** After any run from creation, the next call replies what the plain vault replies after the
      same run. For reads: what comes back is the last value put or promoted there, unless its
      slot was disabled or destroyed. */
  lemma RunRefines(h: VaultHeader, k: KeyHierarchy, env: Env, details: map<string, Audit.Json>, calls: seq<Call>, next: Call)
    requires HeaderOk(h, k)
    requires var s := Created(h, k, env, details);
             FreshCalls(s, calls) && FreshEnv(Series(s, calls), next.env)
    ensures var s, p := Series(Created(h, k, env, details), calls), PlainRun(PlainVault(h, map[], map[]), calls);
            !Unrelated(next.op) ==>
              Shown(k, Exec(s, next.op, next.passphrase, next.env).1) ==
              PlainExec(p, next.op, next.passphrase, next.env.freshId).1
  {
    var s, p := Created(h, k, env, details), PlainVault(h, map[], map[]);
    CreatedOk(h, k, env, details);
    CreatedRepresents(h, k, env, details);
    hide TablesOk, Represents, Exec, FreshEnv, FreshCalls, PlainExec, Series, PlainRun, Created, HeaderOk;
    SeriesRefines(s, k, p, calls);
    SeriesKeeps(s, k, calls);
    ExecRefines(Series(s, calls), k, PlainRun(p, calls), next.op, next.passphrase, next.env);
  }

  /** The moves a rotation job can make. */
  predicate Moves(a: RotationJobStatus, b: RotationJobStatus)
  {
    || a == b
    || (a == StagedJob && b == Verified)
    || (a == Verified && b == Promoted)
    || (a in {StagedJob, Verified} && b == RolledBack)
  }

  lemma PlainJobMoves(p: PlainVault, op: Op, passphrase: Option<string>, newId: string, id: string)
    requires id in p.jobs && newId !in p.jobs
    ensures var p' := PlainExec(p, op, passphrase, newId).0;
            id in p'.jobs && Moves(p.jobs[id].status, p'.jobs[id].status)
            && p'.jobs[id] == p.jobs[id].(status := p'.jobs[id].status)
  {
  }

  /** In serial runs every job only moves forward; promoted and rolled back are final, and no
      job ever fails. */
  lemma {:induction false} JobLifecycle(s: Tables, k: KeyHierarchy, p: PlainVault, calls: seq<Call>, id: string)
    requires TablesOk(s, k) && Represents(s, k, p) && FreshCalls(s, calls) && id in s.jobs
    ensures var s' := Series(s, calls);
            && id in s'.jobs && JobCore(s'.jobs[id]) == JobCore(s.jobs[id])
            && (s.jobs[id].status in {Promoted, RolledBack} ==> s'.jobs[id].status == s.jobs[id].status)
            && s'.jobs[id].status != Failed
            && (|calls| == 1 ==> Moves(s.jobs[id].status, s'.jobs[id].status))
    decreases |calls|
  {
    hide Exec, FreshEvent, PlainExec, TablesOk, Represents;
    JobShown(s, k, p, id);
    if calls != [] {
      var c := calls[0];
      var s', p' := Exec(s, c.op, c.passphrase, c.env).0, PlainExec(p, c.op, c.passphrase, c.env.freshId).0;
      ExecRefines(s, k, p, c.op, c.passphrase, c.env);
      ExecKeeps(s, k, c.op, c.passphrase, c.env);
      NoNewJob(s, k, p, c.env);
      PlainJobMoves(p, c.op, c.passphrase, c.env.freshId, id);
      JobKept(s, s', id);
      JobShown(s', k, p', id);
      JobLifecycle(s', k, p', calls[1..], id);
    }
  }

  lemma JobShown(s: Tables, k: KeyHierarchy, p: PlainVault, id: string)
    requires TablesOk(s, k) && Represents(s, k, p) && id in s.jobs
    ensures id in p.jobs && p.jobs[id].status == s.jobs[id].status && s.jobs[id].status != Failed
  {
    assert JobsMatch(s.jobs, k, p.jobs) && JobOk(s.jobs[id], s.records, k);
  }

  lemma NoNewJob(s: Tables, k: KeyHierarchy, p: PlainVault, env: Env)
    requires Represents(s, k, p) && FreshEnv(s, env)
    ensures env.freshId !in p.jobs
  {
  }

  lemma JobKept(a: Tables, b: Tables, id: string)
    requires Grows(a, b) && id in a.jobs
    ensures id in b.jobs && JobCore(b.jobs[id]) == JobCore(a.jobs[id])
  {
  }

  /** Versions are not write-once: a rotation reserves the next version without storing it, so a
      value put in the meantime is replaced, under the same version number, by the promotion. */
  lemma PromotionReplacesPut(p: PlainVault, secretRef: string, staged: seq<byte>, put: seq<byte>, secretType: SecretType,
                             id: string, putId: string, verifyId: string, promoteId: string)
    requires "secret://" <= secretRef
    ensures var n := |p.Slots(secretRef)| + 1;
            var p1 := PlainStep(p, StartRotation(secretRef, staged, secretType), id).0;
            var (p2, reply) := PlainStep(p1, Put(secretRef, put, secretType), putId);
            var p3 := PlainStep(p2, VerifyRotation(id), verifyId).0;
            var p4 := PlainStep(p3, PromoteRotation(id), promoteId).0;
            && reply == PlainVersion(n) && PlainRead(p2, secretRef) == PlainValue(put)
            && p2.Slots(secretRef) == p.Slots(secretRef) + [Slot(put, Active)]
            && p4.Slots(secretRef) == p.Slots(secretRef) + [Slot(staged, Active)]
  {
    var before := p.Slots(secretRef);
    assert (before + [Slot(put, Active)])[|before| := Slot(staged, Active)] == before + [Slot(staged, Active)];
  }
}
