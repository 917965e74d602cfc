/** Pending writes of records and jobs can be carried out: planned operations insert nothing before
    them, so only a used identifier can hold up a new job. */
module Progress {
  import opened Wrappers
  import opened Keys
  import opened Envelope
  import opened Rotation
  import opened Ordering
  import opened Store
  import opened Operations
  import opened Writes
  import opened Invariants
  import opened Interleaving

  predicate OfSecrets(e: Effect)
  {
    e.SaveRecord? || e.SaveJob?
  }

  predicate Ready(es: seq<Effect>)
  {
    && (forall i, j :: 0 <= j < i < |es| && OfSecrets(es[i]) ==> InsertOf(es[j]).None?)
    && (forall i :: 0 < i < |es| && es[i].SaveJob? ==> es[i].job.status != StagedJob)
  }

  predicate Unblocked(pc: Pc)
  {
    pc.Writing? ==> Ready(pc.effects)
  }

  ghost predicate AllUnblocked(w: World)
  {
    forall process <- w.pcs :: Unblocked(w.pcs[process])
  }

  // ---- Plans ----

  lemma WithinReady(es: seq<Effect>, kinds: set<Kind>)
    requires Within(es, kinds) && RecordRow !in kinds && JobRow !in kinds
    ensures Ready(es)
  {
  }

  lemma SecretPlansReady(h: VaultHeader, k: KeyHierarchy, env: Env, secretRef: string, value: seq<byte>,
                         secretType: SecretType, details: map<string, Audit.Json>, latest: Option<nat>)
    ensures Ready(PutPlan(h, k, env, secretRef, value, secretType, latest).effects)
    ensures Ready(EnrollPlan(h, k, env, value, details, latest).effects)
    ensures Ready(StartPlan(h, k, env, secretRef, value, secretType, latest).effects)
  {
    hide EncryptAt, SecretIdFromRef, Operations.Next;
  }

  lemma StatusReady(h: VaultHeader, k: KeyHierarchy, env: Env, secretRef: string, latest: Option<SecretRecord>,
                    status: SecretStatus, eventType: string, severity: string)
    ensures Ready(StatusPlan(h, k, env, secretRef, latest, status, eventType, severity).effects)
  {
  }

  lemma JobPlansReady(h: VaultHeader, k: KeyHierarchy, env: Env, id: string, found: Option<RotationJob>)
    ensures Ready(VerifyPlan(h, k, env, id, found).effects)
    ensures Ready(PromotePlan(h, k, env, id, found).effects)
    ensures Ready(RollbackPlan(h, k, env, id, found).effects)
  {
    hide DecryptSecret;
  }

  predicate WritesSecrets(op: Op)
  {
    RecordRow in Writable(op) || JobRow in Writable(op)
  }

  lemma SecretWritesReady(s: Tables, h: VaultHeader, k: KeyHierarchy, op: Op, env: Env)
    requires WritesSecrets(op)
    ensures Ready(PlanOf(s, h, k, op, env).effects)
  {
    hide Ready, PutPlan, EnrollPlan, StartPlan, StatusPlan, VerifyPlan, PromotePlan, RollbackPlan, GetPlan, AddPolicyPlan,
         IssuePlan, RenewPlan, ConsumePlan, RevokePlan, RevokeAllPlan, RewrapPlan, ExportConfigPlan, VerifyAuditPlan,
         CheckedTicket, LatestVersion, LatestRecord, Lookup;
    match op
    case Put(ref, value, secretType) =>
      SecretPlansReady(h, k, env, ref, value, secretType, map[], LatestVersion(s.records, ref));
    case EnrollTotp(value, details) =>
      SecretPlansReady(h, k, env, "", value, Token, details, LatestVersion(s.records, TOTP_SECRET_REF));
    case StartRotation(ref, value, secretType) =>
      SecretPlansReady(h, k, env, ref, value, secretType, map[], LatestVersion(s.records, ref));
    case Disable(ref) => StatusReady(h, k, env, ref, LatestRecord(s.records, ref), Disabled, "secret.disabled", "high");
    case Destroy(ref) => StatusReady(h, k, env, ref, LatestRecord(s.records, ref), Destroyed, "secret.destroyed", "critical");
    case VerifyRotation(id) => JobPlansReady(h, k, env, id, Lookup(s.jobs, id));
    case PromoteRotation(id) => JobPlansReady(h, k, env, id, Lookup(s.jobs, id));
    case RollbackRotation(id) => JobPlansReady(h, k, env, id, Lookup(s.jobs, id));
  }

  lemma PlanReady(s: Tables, h: VaultHeader, k: KeyHierarchy, op: Op, env: Env)
    ensures Ready(PlanOf(s, h, k, op, env).effects)
  {
    hide PlanOf, Ready, Within;
    if WritesSecrets(op) {
      SecretWritesReady(s, h, k, op, env);
    } else {
      PlanWithin(s, h, k, op, env);
      WithinReady(PlanOf(s, h, k, op, env).effects, Writable(op));
    }
  }

  // ---- Reads ----

  lemma CarryReady(plan: Plan)
    requires Ready(plan.effects)
    ensures Unblocked(Carry(plan))
  {
    hide Ready;
  }

  /** What a process that is about to plan from one read of tickets or policies will write. */
  lemma OtherPlansWithin(s: Tables, pc: Pc)
    ensures pc.Found? && pc.op.IssueTicket? ==>
              Within(IssuePlan(pc.h, pc.k, pc.env, pc.op.request, pc.record, Listing(s.policies)).effects, {TicketRow, EventRow})
    ensures pc.Checked? && pc.op.RenewTicket? ==>
              Within(RenewPlan(pc.h, pc.k, pc.env, pc.ticket, pc.op.request, ActivePolicy(s, pc.ticket)).effects,
                     {TicketRow, EventRow})
    ensures pc.Swapped? && pc.op.ConsumeTicket? ==>
              Within(MaterializePlan(pc.h, pc.k, pc.env, pc.ticket, pc.op.request, ReadForTicket(s.records, pc.ticket)).effects,
                     {EventRow})
  {
    hide IssuePlan, RenewPlan, MaterializePlan, Within, Listing, ActivePolicy, ReadForTicket;
    if pc.Found? && pc.op.IssueTicket? {
      IssueWithin(pc.h, pc.k, pc.env, pc.op.request, pc.record, Listing(s.policies));
    } else if pc.Checked? && pc.op.RenewTicket? {
      RenewWithin(pc.h, pc.k, pc.env, pc.ticket, pc.op.request, ActivePolicy(s, pc.ticket));
    } else if pc.Swapped? && pc.op.ConsumeTicket? {
      MaterializeWithin(pc.h, pc.k, pc.env, pc.ticket, pc.op.request, ReadForTicket(s.records, pc.ticket));
    }
  }

  /** A reading process plans a whole operation at once, or tickets and events only, or nothing. */
  lemma ReadShape(s: Tables, pc: Pc)
    requires !pc.Writing?
    ensures var next := ReadStep(s, pc);
            next.Writing? ==>
              || (pc.Unlocked? && next.effects == PlanOf(s, pc.h, pc.k, pc.op, pc.env).effects)
              || Within(next.effects, {TicketRow, EventRow})
  {
    hide IssuePlan, RenewPlan, MaterializePlan, PlanOf, Listing, ActivePolicy, ReadForTicket, LatestRecord, Unlock,
         PolicyCheck, CurrencyCheck, TotpEnrolled, LoadStep, FirstRead;
    OtherPlansWithin(s, pc);
    if pc.Unlocked? {
      FirstReadShape(s, pc);
    } else if pc.Reunlocked? && OnTicket(pc.op) {
      LoadsOnly(s, pc.op, pc.env, pc.h, pc.k);
    }
  }

  lemma LoadsOnly(s: Tables, op: Op, env: Env, h: VaultHeader, k: KeyHierarchy)
    requires OnTicket(op)
    ensures !LoadStep(s, op, env, h, k).Writing?
  {
  }

  lemma FirstReadShape(s: Tables, pc: Pc)
    requires pc.Unlocked?
    ensures var next := FirstRead(s, pc.op, pc.passphrase, pc.env, pc.h, pc.k);
            next.Writing? ==> next.effects == PlanOf(s, pc.h, pc.k, pc.op, pc.env).effects
  {
    hide PlanOf, LatestRecord, Unlock, LoadStep;
    if OnTicket(pc.op) {
      LoadsOnly(s, pc.op, pc.env, pc.h, pc.k);
    }
  }

  lemma ReadUnblocked(s: Tables, pc: Pc)
    requires !pc.Writing?
    ensures Unblocked(ReadStep(s, pc))
  {
    hide ReadStep, PlanOf, Ready, Within;
    ReadShape(s, pc);
    var next := ReadStep(s, pc);
    if pc.Unlocked? {
      PlanReady(s, pc.h, pc.k, pc.op, pc.env);
    }
    if next.Writing? && Within(next.effects, {TicketRow, EventRow}) {
      WithinReady(next.effects, {TicketRow, EventRow});
    }
  }

  // ---- Steps and runs ----

  lemma RestReady(es: seq<Effect>)
    requires Ready(es) && es != []
    ensures Ready(es[1..])
  {
  }

  lemma StepUnblocked(s: Tables, pc: Pc)
    requires Unblocked(pc)
    ensures Unblocked(Advanced(s, pc).1)
  {
    hide ReadStep, Swapping, Fresh, Do, Used, Ready;
    if pc.Writing? {
      if pc.effects != [] {
        RestReady(pc.effects);
      }
      EmptyStays(s, pc);
    } else {
      ReadUnblocked(s, pc);
    }
  }

  lemma EmptyStays(s: Tables, pc: Pc)
    requires pc.Writing?
    ensures ReadStep(s, pc) == pc && !Swapping(s, pc)
  {
  }

  lemma NextUnblocked(w: World, event: Event)
    requires AllUnblocked(w)
    ensures AllUnblocked(Interleaving.Next(w, event))
  {
    hide Advanced, Swapping, Ready;
    if event.Advance? {
      StepUnblocked(w.tables, w.At(event.process));
    }
  }

  lemma {:induction false} RunUnblocked(w: World, events: seq<Event>)
    requires AllUnblocked(w)
    ensures AllUnblocked(Run(w, events))
    decreases |events|
  {
    hide AllUnblocked, Interleaving.Next;
    if events != [] {
      NextUnblocked(w, events[0]);
      RunUnblocked(Interleaving.Next(w, events[0]), events[1..]);
    }
  }

  lemma ReachableUnblocked(w: World, k: KeyHierarchy)
    requires Reachable(w, k)
    ensures WorldOk(w, k) && AllUnblocked(w)
  {
    hide Created, HeaderOk, Run, WorldOk, Unblocked;
    ReachableOk(w, k);
    var h, env, details, events :| HeaderOk(h, k) && w == Run(Opened(h, k, env, details), events);
    RunUnblocked(Opened(h, k, env, details), events);
  }

  // ---- Carrying out ----

  /** The row holds what was written. */
  predicate Written(s: Tables, e: Effect)
  {
    && (e.SaveRecord? ==>
          var key := (e.record.secretRef, e.record.secretVersion); key in s.records && s.records[key] == e.record)
    && (e.SaveJob? ==> e.job.jobId in s.jobs && s.jobs[e.job.jobId] == e.job)
  }

  lemma WrittenAfter(s: Tables, e: Effect)
    ensures Written(Do(s, e), e)
  {
  }

  /** A pending write of a record or job can be carried out by its process alone, unless it is a new
      job whose identifier is taken. */
  lemma {:induction false} Drain(w: World, process: nat, i: nat) returns (events: seq<Event>)
    requires w.At(process).Writing? && i < |w.At(process).effects| && Ready(w.At(process).effects)
    requires OfSecrets(w.At(process).effects[i]) && Fresh(w.tables, w.At(process).effects[i])
    ensures Written(Run(w, events).tables, w.At(process).effects[i])
    decreases i
  {
    hide Do, Written, IdUsed;
    var pc := w.At(process);
    var e, v := pc.effects[i], Interleaving.Next(w, Advance(process));
    if i > 0 {
      assert InsertOf(pc.effects[0]).None?;
    }
    assert Fresh(w.tables, pc.effects[0]);
    assert v.tables == Do(w.tables, pc.effects[0]);
    if i == 0 {
      events := [Advance(process)];
      assert events[1..] == [];
      assert Run(w, events) == Run(v, []);
      WrittenAfter(w.tables, e);
    } else {
      var rest := pc.effects[1..];
      RestReady(pc.effects);
      assert v.At(process) == Writing(rest, pc.outcome);
      assert rest[i - 1] == e && InsertOf(e).None?;
      var more := Drain(v, process, i - 1);
      events := [Advance(process)] + more;
      assert events[1..] == more;
    }
  }
}
