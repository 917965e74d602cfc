/** When a promoted or rolled-back rotation job keeps its status although processes overlap: exactly
    while no process still has an older decision about it to write. */
module Finality {
  import opened Keys
  import opened Envelope
  import opened Rotation
  import opened Store
  import opened Operations
  import opened Writes
  import opened Invariants
  import opened Soundness
  import opened Interleaving
  import opened Progress

  predicate IsFinal(status: RotationJobStatus)
  {
    status == Promoted || status == RolledBack
  }

  /** A write that gives job `id` a status other than `status`. */
  predicate Overwrites(e: Effect, id: string, status: RotationJobStatus)
  {
    e.SaveJob? && e.job.jobId == id && e.job.status != status && e.job.status != StagedJob
  }

  /** Some process has such a write pending. */
  ghost predicate Threatened(w: World, id: string, status: RotationJobStatus)
  {
    exists process, i :: process in w.pcs && w.pcs[process].Writing? && 0 <= i < |w.pcs[process].effects|
      && Overwrites(w.pcs[process].effects[i], id, status)
  }

  /** The job has this status. */
  predicate Rests(s: Tables, id: string, status: RotationJobStatus)
  {
    id in s.jobs && s.jobs[id].status == status
  }

  // ---- New plans respect a final status ----

  ghost predicate Respects(effects: seq<Effect>, id: string, status: RotationJobStatus)
  {
    forall i :: 0 <= i < |effects| ==> !Overwrites(effects[i], id, status)
  }

  /** Rotation plans: a job in a final state is left alone. */
  lemma JobPlansRespect(s: Tables, h: VaultHeader, k: KeyHierarchy, op: Op, env: Env, id: string, status: RotationJobStatus)
    requires JobRow in Writable(op) && IsFinal(status) && Rests(s, id, status)
    requires forall j <- s.jobs :: s.jobs[j].jobId == j
    ensures Respects(PlanOf(s, h, k, op, env).effects, id, status)
  {
    hide EncryptAt, DecryptSecret, LatestVersion, SecretIdFromRef, PutPlan, EnrollPlan, GetPlan, StatusPlan, AddPolicyPlan,
         IssuePlan, RenewPlan, ConsumePlan, RevokePlan, RevokeAllPlan, RewrapPlan, ExportConfigPlan, VerifyAuditPlan,
         CheckedTicket;
  }

  lemma JoblessRespects(es: seq<Effect>, kinds: set<Kind>, id: string, status: RotationJobStatus)
    requires Within(es, kinds) && JobRow !in kinds
    ensures Respects(es, id, status)
  {
  }

  lemma PlanRespects(s: Tables, k: KeyHierarchy, h: VaultHeader, held: KeyHierarchy, op: Op, env: Env, id: string,
                     status: RotationJobStatus)
    requires TablesOk(s, k) && IsFinal(status) && Rests(s, id, status)
    ensures Respects(PlanOf(s, h, held, op, env).effects, id, status)
  {
    hide TablesOk, PlanOf, Respects, Within;
    if JobRow in Writable(op) {
      JobKeys(s, k);
      JobPlansRespect(s, h, held, op, env, id, status);
    } else {
      PlanWithin(s, h, held, op, env);
      JoblessRespects(PlanOf(s, h, held, op, env).effects, Writable(op), id, status);
    }
  }

  lemma JobKeys(s: Tables, k: KeyHierarchy)
    requires TablesOk(s, k)
    ensures forall j <- s.jobs :: s.jobs[j].jobId == j
  {
    hide JobOk, RecordsOk, TicketsOk, Audit.Verifies;
  }

  ghost predicate Quiet(pc: Pc, id: string, status: RotationJobStatus)
  {
    pc.Writing? ==> Respects(pc.effects, id, status)
  }

  /** What a process plans when it reads leaves a final status alone. */
  lemma ReadQuiet(s: Tables, k: KeyHierarchy, pc: Pc, id: string, status: RotationJobStatus)
    requires TablesOk(s, k) && IsFinal(status) && Rests(s, id, status) && !pc.Writing?
    ensures Quiet(ReadStep(s, pc), id, status)
  {
    hide TablesOk, ReadStep, PlanOf, Respects, Within;
    ReadShape(s, pc);
    if pc.Unlocked? {
      PlanRespects(s, k, pc.h, pc.k, pc.op, pc.env, id, status);
    }
    var next := ReadStep(s, pc);
    if next.Writing? && Within(next.effects, {TicketRow, EventRow}) {
      JoblessRespects(next.effects, {TicketRow, EventRow}, id, status);
    }
  }

  // ---- Steps ----

  ghost predicate AllQuiet(w: World, id: string, status: RotationJobStatus)
  {
    forall process <- w.pcs :: Quiet(w.pcs[process], id, status)
  }

  lemma QuietExact(w: World, id: string, status: RotationJobStatus)
    ensures AllQuiet(w, id, status) <==> !Threatened(w, id, status)
  {
    if !AllQuiet(w, id, status) {
      var process :| process in w.pcs && !Quiet(w.pcs[process], id, status);
      var i :| 0 <= i < |w.pcs[process].effects| && Overwrites(w.pcs[process].effects[i], id, status);
    }
  }

  lemma WriteRests(s: Tables, k: KeyHierarchy, e: Effect, id: string, status: RotationJobStatus)
    requires Rests(s, id, status) && EffectOk(s, k, e) && Fresh(s, e) && !Overwrites(e, id, status)
    ensures Rests(Do(s, e), id, status)
  {
    hide TicketOk, RecordOk, HeaderOk, DecryptSecret;
  }

  lemma StepQuiet(s: Tables, k: KeyHierarchy, pc: Pc, id: string, status: RotationJobStatus)
    requires TablesOk(s, k) && PcOk(s, k, pc) && IsFinal(status) && Rests(s, id, status) && Quiet(pc, id, status)
    ensures Rests(Advanced(s, pc).0, id, status) && Quiet(Advanced(s, pc).1, id, status)
  {
    hide TablesOk, ReadStep, Fresh, EffectOk, SwapApplies, Used, HeaderOk, TicketSeen;
    if Swapping(s, pc) {
      hide PcOk;
    } else if pc.Writing? && pc.effects != [] {
      hide Overwrites;
      if Fresh(s, pc.effects[0]) {
        WriteRests(s, k, pc.effects[0], id, status);
      }
      hide Do;
    } else if pc.Writing? {
      EmptyStays(s, pc);
    } else {
      ReadQuiet(s, k, pc, id, status);
    }
  }

  lemma NextQuiet(w: World, k: KeyHierarchy, event: Event, id: string, status: RotationJobStatus)
    requires WorldOk(w, k) && IsFinal(status) && Rests(w.tables, id, status) && AllQuiet(w, id, status)
    ensures Rests(Interleaving.Next(w, event).tables, id, status) && AllQuiet(Interleaving.Next(w, event), id, status)
  {
    hide TablesOk, PcOk, Advanced, Respects, Rests, Budget;
    if event.Advance? {
      AtOk(w, k, event.process);
      StepQuiet(w.tables, k, w.At(event.process), id, status);
    }
  }

  lemma {:induction false} RunQuiet(w: World, k: KeyHierarchy, events: seq<Event>, id: string, status: RotationJobStatus)
    requires WorldOk(w, k) && IsFinal(status) && Rests(w.tables, id, status) && AllQuiet(w, id, status)
    ensures Rests(Run(w, events).tables, id, status)
    decreases |events|
  {
    hide WorldOk, Interleaving.Next, AllQuiet, Rests;
    if events != [] {
      NextKeeps(w, k, events[0]);
      NextQuiet(w, k, events[0], id, status);
      RunQuiet(Interleaving.Next(w, events[0]), k, events[1..], id, status);
    }
  }

  // ---- The exact condition ----

  /** In any reachable world, a promoted job stays promoted in every continuation, and a rolled-back
      one rolled back, exactly if no process has another status for it still to write. */
  lemma FinalExact(w: World, k: KeyHierarchy, id: string, status: RotationJobStatus)
    requires Reachable(w, k) && IsFinal(status) && Rests(w.tables, id, status)
    ensures (forall events :: Rests(Run(w, events).tables, id, status)) <==> !Threatened(w, id, status)
  {
    hide Run, Reachable, WorldOk;
    ReachableUnblocked(w, k);
    QuietExact(w, id, status);
    if Threatened(w, id, status) {
      var process, i :| process in w.pcs && w.pcs[process].Writing? && 0 <= i < |w.pcs[process].effects|
        && Overwrites(w.pcs[process].effects[i], id, status);
      assert Unblocked(w.pcs[process]) && InsertOf(w.pcs[process].effects[i]).None?;
      var events := Drain(w, process, i);
      assert !Rests(Run(w, events).tables, id, status);
    } else {
      forall events ensures Rests(Run(w, events).tables, id, status) {
        RunQuiet(w, k, events, id, status);
      }
    }
  }
}
