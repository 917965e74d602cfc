/** When a stored version keeps its value although processes overlap: exactly while no process has
    another value for it still to write, and no open or pending rotation job holds one. */
module Durability {
  import opened Wrappers
  import opened Keys
  import opened Envelope
  import opened Rotation
  import opened Tickets
  import opened Store
  import opened Operations
  import opened Writes
  import opened Invariants
  import opened Soundness
  import opened Interleaving
  import opened Progress
  import opened Lasting
  import opened Race

  /** A version of a reference with its value. */
  datatype Slot = Slot(secretRef: string, version: nat, value: seq<byte>)

  /** The write gives the version another value, or adds an open job that can. */
  ghost predicate Alters(s: Tables, k: KeyHierarchy, e: Effect, x: Slot)
  {
    || (e.SaveRecord? && e.record.secretRef == x.secretRef && e.record.secretVersion == x.version
        && Refinement.Opened(k, e.record) != x.value)
    || (e.SaveJob? && Rival(e.job, k, x.secretRef, x.version, x.value) && Fresh(s, e))
  }

  /** Some process has such a write pending, or such a job is stored. */
  ghost predicate Contested(w: World, k: KeyHierarchy, x: Slot)
  {
    || Rivalled(w.tables, k, x.secretRef, x.version, x.value)
    || exists process, i :: process in w.pcs && w.pcs[process].Writing? && 0 <= i < |w.pcs[process].effects|
         && Alters(w.tables, k, w.pcs[process].effects[i], x)
  }

  ghost predicate Holds(s: Tables, k: KeyHierarchy, x: Slot)
  {
    (x.secretRef, x.version) in s.records && ValueAt(s, k, x.secretRef, x.version) == x.value
  }

  ghost predicate Settled(s: Tables, k: KeyHierarchy, x: Slot)
  {
    Holds(s, k, x) && !Rivalled(s, k, x.secretRef, x.version, x.value)
  }

  ghost predicate Calm(s: Tables, k: KeyHierarchy, es: seq<Effect>, x: Slot)
  {
    forall i :: 0 <= i < |es| ==> !Alters(s, k, es[i], x)
  }

  ghost predicate CalmPc(s: Tables, k: KeyHierarchy, pc: Pc, x: Slot)
  {
    pc.Writing? ==> Calm(s, k, pc.effects, x)
  }

  ghost predicate AllCalm(w: World, k: KeyHierarchy, x: Slot)
  {
    Settled(w.tables, k, x) && forall process <- w.pcs :: CalmPc(w.tables, k, w.pcs[process], x)
  }

  // ---- New plans do not alter it ----

  lemma CalmWithin(s: Tables, k: KeyHierarchy, es: seq<Effect>, kinds: set<Kind>, x: Slot)
    requires Within(es, kinds) && RecordRow !in kinds && JobRow !in kinds
    ensures Calm(s, k, es, x)
  {
  }

  lemma StoredBelow(s: Tables, k: KeyHierarchy, secretRef: string, x: Slot)
    requires TablesOk(s, k) && Settled(s, k, x)
    ensures secretRef == x.secretRef ==> Operations.Next(LatestVersion(s.records, secretRef)) > x.version
  {
    VersionsExact(s.records, k, x.secretRef);
    hide TablesOk, LatestVersion, ValueAt, Rivalled;
  }

  /** A new version follows all stored ones. */
  lemma AddedCalm(s: Tables, h: VaultHeader, k: KeyHierarchy, env: Env, secretRef: string, value: seq<byte>,
                  secretType: SecretType, details: map<string, Audit.Json>, latest: Option<nat>, x: Slot)
    requires secretRef == x.secretRef ==> Operations.Next(latest) > x.version
    ensures Calm(s, k, PutPlan(h, k, env, secretRef, value, secretType, latest).effects, x)
    ensures secretRef == TOTP_SECRET_REF ==> Calm(s, k, EnrollPlan(h, k, env, value, details, latest).effects, x)
    ensures Calm(s, k, StartPlan(h, k, env, secretRef, value, secretType, latest).effects, x)
  {
    hide EncryptAt, Operations.Next, Refinement.Opened, Fresh;
    var id := SecretIdFromRef(secretRef);
    if id.Some? {
      EncryptAtOk(h, k, env, id.value, secretRef, Operations.Next(latest), value, secretType);
      EncryptAtOk(h, k, env, id.value, secretRef, Operations.Next(latest), value, Token);
    }
    hide SecretIdFromRef, DecryptSecret;
  }

  lemma SameOpened(k: KeyHierarchy, r: SecretRecord, status: SecretStatus)
    ensures Refinement.Opened(k, r.(status := status)) == Refinement.Opened(k, r)
  {
    StatusUnbound(k, r, status);
    hide DecryptSecret;
  }

  /** The latest record is written back with its value. */
  lemma StatusCalm(s: Tables, h: VaultHeader, k: KeyHierarchy, env: Env, secretRef: string, status: SecretStatus,
                   eventType: string, severity: string, x: Slot)
    requires TablesOk(s, k) && Settled(s, k, x)
    ensures Calm(s, k, StatusPlan(h, k, env, secretRef, LatestRecord(s.records, secretRef), status, eventType, severity).effects, x)
  {
    hide TablesOk, Rivalled, Refinement.Opened;
    var latest := LatestRecord(s.records, secretRef);
    if latest.Some? {
      LatestKey(s, k, secretRef);
      SameOpened(k, latest.value, status);
    }
    hide LatestRecord;
  }

  lemma LatestKey(s: Tables, k: KeyHierarchy, secretRef: string)
    requires TablesOk(s, k) && LatestRecord(s.records, secretRef).Some?
    ensures var r := LatestRecord(s.records, secretRef).value;
            (r.secretRef, r.secretVersion) in s.records && s.records[(r.secretRef, r.secretVersion)] == r
  {
    hide RecordOk, TicketsOk, JobsOk, Follows, Audit.Verifies;
  }

  /** A job moved on is a rival only if it was one; a promoted one brings its own value. */
  lemma JobCalm(s: Tables, h: VaultHeader, k: KeyHierarchy, env: Env, id: string, x: Slot)
    requires TablesOk(s, k) && Settled(s, k, x)
    ensures Calm(s, k, VerifyPlan(h, k, env, id, Lookup(s.jobs, id)).effects, x)
    ensures Calm(s, k, PromotePlan(h, k, env, id, Lookup(s.jobs, id)).effects, x)
    ensures Calm(s, k, RollbackPlan(h, k, env, id, Lookup(s.jobs, id)).effects, x)
  {
    hide TablesOk, Settled, Calm, VerifyPlan, PromotePlan, RollbackPlan;
    if id in s.jobs {
      JobMatters(s, k, id, x);
      JobPlansCalm(s, h, k, env, id, s.jobs[id], x);
    } else {
      NoJobCalm(s, h, k, env, id, x);
    }
  }

  lemma NoJobCalm(s: Tables, h: VaultHeader, k: KeyHierarchy, env: Env, id: string, x: Slot)
    ensures Calm(s, k, VerifyPlan(h, k, env, id, None).effects, x)
    ensures Calm(s, k, PromotePlan(h, k, env, id, None).effects, x)
    ensures Calm(s, k, RollbackPlan(h, k, env, id, None).effects, x)
  {
  }

  /** A stored job is no rival and has its version in its record. */
  lemma JobMatters(s: Tables, k: KeyHierarchy, id: string, x: Slot)
    requires TablesOk(s, k) && Settled(s, k, x) && id in s.jobs
    ensures !Rival(s.jobs[id], k, x.secretRef, x.version, x.value)
    ensures var j := s.jobs[id];
            j.stagedRecord.secretRef == j.secretRef && j.stagedRecord.secretVersion == j.stagedVersion
  {
    JobRead(s, k, id);
    hide TablesOk, Refinement.Opened, DecryptSecret;
  }

  lemma JobPlansCalm(s: Tables, h: VaultHeader, k: KeyHierarchy, env: Env, id: string, job: RotationJob, x: Slot)
    requires !Rival(job, k, x.secretRef, x.version, x.value)
    requires job.stagedRecord.secretRef == job.secretRef && job.stagedRecord.secretVersion == job.stagedVersion
    ensures Calm(s, k, VerifyPlan(h, k, env, id, Some(job)).effects, x)
    ensures Calm(s, k, PromotePlan(h, k, env, id, Some(job)).effects, x)
    ensures Calm(s, k, RollbackPlan(h, k, env, id, Some(job)).effects, x)
  {
    hide Refinement.Opened, DecryptSecret, Fresh;
    SameOpened(k, job.stagedRecord, Active);
  }

  lemma SecretPlanCalm(s: Tables, h: VaultHeader, k: KeyHierarchy, op: Op, env: Env, x: Slot)
    requires TablesOk(s, k) && Settled(s, k, x) && WritesSecrets(op)
    ensures Calm(s, k, PlanOf(s, h, k, op, env).effects, x)
  {
    hide TablesOk, Settled, Calm, PutPlan, EnrollPlan, StartPlan, StatusPlan, VerifyPlan, PromotePlan, RollbackPlan, GetPlan,
         AddPolicyPlan, IssuePlan, RenewPlan, ConsumePlan, RevokePlan, RevokeAllPlan, RewrapPlan, ExportConfigPlan,
         VerifyAuditPlan, CheckedTicket, LatestVersion, LatestRecord, Lookup, Operations.Next;
    match op
    case Put(ref, value, secretType) =>
      StoredBelow(s, k, ref, x);
      AddedCalm(s, h, k, env, ref, value, secretType, map[], LatestVersion(s.records, ref), x);
    case EnrollTotp(value, details) =>
      StoredBelow(s, k, TOTP_SECRET_REF, x);
      AddedCalm(s, h, k, env, TOTP_SECRET_REF, value, Token, details, LatestVersion(s.records, TOTP_SECRET_REF), x);
    case StartRotation(ref, value, secretType) =>
      StoredBelow(s, k, ref, x);
      AddedCalm(s, h, k, env, ref, value, secretType, map[], LatestVersion(s.records, ref), x);
    case Disable(ref) => StatusCalm(s, h, k, env, ref, Disabled, "secret.disabled", "high", x);
    case Destroy(ref) => StatusCalm(s, h, k, env, ref, Destroyed, "secret.destroyed", "critical", x);
    case VerifyRotation(id) => JobCalm(s, h, k, env, id, x);
    case PromoteRotation(id) => JobCalm(s, h, k, env, id, x);
    case RollbackRotation(id) => JobCalm(s, h, k, env, id, x);
  }

  lemma PlanCalm(s: Tables, h: VaultHeader, k: KeyHierarchy, op: Op, env: Env, x: Slot)
    requires TablesOk(s, k) && Settled(s, k, x)
    ensures Calm(s, k, PlanOf(s, h, k, op, env).effects, x)
  {
    hide TablesOk, Settled, PlanOf, Calm, Within;
    if WritesSecrets(op) {
      SecretPlanCalm(s, h, k, op, env, x);
    } else {
      PlanWithin(s, h, k, op, env);
      CalmWithin(s, k, PlanOf(s, h, k, op, env).effects, Writable(op), x);
    }
  }

  lemma ReadCalm(s: Tables, k: KeyHierarchy, pc: Pc, x: Slot)
    requires TablesOk(s, k) && PcOk(s, k, pc) && Settled(s, k, x) && !pc.Writing?
    ensures CalmPc(s, k, ReadStep(s, pc), x)
  {
    hide TablesOk, ReadStep, PlanOf, Settled, Calm, Within, HeaderOk, RecordSeen, Usable;
    ReadShape(s, pc);
    if pc.Unlocked? {
      PlanCalm(s, pc.h, k, pc.op, pc.env, x);
    }
    var next := ReadStep(s, pc);
    if next.Writing? && Within(next.effects, {TicketRow, EventRow}) {
      CalmWithin(s, k, next.effects, {TicketRow, EventRow}, x);
    }
  }

  // ---- Writes ----

  lemma WriteSettled(s: Tables, k: KeyHierarchy, e: Effect, x: Slot)
    requires Settled(s, k, x) && Fresh(s, e) && !Alters(s, k, e, x)
    ensures Settled(Do(s, e), k, x)
  {
    hide Fresh, Refinement.Opened;
    var s' := Do(s, e);
    forall id <- s'.jobs ensures !Rival(s'.jobs[id], k, x.secretRef, x.version, x.value) {
      assert (id in s.jobs && s'.jobs[id] == s.jobs[id]) || (e.SaveJob? && s'.jobs[id] == e.job);
    }
  }

  /** Identifiers once used stay used. */
  lemma CalmStays(a: Tables, b: Tables, k: KeyHierarchy, pc: Pc, x: Slot)
    requires Grows(a, b) && CalmPc(a, k, pc, x)
    ensures CalmPc(b, k, pc, x)
  {
    hide Refinement.Opened, Rival;
    if pc.Writing? {
      forall i | 0 <= i < |pc.effects| ensures !Alters(b, k, pc.effects[i], x) {
        assert !Alters(a, k, pc.effects[i], x);
      }
    }
  }

  lemma RestCalm(s: Tables, k: KeyHierarchy, es: seq<Effect>, outcome: Outcome, x: Slot)
    requires Calm(s, k, es, x) && es != []
    ensures !Alters(s, k, es[0], x) && CalmPc(s, k, Carry(Plan(es[1..], outcome)), x)
  {
    hide Alters;
  }

  lemma SwapSettled(s: Tables, k: KeyHierarchy, expected: SecretAccessTicket, updated: SecretAccessTicket, x: Slot)
    requires Settled(s, k, x)
    ensures Settled(Do(s, SwapTicket(expected, updated)), k, x)
  {
    hide Refinement.Opened, SwapApplies;
  }

  lemma StepCalm(s: Tables, k: KeyHierarchy, pc: Pc, x: Slot)
    requires TablesOk(s, k) && PcOk(s, k, pc) && Settled(s, k, x) && CalmPc(s, k, pc, x)
    ensures Settled(Advanced(s, pc).0, k, x) && CalmPc(s, k, Advanced(s, pc).1, x)
  {
    hide TablesOk, PcOk, Settled, Calm, ReadStep, Fresh, Carry, Do, Used, Alters;
    if Swapping(s, pc) {
      SwapSettled(s, k, pc.ticket, Used(pc.k, pc.ticket), x);
    } else if pc.Writing? && pc.effects != [] {
      RestCalm(s, k, pc.effects, pc.outcome, x);
      if Fresh(s, pc.effects[0]) {
        WriteSettled(s, k, pc.effects[0], x);
      }
    } else if pc.Writing? {
      EmptyStays(s, pc);
    } else {
      ReadCalm(s, k, pc, x);
    }
  }

  lemma NextCalm(w: World, k: KeyHierarchy, event: Event, x: Slot)
    requires WorldOk(w, k) && AllCalm(w, k, x)
    ensures AllCalm(Interleaving.Next(w, event), k, x)
  {
    hide TablesOk, PcOk, Budget, Settled, CalmPc, Advanced, Grows, Swapping;
    NotWritingCalm(w.tables, k, x);
    if event.Advance? {
      var pc := w.At(event.process);
      AtOk(w, k, event.process);
      AdvancedOk(w.tables, k, pc);
      StepCalm(w.tables, k, pc, x);
      var v := Interleaving.Next(w, event);
      forall process <- v.pcs ensures CalmPc(v.tables, k, v.pcs[process], x) {
        CalmStays(w.tables, v.tables, k, v.pcs[process], x);
      }
    } else {
      assert !Start(event.op, event.passphrase, event.env).Writing?;
    }
  }

  lemma NotWritingCalm(s: Tables, k: KeyHierarchy, x: Slot)
    ensures forall pc: Pc :: !pc.Writing? ==> CalmPc(s, k, pc, x)
  {
  }

  lemma {:induction false} RunCalm(w: World, k: KeyHierarchy, events: seq<Event>, x: Slot)
    requires WorldOk(w, k) && AllCalm(w, k, x)
    ensures Holds(Run(w, events).tables, k, x)
    decreases |events|
  {
    hide WorldOk, Interleaving.Next, CalmPc, Rivalled, Holds;
    if events != [] {
      hide AllCalm;
      NextKeeps(w, k, events[0]);
      NextCalm(w, k, events[0], x);
      RunCalm(Interleaving.Next(w, events[0]), k, events[1..], x);
    }
  }

  // ---- Otherwise it can be altered ----

  lemma {:induction false} AboveAll(used: set<nat>) returns (n: nat)
    ensures forall p <- used :: p < n
  {
    if used == {} {
      n := 0;
    } else {
      var p :| p in used;
      var m := AboveAll(used - {p});
      n := if p < m then m else p + 1;
      forall q <- used ensures q < n {
        assert q == p || q in used - {p};
      }
    }
  }

  lemma FreeProcess(w: World) returns (process: nat)
    ensures Free(w, process)
  {
    process := AboveAll(w.pcs.Keys);
    assert process !in w.pcs.Keys;
  }

  /** Whole operations one after the other are a run. */
  lemma {:induction false} RunsSeries(w: World, k: KeyHierarchy, process: nat, calls: seq<Call>) returns (events: seq<Event>)
    requires TablesOk(w.tables, k) && FreshCalls(w.tables, calls) && Free(w, process)
    ensures Run(w, events).tables == Series(w.tables, calls)
    decreases |calls|
  {
    hide TablesOk, FreshEnv, Exec, Free, Run, OthersStay;
    if calls == [] {
      events := [];
      assert Run(w, []) == w by {
        NoEvents(w);
      }
    } else {
      var c := calls[0];
      var one := RunsExec(w, k, process, c.op, c.passphrase, c.env);
      ExecKeeps(w.tables, k, c.op, c.passphrase, c.env);
      var more := RunsSeries(Run(w, one), k, process, calls[1..]);
      RunJoins(w, one, more);
      events := one + more;
    }
  }

  lemma NoEvents(w: World)
    ensures Run(w, []) == w
  {
  }

  /** A stored rival can win in a run. */
  lemma RivalWins(w: World, k: KeyHierarchy, x: Slot) returns (events: seq<Event>)
    requires TablesOk(w.tables, k) && Holds(w.tables, k, x)
    requires Rivalled(w.tables, k, x.secretRef, x.version, x.value)
    ensures !Holds(Run(w, events).tables, k, x)
  {
    hide TablesOk, Rivalled, FreshCalls, Series, Run, ValueAt, Free;
    RivalledFails(w.tables, k, x.secretRef, x.version);
    var calls := SeriesThatAlters(w.tables, k, x);
    var process := FreeProcess(w);
    events := RunsSeries(w, k, process, calls);
  }

  lemma SeriesThatAlters(s: Tables, k: KeyHierarchy, x: Slot) returns (calls: seq<Call>)
    requires Holds(s, k, x) && !Lasts(s, k, x.secretRef, x.version)
    ensures FreshCalls(s, calls) && !Holds(Series(s, calls), k, x)
  {
    hide FreshCalls, Series, ValueAt;
    calls :| FreshCalls(s, calls)
             && !((x.secretRef, x.version) in Series(s, calls).records
                  && ValueAt(Series(s, calls), k, x.secretRef, x.version) == ValueAt(s, k, x.secretRef, x.version));
  }

  /** So can a pending write. */
  lemma PendingWins(w: World, k: KeyHierarchy, x: Slot, process: nat, i: nat) returns (events: seq<Event>)
    requires WorldOk(w, k) && AllUnblocked(w) && process in w.pcs && w.pcs[process].Writing?
    requires i < |w.pcs[process].effects| && Alters(w.tables, k, w.pcs[process].effects[i], x)
    ensures !Holds(Run(w, events).tables, k, x)
  {
    hide WorldOk, Run, Ready, Rival, Refinement.Opened, TablesOk;
    var e := w.pcs[process].effects[i];
    assert Unblocked(w.pcs[process]);
    assert e.SaveRecord? ==> InsertOf(e).None?;
    var one := Drain(w, process, i);
    var v := Run(w, one);
    events := one;
    if e.SaveJob? && Holds(v.tables, k, x) {
      RunKeeps(w, k, one);
      WorldTables(v, k);
      assert Rival(v.tables.jobs[e.job.jobId], k, x.secretRef, x.version, x.value);
      assert Rivalled(v.tables, k, x.secretRef, x.version, x.value);
      hide Rivalled, Holds;
      var more := RivalWins(v, k, x);
      RunJoins(w, one, more);
      events := one + more;
    }
  }

  lemma WorldTables(w: World, k: KeyHierarchy)
    requires WorldOk(w, k)
    ensures TablesOk(w.tables, k)
  {
    hide TablesOk, PcOk, Budget;
  }

  /** In any reachable world a stored version keeps its value in every continuation exactly if nothing
      contests it: no process has another value for it to write, and no job that is open, stored or
      still to be stored, holds one. */
  lemma KeptExact(w: World, k: KeyHierarchy, x: Slot)
    requires Reachable(w, k) && Holds(w.tables, k, x)
    ensures (forall events :: Holds(Run(w, events).tables, k, x)) <==> !Contested(w, k, x)
  {
    hide Reachable, WorldOk, Run, Holds, Rivalled, Alters, AllUnblocked;
    ReachableUnblocked(w, k);
    WorldTables(w, k);
    if Rivalled(w.tables, k, x.secretRef, x.version, x.value) {
      var events := RivalWins(w, k, x);
      assert !Holds(Run(w, events).tables, k, x);
    } else if Contested(w, k, x) {
      var process, i :| process in w.pcs && w.pcs[process].Writing? && 0 <= i < |w.pcs[process].effects|
        && Alters(w.tables, k, w.pcs[process].effects[i], x);
      var events := PendingWins(w, k, x, process, i);
      assert !Holds(Run(w, events).tables, k, x);
    } else {
      forall events ensures Holds(Run(w, events).tables, k, x) {
        RunCalm(w, k, events, x);
      }
    }
  }

  // ---- A value put and lost without any rotation ----

  /** Two processes can both decide to put before either writes. */
  lemma BothPut(w: World, k: KeyHierarchy, h: VaultHeader, secretRef: string, a: seq<byte>, b: seq<byte>,
                passphrase: Option<string>, env: Env) returns (events: seq<Event>)
    requires Free(w, 0) && Free(w, 1) && Unlock(w.tables.header, passphrase) == Ok((h, k))
    ensures var v, latest := Run(w, events), LatestVersion(w.tables.records, secretRef);
            && v.tables == w.tables
            && v.At(0) == Carry(PutPlan(h, k, env, secretRef, a, Generic, latest))
            && v.At(1) == Carry(PutPlan(h, k, env, secretRef, b, Generic, latest))
  {
    hide Steps, Unlock, PutPlan, Carry, LatestVersion;
    TwoReads(w.tables, k, h, Put(secretRef, a, Generic), passphrase, env);
    TwoReads(w.tables, k, h, Put(secretRef, b, Generic), passphrase, env);
    var one := StartsAndRuns(w, 0, Put(secretRef, a, Generic), passphrase, env, 2);
    var v := Run(w, one);
    var two := StartsAndRuns(v, 1, Put(secretRef, b, Generic), passphrase, env, 2);
    RunJoins(w, one, two);
    events := one + two;
  }

  lemma PutShape(h: VaultHeader, k: KeyHierarchy, env: Env, value: seq<byte>, latest: Option<nat>)
    ensures var pc := Carry(PutPlan(h, k, env, "secret://a", value, Generic, latest));
            && pc.Writing? && |pc.effects| > 0 && pc.effects[0].SaveRecord?
            && var r := pc.effects[0].record;
               r.secretRef == "secret://a" && r.secretVersion == Operations.Next(latest) && Refinement.Opened(k, r) == value
  {
    assert "secret://" <= "secret://a";
    var id := SecretIdFromRef("secret://a").value;
    hide EncryptAt, DecryptSecret, Operations.Next;
    EncryptAtOk(h, k, env, id, "secret://a", Operations.Next(latest), value, Generic);
  }

  /** Then the first value can be stored, and read, while the second is pending. */
  lemma FirstPutStored(w: World, k: KeyHierarchy, h: VaultHeader, a: seq<byte>, b: seq<byte>, env: Env, latest: Option<nat>)
    returns (events: seq<Event>)
    requires a != b
    requires w.At(0) == Carry(PutPlan(h, k, env, "secret://a", a, Generic, latest))
    requires w.At(1) == Carry(PutPlan(h, k, env, "secret://a", b, Generic, latest))
    ensures var v, x := Run(w, events), Slot("secret://a", Operations.Next(latest), a);
            Holds(v.tables, k, x) && v.tables.jobs == w.tables.jobs && Contested(v, k, x)
  {
    hide PutPlan, Carry, Rivalled, Refinement.Opened, Operations.Next, ReadStep, Run;
    PutShape(h, k, env, a, latest);
    PutShape(h, k, env, b, latest);
    events := RunsAlone(w, 0, 1);
    var v, x, pc := Run(w, events), Slot("secret://a", Operations.Next(latest), a), w.At(0);
    assert Fresh(w.tables, pc.effects[0]);
    assert Steps(w.tables, pc, 1).0 == Do(w.tables, pc.effects[0]);
    assert v.At(1) == w.At(1) && 1 in v.pcs;
    assert Alters(v.tables, k, v.pcs[1].effects[0], x);
  }

  /** From any new vault some run stores a value, and some continuation replaces it under its version,
      with no rotation at all: two puts overlap. */
  lemma PutCanBeLost(h: VaultHeader, k: KeyHierarchy, env: Env, details: map<string, Audit.Json>)
    requires HeaderOk(h, k)
    ensures exists events, more, x ::
              var w := Run(Interleaving.Opened(h, k, env, details), events);
              Holds(w.tables, k, x) && w.tables.jobs == map[] && !Holds(Run(w, more).tables, k, x)
  {
    hide HeaderOk, Unlock, Run, Holds, Contested, PutPlan, Carry, LatestVersion, Reachable;
    var w := Interleaving.Opened(h, k, env, details);
    assert Free(w, 0) && Free(w, 1) && w.tables.jobs == map[] && w.tables.header == Some(h);
    hide Created, Free;
    var passphrase := CanUnlock(h, k);
    var latest := LatestVersion(w.tables.records, "secret://a");
    var one := BothPut(w, k, h, "secret://a", [], [0], passphrase, env);
    var two := FirstPutStored(Run(w, one), k, h, [], [0], env, latest);
    RunJoins(w, one, two);
    var v, x := Run(w, one + two), Slot("secret://a", Operations.Next(latest), []);
    FromOpened(h, k, env, details, one + two);
    KeptExact(v, k, x);
    var more :| !Holds(Run(v, more).tables, k, x);
  }

  lemma FromOpened(h: VaultHeader, k: KeyHierarchy, env: Env, details: map<string, Audit.Json>, events: seq<Event>)
    requires HeaderOk(h, k)
    ensures Reachable(Run(Interleaving.Opened(h, k, env, details), events), k)
  {
    hide Run, HeaderOk, Created;
  }
}
