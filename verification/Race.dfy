/** An interleaved run from a new vault in which a promoted rotation job does lose its status. */
module Race {
  import opened Wrappers
  import opened Keys
  import opened Envelope
  import opened Rotation
  import opened Store
  import opened Operations
  import opened Invariants
  import opened Soundness
  import opened Interleaving
  import opened Undisturbed
  import opened Refinement
  import opened Finality

  lemma {:induction false} RunJoins(w: World, a: seq<Event>, b: seq<Event>)
    ensures Run(w, a + b) == Run(Run(w, a), b)
    decreases |a|
  {
    hide Interleaving.Next;
    if a == [] {
      assert a + b == b;
    } else {
      assert (a + b)[1..] == a[1..] + b;
      RunJoins(Interleaving.Next(w, a[0]), a[1..], b);
    }
  }

  /** Only `process` moves. */
  ghost predicate OthersStay(w: World, v: World, process: nat)
  {
    forall q: nat :: q != process ==> v.At(q) == w.At(q)
  }

  lemma {:induction false} RunsAlone(w: World, process: nat, n: nat) returns (events: seq<Event>)
    ensures var v := Run(w, events);
            && (v.tables, v.At(process)) == Steps(w.tables, w.At(process), n)
            && OthersStay(w, v, process)
    decreases n
  {
    hide Advanced, Swapping;
    if n == 0 {
      events := [];
    } else {
      var next := Interleaving.Next(w, Advance(process));
      var more := RunsAlone(next, process, n - 1);
      events := [Advance(process)] + more;
      assert events[1..] == more;
      hide Interleaving.Next;
    }
  }

  predicate Free(w: World, process: nat)
  {
    w.At(process).Idle? || w.At(process).Finished?
  }

  /** A free process can be started and run `n` steps by itself. */
  lemma StartsAndRuns(w: World, process: nat, op: Op, passphrase: Option<string>, env: Env, n: nat)
    returns (events: seq<Event>)
    requires Free(w, process)
    ensures var v := Run(w, events);
            && (v.tables, v.At(process)) == Steps(w.tables, Start(op, passphrase, env), n)
            && OthersStay(w, v, process)
  {
    hide Steps;
    var begin := Begin(process, op, passphrase, env);
    var started := Interleaving.Next(w, begin);
    var more := RunsAlone(started, process, n);
    events := [begin] + more;
    assert events[1..] == more;
    assert Run(w, events) == Run(started, more);
  }

  /** A free process can carry out a whole operation. */
  lemma RunsExec(w: World, k: KeyHierarchy, process: nat, op: Op, passphrase: Option<string>, env: Env)
    returns (events: seq<Event>)
    requires TablesOk(w.tables, k) && FreshEnv(w.tables, env) && Free(w, process)
    ensures var v := Run(w, events);
            v.tables == Exec(w.tables, op, passphrase, env).0 && Free(v, process) && OthersStay(w, v, process)
  {
    hide Steps, Exec, TablesOk, FreshEnv;
    AloneIsExec(w.tables, k, op, passphrase, env);
    var (s, outcome) := Exec(w.tables, op, passphrase, env);
    var n: nat :| Steps(w.tables, Start(op, passphrase, env), n) == (s, Finished(outcome));
    events := StartsAndRuns(w, process, op, passphrase, env, n);
  }

  /** Unlocking and the one read take two steps. */
  lemma TwoReads(s: Tables, k: KeyHierarchy, h: VaultHeader, op: Op, passphrase: Option<string>, env: Env)
    requires Unlock(s.header, passphrase) == Ok((h, k)) && !OnTicket(op) && !op.IssueTicket?
    ensures Steps(s, Start(op, passphrase, env), 2) == (s, Carry(PlanOf(s, h, k, op, env)))
  {
    hide PlanOf, Unlock, FirstRead, Carry;
    PlannedAtOnce(s, op, passphrase, env, h, k);
    var unlocked := Unlocked(op, passphrase, env, h, k);
    assert Advanced(s, Permitted(op, passphrase, env)) == (s, unlocked);
    assert Advanced(s, unlocked) == (s, Carry(PlanOf(s, h, k, op, env)));
    assert Steps(s, unlocked, 1) == Steps(s, Carry(PlanOf(s, h, k, op, env)), 0);
    assert Steps(s, Permitted(op, passphrase, env), 2) == Steps(s, unlocked, 1);
  }

  /** With a verified job and two free processes, both can decide before either writes. */
  lemma BothDecide(w: World, k: KeyHierarchy, h: VaultHeader, id: string, passphrase: Option<string>, a: Env, b: Env)
    returns (events: seq<Event>)
    requires Free(w, 0) && Free(w, 1) && Rests(w.tables, id, Verified)
    requires Unlock(w.tables.header, passphrase) == Ok((h, k))
    ensures var v := Run(w, events);
            && v.tables == w.tables
            && v.At(0) == Carry(PromotePlan(h, k, a, id, Some(w.tables.jobs[id])))
            && v.At(1) == Carry(RollbackPlan(h, k, b, id, Some(w.tables.jobs[id])))
  {
    hide Steps, Unlock, PromotePlan, RollbackPlan, Carry;
    var s := w.tables;
    TwoReads(s, k, h, PromoteRotation(id), passphrase, a);
    TwoReads(s, k, h, RollbackRotation(id), passphrase, b);
    var one := StartsAndRuns(w, 0, PromoteRotation(id), passphrase, a, 2);
    var v := Run(w, one);
    var two := StartsAndRuns(v, 1, RollbackRotation(id), passphrase, b, 2);
    RunJoins(w, one, two);
    events := one + two;
  }

  /** Then the promotion can be written while the rollback is pending. */
  lemma PromotedUnderThreat(w: World, k: KeyHierarchy, h: VaultHeader, id: string, job: RotationJob, a: Env, b: Env)
    returns (events: seq<Event>)
    requires JobSeen(w.tables, k, job) && job.jobId == id && job.status == Verified
    requires w.At(0) == Carry(PromotePlan(h, k, a, id, Some(job)))
    requires w.At(1) == Carry(RollbackPlan(h, k, b, id, Some(job)))
    ensures var v := Run(w, events); Rests(v.tables, id, Promoted) && Threatened(v, id, Promoted)
  {
    hide Steps, DecryptSecret;
    PromotionWrites(w.tables, k, h, a, id, job);
    events := RunsAlone(w, 0, 3);
    var v := Run(w, events);
    hide PromotePlan, Run;
    assert v.At(1) == w.At(1);
    PendingRollback(k, h, b, id, job);
    assert 1 in v.pcs;
    assert Overwrites(v.pcs[1].effects[0], id, Promoted);
  }

  lemma PendingRollback(k: KeyHierarchy, h: VaultHeader, env: Env, id: string, job: RotationJob)
    requires job.jobId == id && job.status == Verified
    ensures var pc := Carry(RollbackPlan(h, k, env, id, Some(job)));
            pc.Writing? && |pc.effects| > 0 && Overwrites(pc.effects[0], id, Promoted)
  {
  }

  /** After starting and verifying a rotation, the new vault has a verified job. */
  lemma VerifiedJob(w: World, h: VaultHeader, k: KeyHierarchy, passphrase: Option<string>)
    returns (events: seq<Event>, id: string)
    requires WorldOk(w, k) && Free(w, 0) && Free(w, 1) && Represents(w.tables, k, PlainVault(h, map[], map[]))
    requires Unlock(Some(h), passphrase).Ok?
    ensures var v := Run(w, events);
            && TablesOk(v.tables, k) && v.tables.header == Some(h)
            && Free(v, 0) && Free(v, 1) && Rests(v.tables, id, Verified)
  {
    hide TablesOk, Budget, Represents, Exec, FreshEnv, Run, PlainExec;
    var p0 := PlainVault(h, map[], map[]);
    var env1 := FreshEnvExists(w.tables);
    id := env1.freshId;
    var op1, op2 := StartRotation("secret://a", [], Generic), VerifyRotation(id);
    var one := RunsExec(w, k, 0, op1, passphrase, env1);
    var v1 := Run(w, one);
    ExecRefines(w.tables, k, p0, op1, passphrase, env1);
    var p1 := PlainExec(p0, op1, passphrase, env1.freshId).0;
    var env2 := FreshEnvExists(v1.tables);
    var two := RunsExec(v1, k, 0, op2, passphrase, env2);
    ExecRefines(v1.tables, k, p1, op2, passphrase, env2);
    var p2 := PlainExec(p1, op2, passphrase, env2.freshId).0;
    RunJoins(w, one, two);
    events := one + two;
    PlainVerified(h, passphrase, id, env2.freshId);
    JobStatus(Run(w, events).tables, k, p2, id);
  }

  lemma PlainVerified(h: VaultHeader, passphrase: Option<string>, id: string, other: string)
    requires Unlock(Some(h), passphrase).Ok?
    ensures var p1 := PlainExec(PlainVault(h, map[], map[]), StartRotation("secret://a", [], Generic), passphrase, id).0;
            var p2 := PlainExec(p1, VerifyRotation(id), passphrase, other).0;
            p2.header == h && id in p2.jobs && p2.jobs[id].status == Verified
  {
    assert "secret://" <= "secret://a";
  }

  lemma JobStatus(s: Tables, k: KeyHierarchy, p: PlainVault, id: string)
    requires Represents(s, k, p)
    ensures s.header == Some(p.header)
    ensures id in p.jobs ==> Rests(s, id, p.jobs[id].status)
  {
    assert JobsMatch(s.jobs, k, p.jobs);
  }

  /** From a verified job and two free processes to a promotion with a rollback still to be written. */
  lemma RacesToThreat(w: World, k: KeyHierarchy, h: VaultHeader, passphrase: Option<string>, id: string)
    returns (events: seq<Event>)
    requires TablesOk(w.tables, k) && Free(w, 0) && Free(w, 1) && Rests(w.tables, id, Verified)
    requires Unlock(w.tables.header, passphrase) == Ok((h, k))
    ensures var v := Run(w, events); Rests(v.tables, id, Promoted) && Threatened(v, id, Promoted)
  {
    JobRead(w.tables, k, id);
    JobNamed(w.tables, k, id);
    hide TablesOk, Unlock, FreshEnv, Run, JobSeen, Threatened, Free, PromotePlan, RollbackPlan;
    var env := FreshEnvExists(w.tables);
    var two := BothDecide(w, k, h, id, passphrase, env, env);
    var three := PromotedUnderThreat(Run(w, two), k, h, id, w.tables.jobs[id], env, env);
    RunJoins(w, two, three);
    events := two + three;
  }

  lemma OpenedOk(h: VaultHeader, k: KeyHierarchy, env: Env, details: map<string, Audit.Json>)
    requires HeaderOk(h, k)
    ensures WorldOk(Interleaving.Opened(h, k, env, details), k)
  {
    CreatedOk(h, k, env, details);
    OpenedBudget(h, k, env, details);
    hide TablesOk, Created, HeaderOk;
  }

  lemma ThreatFromOpened(h: VaultHeader, k: KeyHierarchy, env: Env, details: map<string, Audit.Json>)
    returns (events: seq<Event>, id: string)
    requires HeaderOk(h, k)
    ensures var w := Run(Interleaving.Opened(h, k, env, details), events);
            Rests(w.tables, id, Promoted) && Threatened(w, id, Promoted)
  {
    var start := Interleaving.Opened(h, k, env, details);
    OpenedOk(h, k, env, details);
    CreatedRepresents(h, k, env, details);
    var passphrase := CanUnlock(h, k);
    assert Free(start, 0) && Free(start, 1);
    hide TablesOk, Represents, HeaderOk, Unlock, Created, FreshEnv, Run, Threatened, Free;
    var one, job := VerifiedJob(start, h, k, passphrase);
    var more := RacesToThreat(Run(start, one), k, h, passphrase, job);
    RunJoins(start, one, more);
    events, id := one + more, job;
  }

  /** From any new vault some interleaved run promotes a job while another process still has to write
      its rollback, and some continuation then loses the promotion. */
  lemma PromotionCanBeLost(h: VaultHeader, k: KeyHierarchy, env: Env, details: map<string, Audit.Json>)
    requires HeaderOk(h, k)
    ensures exists events, more, id ::
              && Rests(Run(Interleaving.Opened(h, k, env, details), events).tables, id, Promoted)
              && !Rests(Run(Run(Interleaving.Opened(h, k, env, details), events), more).tables, id, Promoted)
  {
    hide Run, HeaderOk, Rests, Threatened;
    var events, id := ThreatFromOpened(h, k, env, details);
    var w := Run(Interleaving.Opened(h, k, env, details), events);
    assert Reachable(w, k);
    hide Reachable;
    FinalExact(w, k, id, Promoted);
    var more :| !Rests(Run(w, more).tables, id, Promoted);
  }

  lemma JobNamed(s: Tables, k: KeyHierarchy, id: string)
    requires TablesOk(s, k) && id in s.jobs
    ensures s.jobs[id].jobId == id
  {
    hide JobOk;
  }
}
