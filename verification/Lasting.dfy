/** When a stored version keeps its value, in runs of whole operations. A rotation reserves the next
    version without storing it, so only the promotion of a job staged before the version was stored
    can replace it. */
module Lasting {
  import opened Wrappers
  import opened Keys
  import opened Envelope
  import opened Rotation
  import opened Store
  import opened Operations
  import opened Invariants
  import opened Soundness
  import opened Refinement

  // ---- Every sound vault is some plain vault ----

  ghost function SlotsOf(records: Records, k: KeyHierarchy, secretRef: string, n: nat): (slots: seq<Slot>)
    requires forall v: nat :: (secretRef, v) in records <==> 1 <= v <= n
    ensures SlotsMatch(records, k, secretRef, slots)
  {
    hide SlotOf;
    seq(n, i requires 0 <= i < n => SlotOf(k, records[(secretRef, i + 1)]))
  }

  ghost function PlainSlots(records: Records, k: KeyHierarchy, secretRef: string): (slots: seq<Slot>)
    requires RecordsOk(records, k)
    ensures SlotsMatch(records, k, secretRef, slots)
  {
    hide RecordsOk, SlotsMatch;
    VersionsExact(records, k, secretRef);
    SlotsOf(records, k, secretRef, VersionCount(records, secretRef))
  }

  ghost function PlainOf(s: Tables, k: KeyHierarchy): (p: PlainVault)
    requires TablesOk(s, k)
  {
    var refs := set key | key in s.records :: key.0;
    PlainVault(s.header.value,
               map secretRef | secretRef in refs :: PlainSlots(s.records, k, secretRef),
               map id | id in s.jobs :: PlainJobOf(k, s.jobs[id]))
  }

  lemma PlainOfRepresents(s: Tables, k: KeyHierarchy)
    requires TablesOk(s, k)
    ensures Represents(s, k, PlainOf(s, k))
  {
    hide RecordsOk, TicketsOk, JobsOk, PlainSlots, SlotOf, PlainJobOf;
    var p := PlainOf(s, k);
    forall secretRef ensures SlotsMatch(s.records, k, secretRef, p.Slots(secretRef)) {
      if secretRef !in p.secrets {
        NoRecords(s.records, k, secretRef);
      }
    }
  }

  lemma NoRecords(records: Records, k: KeyHierarchy, secretRef: string)
    requires forall key <- records :: key.0 != secretRef
    ensures SlotsMatch(records, k, secretRef, [])
  {
    assert forall v: nat :: (secretRef, v) in records ==> (secretRef, v).0 == secretRef;
  }

  // ---- One operation ----

  /** The call promotes a verified job onto version `v`, with another value than `value`. */
  predicate Replaces(p: PlainVault, op: Op, secretRef: string, v: nat, value: seq<byte>)
  {
    op.PromoteRotation? && op.jobId in p.jobs
    && var job := p.jobs[op.jobId];
       job.status == Verified && job.secretRef == secretRef && job.version == v && job.value != value
  }

  lemma PlainValueChanges(p: PlainVault, op: Op, passphrase: Option<string>, newId: string, secretRef: string, v: nat)
    requires 1 <= v <= |p.Slots(secretRef)|
    ensures var p' := PlainExec(p, op, passphrase, newId).0;
            var value := p.Slots(secretRef)[v - 1].value;
            && |p'.Slots(secretRef)| >= |p.Slots(secretRef)|
            && (p'.Slots(secretRef)[v - 1].value != value <==>
                  Unlock(Some(p.header), passphrase).Ok? && Replaces(p, op, secretRef, v, value))
  {
  }

  /** The stored value at a version. */
  function ValueAt(s: Tables, k: KeyHierarchy, secretRef: string, v: nat): seq<byte>
    requires (secretRef, v) in s.records
  {
    Opened(k, s.records[(secretRef, v)])
  }

  predicate Promotes(s: Tables, k: KeyHierarchy, op: Op, secretRef: string, v: nat, value: seq<byte>)
  {
    op.PromoteRotation? && op.jobId in s.jobs
    && var job := s.jobs[op.jobId];
       job.status == Verified && job.secretRef == secretRef && job.stagedVersion == v
       && Opened(k, job.stagedRecord) != value
  }

  lemma ShownValue(s: Tables, k: KeyHierarchy, p: PlainVault, secretRef: string, v: nat)
    requires Represents(s, k, p)
    ensures (secretRef, v) in s.records <==> 1 <= v <= |p.Slots(secretRef)|
    ensures (secretRef, v) in s.records ==> ValueAt(s, k, secretRef, v) == p.Slots(secretRef)[v - 1].value
  {
    assert SlotsMatch(s.records, k, secretRef, p.Slots(secretRef));
  }

  lemma ShownPromotion(s: Tables, k: KeyHierarchy, p: PlainVault, op: Op, secretRef: string, v: nat, value: seq<byte>)
    requires Represents(s, k, p)
    ensures s.header == Some(p.header)
    ensures Promotes(s, k, op, secretRef, v, value) <==> Replaces(p, op, secretRef, v, value)
  {
    assert JobsMatch(s.jobs, k, p.jobs);
  }

  /** An operation changes the value of a stored version exactly if it promotes a verified job of that
      reference and version that holds another value. */
  lemma ValueChanges(s: Tables, k: KeyHierarchy, op: Op, passphrase: Option<string>, env: Env, secretRef: string, v: nat)
    requires TablesOk(s, k) && FreshEnv(s, env) && (secretRef, v) in s.records
    ensures var s' := Exec(s, op, passphrase, env).0;
            var value := ValueAt(s, k, secretRef, v);
            && (secretRef, v) in s'.records
            && (ValueAt(s', k, secretRef, v) != value <==>
                  Unlock(s.header, passphrase).Ok? && Promotes(s, k, op, secretRef, v, value))
  {
    var p := PlainOf(s, k);
    PlainOfRepresents(s, k);
    hide TablesOk, FreshEnv, Represents, Exec, PlainExec, Unlock, Promotes, Replaces, PlainOf, ValueAt;
    var s', p' := Exec(s, op, passphrase, env).0, PlainExec(p, op, passphrase, env.freshId).0;
    ExecRefines(s, k, p, op, passphrase, env);
    ShownValue(s, k, p, secretRef, v);
    ShownValue(s', k, p', secretRef, v);
    ShownPromotion(s, k, p, op, secretRef, v, ValueAt(s, k, secretRef, v));
    PlainValueChanges(p, op, passphrase, env.freshId, secretRef, v);
  }

  // ---- All continuations ----

  predicate IsOpen(status: RotationJobStatus)
  {
    status == StagedJob || status == Verified
  }

  /** A job that can still be promoted onto version `v` with another value. */
  ghost predicate Rivalled(s: Tables, k: KeyHierarchy, secretRef: string, v: nat, value: seq<byte>)
  {
    exists id <- s.jobs :: Rival(s.jobs[id], k, secretRef, v, value)
  }

  predicate Rival(j: RotationJob, k: KeyHierarchy, secretRef: string, v: nat, value: seq<byte>)
  {
    IsOpen(j.status) && j.secretRef == secretRef && j.stagedVersion == v && Opened(k, j.stagedRecord) != value
  }

  predicate PlainRival(j: PlainJob, secretRef: string, v: nat, value: seq<byte>)
  {
    IsOpen(j.status) && j.secretRef == secretRef && j.version == v && j.value != value
  }

  ghost predicate PlainRivalled(p: PlainVault, secretRef: string, v: nat, value: seq<byte>)
  {
    exists id <- p.jobs :: PlainRival(p.jobs[id], secretRef, v, value)
  }

  lemma ShownRivals(s: Tables, k: KeyHierarchy, p: PlainVault, secretRef: string, v: nat, value: seq<byte>)
    requires Represents(s, k, p)
    ensures Rivalled(s, k, secretRef, v, value) <==> PlainRivalled(p, secretRef, v, value)
  {
    assert JobsMatch(s.jobs, k, p.jobs);
    if id :| id in s.jobs && Rival(s.jobs[id], k, secretRef, v, value) {
      assert PlainRival(p.jobs[id], secretRef, v, value);
    }
    if id :| id in p.jobs && PlainRival(p.jobs[id], secretRef, v, value) {
      assert Rival(s.jobs[id], k, secretRef, v, value);
    }
  }

  /** Without a rival the value stays and no rival comes: new jobs reserve later versions. */
  lemma PlainStays(p: PlainVault, op: Op, passphrase: Option<string>, newId: string, secretRef: string, v: nat)
    requires 1 <= v <= |p.Slots(secretRef)| && !PlainRivalled(p, secretRef, v, p.Slots(secretRef)[v - 1].value)
    ensures var p' := PlainExec(p, op, passphrase, newId).0;
            && |p'.Slots(secretRef)| >= |p.Slots(secretRef)|
            && p'.Slots(secretRef)[v - 1].value == p.Slots(secretRef)[v - 1].value
            && !PlainRivalled(p', secretRef, v, p.Slots(secretRef)[v - 1].value)
  {
    PlainValueChanges(p, op, passphrase, newId, secretRef, v);
    var value := p.Slots(secretRef)[v - 1].value;
    var p' := PlainExec(p, op, passphrase, newId).0;
    if Replaces(p, op, secretRef, v, value) {
      assert PlainRival(p.jobs[op.jobId], secretRef, v, value);
    }
    forall id <- p'.jobs ensures !PlainRival(p'.jobs[id], secretRef, v, value) {
      if id in p.jobs {
        assert !PlainRival(p.jobs[id], secretRef, v, value);
      }
    }
  }

  lemma {:induction false} PlainRunStays(p: PlainVault, calls: seq<Call>, secretRef: string, v: nat)
    requires 1 <= v <= |p.Slots(secretRef)| && !PlainRivalled(p, secretRef, v, p.Slots(secretRef)[v - 1].value)
    ensures var p' := PlainRun(p, calls);
            |p'.Slots(secretRef)| >= |p.Slots(secretRef)|
            && p'.Slots(secretRef)[v - 1].value == p.Slots(secretRef)[v - 1].value
    decreases |calls|
  {
    hide PlainRivalled, PlainExec;
    if calls != [] {
      var c := calls[0];
      PlainStays(p, c.op, c.passphrase, c.env.freshId, secretRef, v);
      PlainRunStays(PlainExec(p, c.op, c.passphrase, c.env.freshId).0, calls[1..], secretRef, v);
    }
  }

  /** The value at a version is the same after every continuation. */
  ghost predicate Lasts(s: Tables, k: KeyHierarchy, secretRef: string, v: nat)
    requires (secretRef, v) in s.records
  {
    forall calls :: FreshCalls(s, calls) ==>
      var s' := Series(s, calls);
      (secretRef, v) in s'.records && ValueAt(s', k, secretRef, v) == ValueAt(s, k, secretRef, v)
  }

  lemma UnrivalledLasts(s: Tables, k: KeyHierarchy, secretRef: string, v: nat)
    requires TablesOk(s, k) && (secretRef, v) in s.records
    requires !Rivalled(s, k, secretRef, v, ValueAt(s, k, secretRef, v))
    ensures Lasts(s, k, secretRef, v)
  {
    var p := PlainOf(s, k);
    PlainOfRepresents(s, k);
    hide TablesOk, Represents, Series, FreshCalls, PlainRun, PlainOf, PlainRivalled, ValueAt, Rivalled;
    ShownValue(s, k, p, secretRef, v);
    ShownRivals(s, k, p, secretRef, v, ValueAt(s, k, secretRef, v));
    forall calls | FreshCalls(s, calls)
      ensures (secretRef, v) in Series(s, calls).records
      ensures ValueAt(Series(s, calls), k, secretRef, v) == ValueAt(s, k, secretRef, v)
    {
      SeriesRefines(s, k, p, calls);
      PlainRunStays(p, calls, secretRef, v);
      ShownValue(Series(s, calls), k, PlainRun(p, calls), secretRef, v);
    }
  }

  lemma OneCall(s: Tables, c: Call)
    requires FreshEnv(s, c.env)
    ensures FreshCalls(s, [c]) && Series(s, [c]) == Exec(s, c.op, c.passphrase, c.env).0
  {
    hide Exec, FreshEnv;
    var next := Exec(s, c.op, c.passphrase, c.env).0;
    assert [c][1..] == [];
    assert FreshCalls(next, []) && Series(next, []) == next;
    assert Series(s, [c]) == Series(next, []);
  }

  lemma TwoCalls(s: Tables, c: Call, d: Call)
    requires FreshEnv(s, c.env) && FreshEnv(Exec(s, c.op, c.passphrase, c.env).0, d.env)
    ensures FreshCalls(s, [c, d])
    ensures var next := Exec(s, c.op, c.passphrase, c.env).0;
            Series(s, [c, d]) == Exec(next, d.op, d.passphrase, d.env).0
  {
    hide Exec, FreshEnv;
    assert [c, d][1..] == [d];
    OneCall(Exec(s, c.op, c.passphrase, c.env).0, d);
  }

  /** A verified rival can be promoted. */
  lemma VerifiedRivalWins(s: Tables, k: KeyHierarchy, id: string, secretRef: string, v: nat)
    returns (c: Call)
    requires TablesOk(s, k) && (secretRef, v) in s.records && id in s.jobs && s.jobs[id].status == Verified
    requires Rival(s.jobs[id], k, secretRef, v, ValueAt(s, k, secretRef, v))
    ensures FreshEnv(s, c.env)
    ensures var s' := Exec(s, c.op, c.passphrase, c.env).0;
            (secretRef, v) in s'.records && ValueAt(s', k, secretRef, v) != ValueAt(s, k, secretRef, v)
  {
    var passphrase := CanUnlock(s.header.value, k);
    var env := FreshEnvExists(s);
    c := Call(PromoteRotation(id), passphrase, env);
    hide TablesOk, FreshEnv, Exec, Unlock, ValueAt;
    ValueChanges(s, k, c.op, passphrase, env, secretRef, v);
  }

  /** A staged rival can be verified. */
  lemma StagedRivalVerifies(s: Tables, k: KeyHierarchy, id: string, secretRef: string, v: nat, value: seq<byte>)
    returns (c: Call)
    requires TablesOk(s, k) && (secretRef, v) in s.records && id in s.jobs && s.jobs[id].status == StagedJob
    requires Rival(s.jobs[id], k, secretRef, v, value) && value == ValueAt(s, k, secretRef, v)
    ensures FreshEnv(s, c.env)
    ensures var s' := Exec(s, c.op, c.passphrase, c.env).0;
            && TablesOk(s', k) && (secretRef, v) in s'.records && ValueAt(s', k, secretRef, v) == value
            && id in s'.jobs && s'.jobs[id].status == Verified && Rival(s'.jobs[id], k, secretRef, v, value)
  {
    var passphrase := CanUnlock(s.header.value, k);
    var env := FreshEnvExists(s);
    c := Call(VerifyRotation(id), passphrase, env);
    var p := PlainOf(s, k);
    PlainOfRepresents(s, k);
    hide TablesOk, FreshEnv, Exec, Represents, PlainOf, Rival, ValueAt, PlainJobOf, PlainExec, Unlock;
    var s', p' := Exec(s, c.op, passphrase, env).0, PlainExec(p, c.op, passphrase, env.freshId).0;
    ValueChanges(s, k, c.op, passphrase, env, secretRef, v);
    ExecRefines(s, k, p, c.op, passphrase, env);
    ShownJob(s, k, p, id);
    ShownPromotion(s, k, p, c.op, secretRef, v, value);
    PlainVerifies(p, id, passphrase, env.freshId);
    ShownJob(s', k, p', id);
    RivalShown(s.jobs[id], k, secretRef, v, value);
    RivalShown(s'.jobs[id], k, secretRef, v, value);
  }

  lemma PlainVerifies(p: PlainVault, id: string, passphrase: Option<string>, newId: string)
    requires Unlock(Some(p.header), passphrase).Ok? && id in p.jobs && p.jobs[id].status == StagedJob
    ensures var p' := PlainExec(p, VerifyRotation(id), passphrase, newId).0;
            id in p'.jobs && p'.jobs[id] == p.jobs[id].(status := Verified)
  {
  }

  lemma ShownJob(s: Tables, k: KeyHierarchy, p: PlainVault, id: string)
    requires Represents(s, k, p)
    ensures id in s.jobs <==> id in p.jobs
    ensures id in s.jobs ==> p.jobs[id] == PlainJobOf(k, s.jobs[id]) && p.jobs[id].status == s.jobs[id].status
  {
    assert JobsMatch(s.jobs, k, p.jobs);
  }

  lemma RivalShown(j: RotationJob, k: KeyHierarchy, secretRef: string, v: nat, value: seq<byte>)
    ensures Rival(j, k, secretRef, v, value) <==> PlainRival(PlainJobOf(k, j), secretRef, v, value)
  {
  }

  lemma RivalledFails(s: Tables, k: KeyHierarchy, secretRef: string, v: nat)
    requires TablesOk(s, k) && (secretRef, v) in s.records
    requires Rivalled(s, k, secretRef, v, ValueAt(s, k, secretRef, v))
    ensures !Lasts(s, k, secretRef, v)
  {
    var id :| id in s.jobs && Rival(s.jobs[id], k, secretRef, v, ValueAt(s, k, secretRef, v));
    hide TablesOk, FreshEnv, Exec, FreshCalls, Series, ValueAt, Rival, Lasts;
    RivalOpen(s.jobs[id], k, secretRef, v, ValueAt(s, k, secretRef, v));
    if s.jobs[id].status == Verified {
      var c := VerifiedRivalWins(s, k, id, secretRef, v);
      OneCall(s, c);
      ChangedOnce(s, k, secretRef, v, [c]);
    } else {
      var c := StagedRivalVerifies(s, k, id, secretRef, v, ValueAt(s, k, secretRef, v));
      var d := VerifiedRivalWins(Exec(s, c.op, c.passphrase, c.env).0, k, id, secretRef, v);
      TwoCalls(s, c, d);
      ChangedOnce(s, k, secretRef, v, [c, d]);
    }
  }

  lemma RivalOpen(j: RotationJob, k: KeyHierarchy, secretRef: string, v: nat, value: seq<byte>)
    requires Rival(j, k, secretRef, v, value)
    ensures IsOpen(j.status)
  {
  }

  lemma ChangedOnce(s: Tables, k: KeyHierarchy, secretRef: string, v: nat, calls: seq<Call>)
    requires (secretRef, v) in s.records && FreshCalls(s, calls) && (secretRef, v) in Series(s, calls).records
    requires ValueAt(Series(s, calls), k, secretRef, v) != ValueAt(s, k, secretRef, v)
    ensures !Lasts(s, k, secretRef, v)
  {
    hide FreshCalls, Series, ValueAt;
  }

  /** A stored value lasts through every serial continuation exactly if no job that is still staged or
      verified holds another value for its version. */
  lemma LastsExact(s: Tables, k: KeyHierarchy, secretRef: string, v: nat)
    requires TablesOk(s, k) && (secretRef, v) in s.records
    ensures Lasts(s, k, secretRef, v) <==> !Rivalled(s, k, secretRef, v, ValueAt(s, k, secretRef, v))
  {
    hide TablesOk, Lasts, Rivalled;
    if Rivalled(s, k, secretRef, v, ValueAt(s, k, secretRef, v)) {
      RivalledFails(s, k, secretRef, v);
    } else {
      UnrivalledLasts(s, k, secretRef, v);
    }
  }

  /** So a value put lasts at its version exactly if, when it is put, no open rotation has reserved that
      version for another value. */
  lemma PutLasts(s: Tables, k: KeyHierarchy, secretRef: string, value: seq<byte>, secretType: SecretType,
                 passphrase: Option<string>, env: Env)
    requires TablesOk(s, k) && FreshEnv(s, env)
    ensures var (s', outcome) := Exec(s, Put(secretRef, value, secretType), passphrase, env);
            outcome.Ok? ==>
              && outcome.value.Version?
              && var v := outcome.value.version;
                 && (secretRef, v) in s'.records && ValueAt(s', k, secretRef, v) == value
                 && v == VersionCount(s.records, secretRef) + 1
                 && (Lasts(s', k, secretRef, v) <==> !Rivalled(s, k, secretRef, v, value))
  {
    hide TablesOk, FreshEnv, Exec, Represents, PlainOf, Lasts, Rivalled, VersionCount, LatestVersion, PlainRivalled, ValueAt,
         PlainExec;
    var op := Put(secretRef, value, secretType);
    var p := PlainOf(s, k);
    PlainOfRepresents(s, k);
    var (s', outcome) := Exec(s, op, passphrase, env);
    var (p', reply) := PlainExec(p, op, passphrase, env.freshId);
    ExecRefines(s, k, p, op, passphrase, env);
    if outcome.Ok? {
      PutShown(k, outcome, reply);
      PlainPut(p, secretRef, value, secretType, passphrase, env.freshId);
      var v := |p.Slots(secretRef)| + 1;
      CountShown(s, k, p, secretRef);
      ShownValue(s', k, p', secretRef, v);
      SameRivals(p, p', secretRef, v, value);
      ShownRivals(s, k, p, secretRef, v, value);
      ShownRivals(s', k, p', secretRef, v, value);
      LastsExact(s', k, secretRef, v);
    }
  }

  lemma PlainPut(p: PlainVault, secretRef: string, value: seq<byte>, secretType: SecretType, passphrase: Option<string>,
                 newId: string)
    ensures var (p', reply) := PlainExec(p, Put(secretRef, value, secretType), passphrase, newId);
            var v := |p.Slots(secretRef)| + 1;
            !reply.PlainError? ==>
              && reply == PlainVersion(v) && p'.jobs == p.jobs
              && |p'.Slots(secretRef)| == v && p'.Slots(secretRef)[v - 1].value == value
  {
  }

  lemma PutShown(k: KeyHierarchy, outcome: Outcome, reply: PlainReply)
    requires Shown(k, outcome) == reply && outcome.Ok?
    ensures !reply.PlainError?
    ensures reply.PlainVersion? ==> outcome == Ok(Version(reply.version))
  {
  }

  lemma SameRivals(p: PlainVault, q: PlainVault, secretRef: string, v: nat, value: seq<byte>)
    requires p.jobs == q.jobs
    ensures PlainRivalled(p, secretRef, v, value) <==> PlainRivalled(q, secretRef, v, value)
  {
  }

  lemma CountShown(s: Tables, k: KeyHierarchy, p: PlainVault, secretRef: string)
    requires TablesOk(s, k) && Represents(s, k, p)
    ensures VersionCount(s.records, secretRef) == |p.Slots(secretRef)|
  {
    LatestMatches(s, k, p, secretRef);
  }

  // ---- A put that does not last ----

  /** The calls of a rotation with a put in between. */
  function PutDuring(secretRef: string, staged: seq<byte>, put: seq<byte>, secretType: SecretType,
                     passphrase: Option<string>, a: Env, b: Env, c: Env, d: Env): seq<Call>
  {
    [Call(StartRotation(secretRef, staged, secretType), passphrase, a), Call(Put(secretRef, put, secretType), passphrase, b)]
    + [Call(VerifyRotation(a.freshId), passphrase, c), Call(PromoteRotation(a.freshId), passphrase, d)]
  }

  lemma {:induction false} RunInParts(s: Tables, p: PlainVault, xs: seq<Call>, ys: seq<Call>)
    ensures PlainRun(p, xs + ys) == PlainRun(PlainRun(p, xs), ys)
    ensures FreshCalls(s, xs + ys) ==> FreshCalls(s, xs)
    decreases |xs|
  {
    hide Exec, FreshEnv, PlainExec;
    if xs == [] {
      assert xs + ys == ys;
    } else {
      var c := xs[0];
      assert (xs + ys)[1..] == xs[1..] + ys;
      RunInParts(Exec(s, c.op, c.passphrase, c.env).0, PlainExec(p, c.op, c.passphrase, c.env.freshId).0, xs[1..], ys);
    }
  }

  lemma PlainTwoCalls(p: PlainVault, c: Call, d: Call)
    ensures var q := PlainExec(p, c.op, c.passphrase, c.env.freshId).0;
            PlainRun(p, [c, d]) == PlainExec(q, d.op, d.passphrase, d.env.freshId).0
  {
    hide PlainExec;
    var q := PlainExec(p, c.op, c.passphrase, c.env.freshId).0;
    assert [c, d][1..] == [d] && [d][1..] == [];
    assert PlainRun(q, [d]) == PlainRun(PlainExec(q, d.op, d.passphrase, d.env.freshId).0, []);
    assert PlainRun(p, [c, d]) == PlainRun(q, [d]);
  }

  lemma PlainPutDuring(p: PlainVault, secretRef: string, staged: seq<byte>, put: seq<byte>, secretType: SecretType,
                       passphrase: Option<string>, a: Env, b: Env, c: Env, d: Env)
    requires "secret://" <= secretRef && Unlock(Some(p.header), passphrase).Ok?
    ensures var calls := PutDuring(secretRef, staged, put, secretType, passphrase, a, b, c, d);
            && PlainRun(p, calls[..2]).Slots(secretRef) == p.Slots(secretRef) + [Slot(put, Active)]
            && PlainRun(p, calls).Slots(secretRef) == p.Slots(secretRef) + [Slot(staged, Active)]
  {
    hide Unlock, PlainRun, PlainExec, PlainStep;
    var calls := PutDuring(secretRef, staged, put, secretType, passphrase, a, b, c, d);
    var p2 := PlainRun(p, calls[..2]);
    assert calls[..2] == [calls[0], calls[1]];
    assert calls == calls[..2] + [calls[2], calls[3]];
    PlainTwoCalls(p, calls[0], calls[1]);
    PlainTwoCalls(p2, calls[2], calls[3]);
    RunInParts(Store.EMPTY, p, calls[..2], [calls[2], calls[3]]);
    PromotionReplacesPut(p, secretRef, staged, put, secretType, a.freshId, b.freshId, c.freshId, d.freshId);
    PlainOpened(p, calls[0]);
    var p1 := PlainStep(p, calls[0].op, a.freshId).0;
    PlainOpened(p1, calls[1]);
    PlainOpened(p2, calls[2]);
    PlainOpened(PlainStep(p2, calls[2].op, c.freshId).0, calls[3]);
  }

  lemma PlainOpened(p: PlainVault, c: Call)
    requires Unlock(Some(p.header), c.passphrase).Ok? && !c.op.RewrapProvider?
    ensures PlainExec(p, c.op, c.passphrase, c.env.freshId).0 == PlainStep(p, c.op, c.env.freshId).0
    ensures PlainStep(p, c.op, c.env.freshId).0.header == p.header
  {
    hide Unlock;
  }

  /** A value put between start and promotion of a rotation is stored under its version, and replaced
      there by the staged value. */
  lemma PutReplaced(s: Tables, k: KeyHierarchy, secretRef: string, staged: seq<byte>, put: seq<byte>, secretType: SecretType,
                    passphrase: Option<string>, a: Env, b: Env, c: Env, d: Env)
    requires TablesOk(s, k) && "secret://" <= secretRef && Unlock(s.header, passphrase).Ok?
    requires FreshCalls(s, PutDuring(secretRef, staged, put, secretType, passphrase, a, b, c, d))
    ensures var calls := PutDuring(secretRef, staged, put, secretType, passphrase, a, b, c, d);
            var mid, end, n := Series(s, calls[..2]), Series(s, calls), VersionCount(s.records, secretRef) + 1;
            && (secretRef, n) in mid.records && ValueAt(mid, k, secretRef, n) == put
            && (secretRef, n) in end.records && ValueAt(end, k, secretRef, n) == staged
  {
    hide TablesOk, Represents, Series, FreshCalls, PlainRun, PlainOf, PutDuring, ValueAt, VersionCount, Unlock;
    var calls := PutDuring(secretRef, staged, put, secretType, passphrase, a, b, c, d);
    var p := PlainOf(s, k);
    PlainOfRepresents(s, k);
    HeaderHeld(s, k, p);
    CountShown(s, k, p, secretRef);
    FourCalls(secretRef, staged, put, secretType, passphrase, a, b, c, d);
    assert calls == calls[..2] + calls[2..];
    RunInParts(s, p, calls[..2], calls[2..]);
    SeriesRefines(s, k, p, calls[..2]);
    SeriesRefines(s, k, p, calls);
    PlainPutDuring(p, secretRef, staged, put, secretType, passphrase, a, b, c, d);
    var n := |p.Slots(secretRef)| + 1;
    ShownValue(Series(s, calls[..2]), k, PlainRun(p, calls[..2]), secretRef, n);
    ShownValue(Series(s, calls), k, PlainRun(p, calls), secretRef, n);
  }

  lemma FourCalls(secretRef: string, staged: seq<byte>, put: seq<byte>, secretType: SecretType,
                  passphrase: Option<string>, a: Env, b: Env, c: Env, d: Env)
    ensures |PutDuring(secretRef, staged, put, secretType, passphrase, a, b, c, d)| == 4
  {
  }
}
