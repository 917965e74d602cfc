/** The fingerprint table follows the secrets: in runs of whole operations each fingerprint is that
    of the value stored under the same version, and only TOTP enrolments go without. */
module Fingerprints {
  import opened Wrappers
  import opened Keys
  import opened Envelope
  import opened Rotation
  import opened Store
  import opened Operations
  import opened Writes
  import opened Invariants
  import opened Soundness
  import opened Refinement

  predicate PrintOf(k: KeyHierarchy, r: SecretRecord, f: Fingerprint)
  {
    f == Fingerprint(k.RedactionFingerprintKey(), Opened(k, r))
  }

  ghost predicate PrintsMatch(records: Records, prints: map<(string, nat), Fingerprint>, k: KeyHierarchy)
  {
    && (forall key <- prints :: key in records && PrintOf(k, records[key], prints[key]))
    && (forall key <- records :: key.0 != TOTP_SECRET_REF ==> key in prints)
  }

  /** Writes neither a record nor a fingerprint. */
  predicate Aside(e: Effect)
  {
    !e.SaveRecord? && !e.SaveFingerprint?
  }

  lemma AsideOne(s: Tables, e: Effect)
    requires Aside(e)
    ensures Do(s, e).records == s.records && Do(s, e).fingerprints == s.fingerprints
  {
  }

  lemma {:induction false} AsideAll(s: Tables, es: seq<Effect>)
    requires forall i :: 0 <= i < |es| ==> Aside(es[i])
    ensures DoAll(s, es).records == s.records && DoAll(s, es).fingerprints == s.fingerprints
    decreases |es|
  {
    hide Do, Aside;
    if es != [] {
      AsideOne(s, es[0]);
      AsideAll(Do(s, es[0]), es[1..]);
    }
  }

  lemma AsideWithin(es: seq<Effect>, kinds: set<Kind>)
    requires Within(es, kinds) && RecordRow !in kinds && FingerprintRow !in kinds
    ensures forall i :: 0 <= i < |es| ==> Aside(es[i])
  {
  }

  /** Operations other than put, enrolment, status changes and promotion. */
  predicate KeepsSecrets(op: Op)
  {
    !op.Put? && !op.EnrollTotp? && !op.Disable? && !op.Destroy? && !op.PromoteRotation?
  }

  lemma OthersAside(s: Tables, h: VaultHeader, k: KeyHierarchy, op: Op, env: Env)
    requires KeepsSecrets(op)
    ensures var es := PlanOf(s, h, k, op, env).effects; forall i :: 0 <= i < |es| ==> Aside(es[i])
  {
    hide PlanOf, Within, Aside;
    PlanWithin(s, h, k, op, env);
    AsideWithin(PlanOf(s, h, k, op, env).effects, Writable(op));
  }

  /** A record written with its fingerprint, then writes elsewhere. */
  lemma BothWritten(s: Tables, k: KeyHierarchy, r: SecretRecord, f: Fingerprint, rest: seq<Effect>)
    requires PrintsMatch(s.records, s.fingerprints, k) && PrintOf(k, r, f)
    requires forall i :: 0 <= i < |rest| ==> Aside(rest[i])
    ensures var s' := DoAll(s, [SaveRecord(r), SaveFingerprint(r.secretRef, r.secretVersion, f)] + rest);
            PrintsMatch(s'.records, s'.fingerprints, k)
  {
    hide PrintOf;
    var a, b := SaveRecord(r), SaveFingerprint(r.secretRef, r.secretVersion, f);
    assert ([a, b] + rest)[1..] == [b] + rest && ([b] + rest)[1..] == rest;
    assert DoAll(s, [a, b] + rest) == DoAll(Do(Do(s, a), b), rest);
    AsideAll(Do(Do(s, a), b), rest);
  }

  /** A record written alone: a new one for the TOTP reference, or one with the value it had. */
  lemma RecordWritten(s: Tables, k: KeyHierarchy, r: SecretRecord, rest: seq<Effect>)
    requires PrintsMatch(s.records, s.fingerprints, k)
    requires var key := (r.secretRef, r.secretVersion);
             if key in s.records then Opened(k, r) == Opened(k, s.records[key]) else r.secretRef == TOTP_SECRET_REF
    requires forall i :: 0 <= i < |rest| ==> Aside(rest[i])
    ensures var s' := DoAll(s, [SaveRecord(r)] + rest);
            PrintsMatch(s'.records, s'.fingerprints, k)
  {
    hide Opened;
    assert ([SaveRecord(r)] + rest)[1..] == rest;
    AsideAll(Do(s, SaveRecord(r)), rest);
  }

  lemma PutPrints(s: Tables, h: VaultHeader, k: KeyHierarchy, env: Env, secretRef: string, value: seq<byte>,
                  secretType: SecretType, latest: Option<nat>)
    requires PrintsMatch(s.records, s.fingerprints, k)
    ensures var s' := DoAll(s, PutPlan(h, k, env, secretRef, value, secretType, latest).effects);
            PrintsMatch(s'.records, s'.fingerprints, k)
  {
    hide PrintsMatch, EncryptAt, DecryptSecret, DoAll;
    AsideAll(s, []);
    var id := SecretIdFromRef(secretRef);
    if id.Some? {
      var r := EncryptAt(h, k, env, id.value, secretRef, Next(latest), value, secretType);
      EncryptAtOk(h, k, env, id.value, secretRef, Next(latest), value, secretType);
      var es := PutPlan(h, k, env, secretRef, value, secretType, latest).effects;
      BothWritten(s, k, r, es[1].fingerprint, [es[2]]);
      assert es == [es[0], es[1]] + [es[2]];
    } else {
      NothingWritten(s);
    }
  }

  lemma NothingWritten(s: Tables)
    ensures DoAll(s, []) == s
  {
  }

  lemma NextIsNew(records: Records, secretRef: string)
    ensures (secretRef, Next(LatestVersion(records, secretRef))) !in records
  {
    var v := Next(LatestVersion(records, secretRef));
    assert v in Versions(records, secretRef) <==> (secretRef, v) in records;
  }

  lemma EnrollPrints(s: Tables, h: VaultHeader, k: KeyHierarchy, env: Env, value: seq<byte>,
                     details: map<string, Audit.Json>)
    requires PrintsMatch(s.records, s.fingerprints, k)
    ensures var s' := DoAll(s, EnrollPlan(h, k, env, value, details, LatestVersion(s.records, TOTP_SECRET_REF)).effects);
            PrintsMatch(s'.records, s'.fingerprints, k)
  {
    hide PrintsMatch, EncryptAt, DecryptSecret, DoAll, LatestVersion;
    var latest := LatestVersion(s.records, TOTP_SECRET_REF);
    NextIsNew(s.records, TOTP_SECRET_REF);
    var id := SecretIdFromRef(TOTP_SECRET_REF).value;
    var r := EncryptAt(h, k, env, id, TOTP_SECRET_REF, Next(latest), value, Token);
    EncryptAtOk(h, k, env, id, TOTP_SECRET_REF, Next(latest), value, Token);
    var es := EnrollPlan(h, k, env, value, details, latest).effects;
    RecordWritten(s, k, r, [es[1]]);
    assert es == [es[0]] + [es[1]];
  }

  lemma StatusPrints(s: Tables, h: VaultHeader, k: KeyHierarchy, env: Env, secretRef: string, status: SecretStatus,
                     eventType: string, severity: string)
    requires TablesOk(s, k) && PrintsMatch(s.records, s.fingerprints, k)
    ensures var latest := LatestRecord(s.records, secretRef);
            var s' := DoAll(s, StatusPlan(h, k, env, secretRef, latest, status, eventType, severity).effects);
            PrintsMatch(s'.records, s'.fingerprints, k)
  {
    hide TablesOk, PrintsMatch, DecryptSecret, DoAll, LatestRecord, Do;
    LatestStored(s, k, secretRef);
    var latest := LatestRecord(s.records, secretRef);
    if latest.Some? {
      StatusUnbound(k, latest.value, status);
      var es := StatusPlan(h, k, env, secretRef, latest, status, eventType, severity).effects;
      RecordWritten(s, k, latest.value.(status := status), [es[1]]);
      assert es == [es[0]] + [es[1]];
    } else {
      NothingWritten(s);
    }
  }

  lemma LatestStored(s: Tables, k: KeyHierarchy, secretRef: string)
    requires TablesOk(s, k)
    ensures var latest := LatestRecord(s.records, secretRef);
            latest.Some? ==>
              var key := (latest.value.secretRef, latest.value.secretVersion);
              key in s.records && s.records[key] == latest.value
  {
    hide RecordOk, Follows, TicketsOk, JobsOk, Audit.Verifies;
  }

  lemma PromotePrints(s: Tables, h: VaultHeader, k: KeyHierarchy, env: Env, id: string)
    requires TablesOk(s, k) && PrintsMatch(s.records, s.fingerprints, k)
    ensures var s' := DoAll(s, PromotePlan(h, k, env, id, Lookup(s.jobs, id)).effects);
            PrintsMatch(s'.records, s'.fingerprints, k)
  {
    if id in s.jobs {
      JobRead(s, k, id);
    }
    hide TablesOk, PrintsMatch, DecryptSecret, DoAll, Follows;
    NothingWritten(s);
    if id in s.jobs && s.jobs[id].status == Verified {
      var job := s.jobs[id];
      StatusUnbound(k, job.stagedRecord, Active);
      var es := PromotePlan(h, k, env, id, Some(job)).effects;
      BothWritten(s, k, job.stagedRecord.(status := Active), es[1].fingerprint, [es[2], es[3]]);
      assert es == [es[0], es[1]] + [es[2], es[3]];
    }
  }

  /** Every operation keeps the fingerprint table in step with the records. */
  lemma ExecPrints(s: Tables, k: KeyHierarchy, op: Op, passphrase: Option<string>, env: Env)
    requires TablesOk(s, k) && PrintsMatch(s.records, s.fingerprints, k)
    ensures var s' := Exec(s, op, passphrase, env).0; PrintsMatch(s'.records, s'.fingerprints, k)
  {
    hide TablesOk, PrintsMatch, Exec, Unlock, DoAll, HeaderOk, Precheck, PutPlan, EnrollPlan, StatusPlan, PromotePlan,
         LatestVersion, LatestRecord, Lookup;
    UnlockHeld(s, k, passphrase);
    var unlocked := Unlock(s.header, passphrase);
    if Precheck(s, op).Err? || unlocked.Err? {
      ExecRefuses(s, op, passphrase, env);
    } else {
      var h := unlocked.value.0;
      ExecIs(s, h, k, op, passphrase, env);
      PlanPrints(s, h, k, op, env);
    }
  }

  lemma PlanPrints(s: Tables, h: VaultHeader, k: KeyHierarchy, op: Op, env: Env)
    requires TablesOk(s, k) && PrintsMatch(s.records, s.fingerprints, k)
    ensures var s' := DoAll(s, PlanOf(s, h, k, op, env).effects); PrintsMatch(s'.records, s'.fingerprints, k)
  {
    hide TablesOk, PrintsMatch, DoAll, PutPlan, EnrollPlan, StatusPlan, PromotePlan, LatestVersion, LatestRecord, Lookup,
         GetPlan, AddPolicyPlan, IssuePlan, RenewPlan, ConsumePlan, RevokePlan, RevokeAllPlan, StartPlan, VerifyPlan,
         RollbackPlan, RewrapPlan, ExportConfigPlan, VerifyAuditPlan, CheckedTicket;
    match op
    case Put(secretRef, value, secretType) =>
      PutPrints(s, h, k, env, secretRef, value, secretType, LatestVersion(s.records, secretRef));
    case EnrollTotp(value, details) => EnrollPrints(s, h, k, env, value, details);
    case Disable(secretRef) => StatusPrints(s, h, k, env, secretRef, Disabled, "secret.disabled", "high");
    case Destroy(secretRef) => StatusPrints(s, h, k, env, secretRef, Destroyed, "secret.destroyed", "critical");
    case PromoteRotation(id) => PromotePrints(s, h, k, env, id);
    case _ =>
      hide PlanOf;
      OthersAside(s, h, k, op, env);
      AsideAll(s, PlanOf(s, h, k, op, env).effects);
  }

  lemma {:induction false} SeriesKeepsPrints(s: Tables, k: KeyHierarchy, calls: seq<Call>)
    requires TablesOk(s, k) && FreshCalls(s, calls) && PrintsMatch(s.records, s.fingerprints, k)
    ensures var s' := Series(s, calls); PrintsMatch(s'.records, s'.fingerprints, k)
    decreases |calls|
  {
    hide TablesOk, PrintsMatch, Exec, FreshEnv;
    if calls != [] {
      var c := calls[0];
      ExecPrints(s, k, c.op, c.passphrase, c.env);
      ExecKeeps(s, k, c.op, c.passphrase, c.env);
      SeriesKeepsPrints(Exec(s, c.op, c.passphrase, c.env).0, k, calls[1..]);
    }
  }

  lemma CreatedPrints(h: VaultHeader, k: KeyHierarchy, env: Env, details: map<string, Audit.Json>)
    ensures PrintsMatch(Created(h, k, env, details).records, Created(h, k, env, details).fingerprints, k)
  {
  }

  /** In every run from creation each fingerprint is that of the value at its version, and every
      record but TOTP enrolments has one. */
  lemma SeriesPrints(h: VaultHeader, k: KeyHierarchy, env: Env, details: map<string, Audit.Json>, calls: seq<Call>)
    requires HeaderOk(h, k) && FreshCalls(Created(h, k, env, details), calls)
    ensures var s := Series(Created(h, k, env, details), calls); PrintsMatch(s.records, s.fingerprints, k)
  {
    CreatedOk(h, k, env, details);
    CreatedPrints(h, k, env, details);
    hide TablesOk, PrintsMatch, Created, FreshCalls, Series;
    SeriesKeepsPrints(Created(h, k, env, details), k, calls);
  }
}
