/** The two granularities agree: a process whose steps nobody interrupts does exactly what the
    whole operation `Exec` does. */
module Undisturbed {
  import opened Wrappers
  import opened Keys
  import opened Envelope
  import opened Tickets
  import opened Ordering
  import opened Store
  import opened Operations
  import opened Invariants
  import opened Soundness
  import opened Interleaving

  ghost predicate Leads(s: Tables, pc: Pc, s': Tables, pc': Pc)
  {
    exists n: nat :: Steps(s, pc, n) == (s', pc')
  }

  lemma {:induction false} StepsSplit(s: Tables, pc: Pc, n: nat, m: nat)
    ensures Steps(s, pc, n + m) == var (s', pc') := Steps(s, pc, n); Steps(s', pc', m)
    decreases n
  {
    hide Advanced;
    if n > 0 {
      var (s', pc') := Advanced(s, pc);
      StepsSplit(s', pc', n - 1, m);
      assert Steps(s, pc, n + m) == Steps(s', pc', n - 1 + m);
    }
  }

  lemma LeadsOn(s: Tables, pc: Pc, s': Tables, pc': Pc, s'': Tables, pc'': Pc)
    requires Leads(s, pc, s', pc') && Leads(s', pc', s'', pc'')
    ensures Leads(s, pc, s'', pc'')
  {
    hide Steps;
    var n: nat :| Steps(s, pc, n) == (s', pc');
    var m: nat :| Steps(s', pc', m) == (s'', pc'');
    StepsSplit(s, pc, n, m);
  }

  lemma Stays(s: Tables, pc: Pc)
    ensures Leads(s, pc, s, pc)
  {
    assert Steps(s, pc, 0) == (s, pc);
  }

  lemma OneStep(s: Tables, pc: Pc)
    ensures Leads(s, pc, Advanced(s, pc).0, Advanced(s, pc).1)
  {
    hide Advanced;
    var (s', pc') := Advanced(s, pc);
    assert Steps(s', pc', 0) == (s', pc');
    assert Steps(s, pc, 1) == (s', pc');
  }

  lemma OneRead(s: Tables, pc: Pc)
    requires !pc.Writing? && !Swapping(s, pc)
    ensures Leads(s, pc, s, ReadStep(s, pc))
  {
    hide ReadStep;
    OneStep(s, pc);
  }

  lemma {:induction false} WritesRun(s: Tables, k: KeyHierarchy, plan: Plan)
    requires EffectsOk(s, k, plan.effects) && AllFresh(s, plan.effects) && TablesOk(s, k)
    ensures Leads(s, Carry(plan), DoAll(s, plan.effects), Finished(plan.outcome))
    decreases |plan.effects|
  {
    hide EffectOk, TablesOk, Fresh, Leads, Do, InsertOf;
    var es := plan.effects;
    if es == [] {
      Stays(s, Carry(plan));
    } else {
      var rest := Plan(es[1..], plan.outcome);
      var next := Do(s, es[0]);
      OneStep(s, Carry(plan));
      assert Leads(s, Carry(plan), next, Carry(rest));
      RestFresh(s, k, es);
      WritesRun(next, k, rest);
      LeadsOn(s, Carry(plan), next, Carry(rest), DoAll(s, es), Finished(plan.outcome));
    }
  }

  /** The operation after unlocking. */
  lemma UnlockedRuns(s: Tables, k: KeyHierarchy, op: Op, passphrase: Option<string>, env: Env, h: VaultHeader)
    requires TablesOk(s, k) && FreshEnv(s, env) && HeaderOk(h, k) && Unlock(s.header, passphrase).Ok?
    ensures var plan := PlanOf(s, h, k, op, env);
            Leads(s, Unlocked(op, passphrase, env, h, k), DoAll(s, plan.effects), Finished(plan.outcome))
  {
    var pc := Unlocked(op, passphrase, env, h, k);
    var plan := PlanOf(s, h, k, op, env);
    OneRead(s, pc);
    PlanOfOk(s, h, k, op, env);
    PlanFresh(s, k, env, plan);
    if OnTicket(op) {
      TicketOpRuns(s, k, op, passphrase, env, h);
    } else if op.IssueTicket? {
      IssueRuns(s, k, op, passphrase, env, h);
    } else {
      hide Leads, PlanOf, DoAll, Carry, TablesOk, HeaderOk, Unlock, FreshEnv;
      assert ReadStep(s, pc) == Carry(plan);
      WritesRun(s, k, plan);
      LeadsOn(s, pc, s, Carry(plan), DoAll(s, plan.effects), Finished(plan.outcome));
    }
  }

  lemma IssueRuns(s: Tables, k: KeyHierarchy, op: Op, passphrase: Option<string>, env: Env, h: VaultHeader)
    requires TablesOk(s, k) && op.IssueTicket?
    requires var plan := PlanOf(s, h, k, op, env); EffectsOk(s, k, plan.effects) && AllFresh(s, plan.effects)
    ensures var plan := PlanOf(s, h, k, op, env);
            Leads(s, Unlocked(op, passphrase, env, h, k), DoAll(s, plan.effects), Finished(plan.outcome))
  {
    hide Leads, Carry, TablesOk, LatestRecord, IssuePlan, EffectsOk, AllFresh, Listing;
    var pc := Unlocked(op, passphrase, env, h, k);
    OneRead(s, pc);
    var latest := LatestRecord(s.records, op.request.secretRef);
    if latest.Some? && latest.value.status == Active {
      var found := Found(op, env, h, k, latest.value);
      var plan := IssuePlan(h, k, env, op.request, latest.value, Listing(s.policies));
      OneRead(s, found);
      WritesRun(s, k, plan);
      LeadsOn(s, found, s, Carry(plan), DoAll(s, plan.effects), Finished(plan.outcome));
      LeadsOn(s, pc, s, found, DoAll(s, plan.effects), Finished(plan.outcome));
    }
  }

  /** Loading and checking a ticket takes three reads. */
  lemma CheckedShape(s: Tables, k: KeyHierarchy, op: Op, env: Env, h: VaultHeader)
    requires OnTicket(op)
    ensures var load, checked := LoadStep(s, op, env, h, k), CheckedTicket(s, k, op.ticketId, op.request, env.now);
            if load.Finished? then checked.Err? && load.outcome == Err(checked.error)
            else
              && op.ticketId in s.tickets && load == Validated(op, env, h, k, s.tickets[op.ticketId])
              && var t := s.tickets[op.ticketId];
                 checked == match PolicyCheck(k, t, ActivePolicy(s, t))
                            case Err(e) => Err(e)
                            case Ok(_) =>
                              match CurrencyCheck(t, LatestRecord(s.records, t.body.secretRef))
                              case Err(e) => Err(e)
                              case Ok(_) => Ok(t)
  {
    hide PolicyCheck, CurrencyCheck, LatestRecord, ActivePolicy;
  }

  lemma CheckRuns(s: Tables, k: KeyHierarchy, op: Op, env: Env, h: VaultHeader)
    requires OnTicket(op)
    ensures Leads(s, LoadStep(s, op, env, h, k), s,
                  match CheckedTicket(s, k, op.ticketId, op.request, env.now)
                  case Err(e) => Finished(Err(e))
                  case Ok(t) => if op.ValidateTicket? then Finished(Ok(TicketOf(t))) else Checked(op, env, h, k, t))
  {
    hide Leads, PolicyCheck, CurrencyCheck, LatestRecord, ActivePolicy, LoadStep, CheckedTicket;
    CheckedShape(s, k, op, env, h);
    var pc := LoadStep(s, op, env, h, k);
    Stays(s, pc);
    if pc.Validated? {
      var t := pc.ticket;
      OneRead(s, pc);
      var policy := PolicyCheck(k, t, ActivePolicy(s, t));
      if policy.Ok? {
        var pc' := PolicyChecked(op, env, h, k, t);
        OneRead(s, pc');
        LeadsOn(s, pc, s, pc', s, ReadStep(s, pc'));
      }
    }
  }

  lemma TicketOpRuns(s: Tables, k: KeyHierarchy, op: Op, passphrase: Option<string>, env: Env, h: VaultHeader)
    requires TablesOk(s, k) && OnTicket(op) && Unlock(s.header, passphrase).Ok?
    requires var plan := PlanOf(s, h, k, op, env); EffectsOk(s, k, plan.effects) && AllFresh(s, plan.effects)
    ensures var plan := PlanOf(s, h, k, op, env);
            Leads(s, Unlocked(op, passphrase, env, h, k), DoAll(s, plan.effects), Finished(plan.outcome))
  {
    hide Leads, TablesOk, CheckedTicket, EffectsOk, AllFresh, LoadStep, RenewPlan, ConsumePlan, DoAll, Unlock, ActivePolicy;
    var pc := Unlocked(op, passphrase, env, h, k);
    var load := LoadStep(s, op, env, h, k);
    OneRead(s, pc);
    if op.RenewTicket? {
      OneRead(s, Reunlocked(op, env, h, k));
      LeadsOn(s, pc, s, Reunlocked(op, env, h, k), s, load);
    }
    CheckRuns(s, k, op, env, h);
    var checked := CheckedTicket(s, k, op.ticketId, op.request, env.now);
    var plan := PlanOf(s, h, k, op, env);
    var pc' := match checked
      case Err(e) => Finished(Err(e))
      case Ok(t) => if op.ValidateTicket? then Finished(Ok(TicketOf(t))) else Checked(op, env, h, k, t);
    LeadsOn(s, pc, s, load, s, pc');
    NoWrites(s);
    if checked.Ok? && !op.ValidateTicket? {
      if op.RenewTicket? {
        OneRead(s, pc');
        WritesRun(s, k, plan);
        LeadsOn(s, pc', s, Carry(plan), DoAll(s, plan.effects), Finished(plan.outcome));
      } else {
        assert plan == ConsumePlan(s, h, k, env, op.ticketId, op.request);
        ConsumeRuns(s, k, op, env, h);
      }
      LeadsOn(s, pc, s, pc', DoAll(s, plan.effects), Finished(plan.outcome));
    } else if op.ConsumeTicket? {
      ConsumeRefused(s, h, k, env, op);
    }
  }

  lemma NoWrites(s: Tables)
    ensures DoAll(s, []) == s
  {
  }

  lemma ConsumeRefused(s: Tables, h: VaultHeader, k: KeyHierarchy, env: Env, op: Op)
    requires op.ConsumeTicket?
    ensures var checked := CheckedTicket(s, k, op.ticketId, op.request, env.now);
            checked.Err? ==> ConsumePlan(s, h, k, env, op.ticketId, op.request) == Refuse(checked.error)
  {
    hide CheckedTicket;
  }

  lemma ConsumeRuns(s: Tables, k: KeyHierarchy, op: Op, env: Env, h: VaultHeader)
    requires TablesOk(s, k) && op.ConsumeTicket? && CheckedTicket(s, k, op.ticketId, op.request, env.now).Ok?
    requires var plan := ConsumePlan(s, h, k, env, op.ticketId, op.request);
             EffectsOk(s, k, plan.effects) && AllFresh(s, plan.effects)
    ensures var t := CheckedTicket(s, k, op.ticketId, op.request, env.now).value;
            var plan := ConsumePlan(s, h, k, env, op.ticketId, op.request);
            Leads(s, Checked(op, env, h, k, t), DoAll(s, plan.effects), Finished(plan.outcome))
  {
    var t := CheckedTicket(s, k, op.ticketId, op.request, env.now).value;
    CheckedSeen(s, k, op.ticketId, op.request, env.now);
    CheckedApplies(s, k, t);
    ConsumePlanned(s, h, k, env, op.ticketId, op.request, t);
    SwappedRuns(s, k, op, env, h, t);
  }

  lemma SwapKeepsRecords(s: Tables, swap: Effect)
    requires IsSwap(swap)
    ensures Do(s, swap).records == s.records
  {
  }

  lemma SwapStep(s: Tables, k: KeyHierarchy, op: Op, env: Env, h: VaultHeader, t: SecretAccessTicket)
    requires op.ConsumeTicket? && SwapApplies(s.tickets, t) && t.body.usesRemaining >= 1
    ensures Leads(s, Checked(op, env, h, k, t), Do(s, SwapTicket(t, Used(k, t))), Swapped(op, env, h, k, t))
  {
    hide Leads, ReadStep, SwapApplies, Do, Used;
    OneStep(s, Checked(op, env, h, k, t));
  }

  lemma MaterializeStep(s: Tables, k: KeyHierarchy, op: Op, env: Env, h: VaultHeader, t: SecretAccessTicket)
    requires op.ConsumeTicket?
    ensures Leads(s, Swapped(op, env, h, k, t), s,
                  Carry(MaterializePlan(h, k, env, t, op.request, ReadForTicket(s.records, t))))
  {
    hide Leads, MaterializePlan, ReadForTicket;
    OneRead(s, Swapped(op, env, h, k, t));
  }

  lemma SwappedRuns(s: Tables, k: KeyHierarchy, op: Op, env: Env, h: VaultHeader, t: SecretAccessTicket)
    requires TablesOk(s, k) && op.ConsumeTicket? && SwapApplies(s.tickets, t) && t.body.usesRemaining >= 1
    requires var rest := MaterializePlan(h, k, env, t, op.request, ReadForTicket(s.records, t));
             var es := [SwapTicket(t, Used(k, t))] + rest.effects;
             EffectsOk(s, k, es) && AllFresh(s, es)
    ensures var rest := MaterializePlan(h, k, env, t, op.request, ReadForTicket(s.records, t));
            Leads(s, Checked(op, env, h, k, t), DoAll(s, [SwapTicket(t, Used(k, t))] + rest.effects), Finished(rest.outcome))
  {
    var checked := Checked(op, env, h, k, t);
    var swapped := Swapped(op, env, h, k, t);
    var swap := SwapTicket(t, Used(k, t));
    var s' := Do(s, swap);
    hide Leads, ReadStep, EffectsOk, AllFresh, MaterializePlan, TablesOk, Used, SwapApplies, Do, ReadForTicket;
    SwapKeepsRecords(s, swap);
    SwapStep(s, k, op, env, h, t);
    MaterializeStep(s', k, op, env, h, t);
    var rest := MaterializePlan(h, k, env, t, op.request, ReadForTicket(s.records, t));
    var es := [swap] + rest.effects;
    assert es[1..] == rest.effects;
    RestFresh(s, k, es);
    WritesRun(s', k, rest);
    LeadsOn(s', swapped, s', Carry(rest), DoAll(s', rest.effects), Finished(rest.outcome));
    LeadsOn(s, checked, s', swapped, DoAll(s', rest.effects), Finished(rest.outcome));
  }

  /** Left alone, the steps of an operation amount to the whole operation. */
  lemma AloneIsExec(s: Tables, k: KeyHierarchy, op: Op, passphrase: Option<string>, env: Env)
    requires TablesOk(s, k) && FreshEnv(s, env)
    ensures var (s', outcome) := Exec(s, op, passphrase, env);
            Leads(s, Start(op, passphrase, env), s', Finished(outcome))
  {
    PermittedRuns(s, k, op, passphrase, env);
    hide Leads, TablesOk, FreshEnv, Unlock, PlanOf, DoAll, LatestRecord;
    if op.ConsumeTicket? && op.request.rawExportRequested {
      var begun := Begun(op, passphrase, env);
      var exporting := Exporting(op, passphrase, env);
      var permitted := Permitted(op, passphrase, env);
      OneRead(s, begun);
      OneRead(s, exporting);
      var (s', outcome) := Exec(s, op, passphrase, env);
      if Precheck(s, op).Ok? {
        LeadsOn(s, exporting, s, permitted, s', Finished(outcome));
        LeadsOn(s, begun, s, exporting, s', Finished(outcome));
      } else if Lookup(s.metadata, PLAINTEXT_EXPORT_CONFIG_KEY) == Some("enabled") {
        LeadsOn(s, begun, s, exporting, s', Finished(outcome));
      }
    }
  }

  lemma PermittedRuns(s: Tables, k: KeyHierarchy, op: Op, passphrase: Option<string>, env: Env)
    requires TablesOk(s, k) && FreshEnv(s, env)
    ensures Precheck(s, op).Ok? ==>
              var (s', outcome) := Exec(s, op, passphrase, env);
              Leads(s, Permitted(op, passphrase, env), s', Finished(outcome))
  {
    UnlockGivesKeys(s, k, passphrase);
    var permitted := Permitted(op, passphrase, env);
    OneRead(s, permitted);
    var unlocked := Unlock(s.header, passphrase);
    hide Leads, TablesOk, FreshEnv, Unlock, PlanOf, DoAll, Precheck;
    if unlocked.Ok? {
      var (h, _) := unlocked.value;
      UnlockedRuns(s, k, op, passphrase, env, h);
      var plan := PlanOf(s, h, k, op, env);
      LeadsOn(s, permitted, s, Unlocked(op, passphrase, env, h, k), DoAll(s, plan.effects), Finished(plan.outcome));
    }
  }
}
