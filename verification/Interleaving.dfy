/** Several processes on one vault. A process is the sequence of statements its operation
    makes: each step is one read or one write of the shared tables, and steps of different
    processes mix in any order. A process that is never scheduled again has crashed. */
module Interleaving {
  import opened Wrappers
  import opened Keys
  import opened Envelope
  import opened Policy
  import opened Tickets
  import opened Rotation
  import opened Ordering
  import opened Store
  import opened Operations
  import opened Writes
  import opened Invariants
  import opened Soundness

  /** Where a process is: what it has read so far, and so what it does next. */
  datatype Pc =
    | Idle
    | Begun(op: Op, passphrase: Option<string>, env: Env)
    | Exporting(op: Op, passphrase: Option<string>, env: Env)
    | Permitted(op: Op, passphrase: Option<string>, env: Env)
    | Unlocked(op: Op, passphrase: Option<string>, env: Env, h: VaultHeader, k: KeyHierarchy)
    | Reunlocked(op: Op, env: Env, h: VaultHeader, k: KeyHierarchy)
    | Found(op: Op, env: Env, h: VaultHeader, k: KeyHierarchy, record: SecretRecord)
    | Validated(op: Op, env: Env, h: VaultHeader, k: KeyHierarchy, ticket: SecretAccessTicket)
    | PolicyChecked(op: Op, env: Env, h: VaultHeader, k: KeyHierarchy, ticket: SecretAccessTicket)
    | Checked(op: Op, env: Env, h: VaultHeader, k: KeyHierarchy, ticket: SecretAccessTicket)
    | Swapped(op: Op, env: Env, h: VaultHeader, k: KeyHierarchy, ticket: SecretAccessTicket)
    | Writing(effects: seq<Effect>, outcome: Outcome)
    | Finished(outcome: Outcome)

  function Start(op: Op, passphrase: Option<string>, env: Env): Pc
  {
    if op.ConsumeTicket? && op.request.rawExportRequested then Begun(op, passphrase, env)
    else Permitted(op, passphrase, env)
  }

  function Carry(plan: Plan): Pc
  {
    if plan.effects == [] then Finished(plan.outcome) else Writing(plan.effects, plan.outcome)
  }

  predicate OnTicket(op: Op)
  {
    op.ValidateTicket? || op.RenewTicket? || op.ConsumeTicket?
  }

  /** Loads the ticket and checks it against the request. */
  function LoadStep(s: Tables, op: Op, env: Env, h: VaultHeader, k: KeyHierarchy): Pc
    requires OnTicket(op)
  {
    if op.ticketId !in s.tickets then Finished(Err(TicketNotFound))
    else
      var t := s.tickets[op.ticketId];
      match Manager(k).Validate(t, op.request, env.now)
      case Err(e) => Finished(Err(TicketRejected(e)))
      case Ok(_) => Validated(op, env, h, k, t)
  }

  /** The first read after unlocking; where it is the only one, the plan is made. */
  ghost function FirstRead(s: Tables, op: Op, passphrase: Option<string>, env: Env, h: VaultHeader, k: KeyHierarchy): Pc
  {
    match op
    case IssueTicket(q) =>
      (match LatestRecord(s.records, q.secretRef)
       case None => Finished(Err(SecretNotFound(q.secretRef)))
       case Some(r) =>
         if r.status != Active then Finished(Err(SecretUnavailable(r.status))) else Found(op, env, h, k, r))
    case RenewTicket(_, _) =>
      (match Unlock(s.header, passphrase)
       case Err(e) => Finished(Err(e))
       case Ok(_) => Reunlocked(op, env, h, k))
    case ValidateTicket(_, _) => LoadStep(s, op, env, h, k)
    case ConsumeTicket(_, _) => LoadStep(s, op, env, h, k)
    case _ => Carry(PlanOf(s, h, k, op, env))
  }

  /** A reading step: where the process is next. */
  ghost function ReadStep(s: Tables, pc: Pc): Pc
  {
    match pc
    case Begun(op, passphrase, env) =>
      if Lookup(s.metadata, PLAINTEXT_EXPORT_CONFIG_KEY) != Some("enabled") then Finished(Err(PlaintextExportDisabled))
      else Exporting(op, passphrase, env)
    case Exporting(op, passphrase, env) =>
      if op.ConsumeTicket? && TotpEnrolled(LatestRecord(s.records, TOTP_SECRET_REF)) && !op.request.mfaVerified then
        Finished(Err(PlaintextExportMfaRequired))
      else Permitted(op, passphrase, env)
    case Permitted(op, passphrase, env) =>
      (match Unlock(s.header, passphrase)
       case Err(e) => Finished(Err(e))
       case Ok((h, k)) => Unlocked(op, passphrase, env, h, k))
    case Unlocked(op, passphrase, env, h, k) => FirstRead(s, op, passphrase, env, h, k)
    case Reunlocked(op, env, h, k) => if OnTicket(op) then LoadStep(s, op, env, h, k) else pc
    case Found(op, env, h, k, r) =>
      if op.IssueTicket? then Carry(IssuePlan(h, k, env, op.request, r, Listing(s.policies))) else pc
    case Validated(op, env, h, k, t) =>
      (match PolicyCheck(k, t, ActivePolicy(s, t))
       case Err(e) => Finished(Err(e))
       case Ok(_) => PolicyChecked(op, env, h, k, t))
    case PolicyChecked(op, env, h, k, t) =>
      (match CurrencyCheck(t, LatestRecord(s.records, t.body.secretRef))
       case Err(e) => Finished(Err(e))
       case Ok(_) => if op.ValidateTicket? then Finished(Ok(TicketOf(t))) else Checked(op, env, h, k, t))
    case Checked(op, env, h, k, t) =>
      if op.RenewTicket? then Carry(RenewPlan(h, k, env, t, op.request, ActivePolicy(s, t)))
      else if op.ConsumeTicket? then Finished(Err(TicketConflict(t.body.ticketId)))
      else pc
    case Swapped(op, env, h, k, t) =>
      if op.ConsumeTicket? then Carry(MaterializePlan(h, k, env, t, op.request, ReadForTicket(s.records, t))) else pc
    case _ => pc
  }

  /** The process is about to make a compare-and-swap that will succeed. */
  predicate Swapping(s: Tables, pc: Pc)
  {
    pc.Checked? && pc.op.ConsumeTicket? && pc.ticket.body.usesRemaining >= 1 && SwapApplies(s.tickets, pc.ticket)
  }

  /** One step of one process. A write whose random identifier is already in use does not happen. */
  ghost function Advanced(s: Tables, pc: Pc): (Tables, Pc)
  {
    if Swapping(s, pc) then
      (Do(s, SwapTicket(pc.ticket, Used(pc.k, pc.ticket))), Swapped(pc.op, pc.env, pc.h, pc.k, pc.ticket))
    else if pc.Writing? && pc.effects != [] then
      if Fresh(s, pc.effects[0]) then (Do(s, pc.effects[0]), Carry(Plan(pc.effects[1..], pc.outcome))) else (s, pc)
    else (s, ReadStep(s, pc))
  }

  // ---- Worlds ----

  /** The shared tables, every process, and how often each ticket id was swapped successfully. */
  datatype World = World(tables: Tables, pcs: map<nat, Pc>, swaps: map<string, nat>) {
    function At(process: nat): Pc
    {
      if process in pcs then pcs[process] else Idle
    }

    function Swaps(id: string): nat
    {
      if id in swaps then swaps[id] else 0
    }
  }

  datatype Event = Begin(process: nat, op: Op, passphrase: Option<string>, env: Env) | Advance(process: nat)

  ghost function Next(w: World, event: Event): World
  {
    match event
    case Begin(process, op, passphrase, env) =>
      if w.At(process).Idle? || w.At(process).Finished? then w.(pcs := w.pcs[process := Start(op, passphrase, env)]) else w
    case Advance(process) =>
      var pc := w.At(process);
      var (tables, pc') := Advanced(w.tables, pc);
      World(tables, w.pcs[process := pc'],
            if Swapping(w.tables, pc) then
              w.swaps[pc.ticket.body.ticketId := w.Swaps(pc.ticket.body.ticketId) + 1]
            else w.swaps)
  }

  ghost function Run(w: World, events: seq<Event>): World
    decreases |events|
  {
    if events == [] then w else Run(Next(w, events[0]), events[1..])
  }

  // ---- The invariant ----

  predicate Holds(h: VaultHeader, held: KeyHierarchy, k: KeyHierarchy)
  {
    held == k && HeaderOk(h, k)
  }

  predicate Usable(s: Tables, k: KeyHierarchy, op: Op, t: SecretAccessTicket)
  {
    && OnTicket(op) && TicketSeen(s, k, t) && t.body.secretRef == op.request.secretRef
    && !t.body.revoked && t.body.usesRemaining >= 1
  }

  predicate IsSwap(e: Effect)
  {
    e.SwapTicket?
  }

  /** What a process holds is still good in the present tables. */
  ghost predicate PcOk(s: Tables, k: KeyHierarchy, pc: Pc)
  {
    match pc
    case Unlocked(_, _, _, h, held) => Holds(h, held, k)
    case Reunlocked(op, _, h, held) => Holds(h, held, k) && OnTicket(op)
    case Found(op, _, h, held, r) =>
      Holds(h, held, k) && op.IssueTicket? && RecordSeen(s, k, r) && r.secretRef == op.request.secretRef
    case Validated(op, _, h, held, t) => Holds(h, held, k) && Usable(s, k, op, t)
    case PolicyChecked(op, _, h, held, t) => Holds(h, held, k) && Usable(s, k, op, t)
    case Checked(op, _, h, held, t) => Holds(h, held, k) && Usable(s, k, op, t)
    case Swapped(op, _, h, held, t) => Holds(h, held, k) && Usable(s, k, op, t)
    case Writing(effects, _) => EffectsOk(s, k, effects) && forall i :: 0 <= i < |effects| ==> !IsSwap(effects[i])
    case _ => true
  }

  /** Until a ticket is revoked its remaining uses and its successful swaps add up. */
  ghost predicate Budget(w: World)
  {
    && (forall id <- w.tables.tickets ::
          var b := w.tables.tickets[id].body;
          w.Swaps(id) <= b.maxUses && (!b.revoked ==> b.usesRemaining + w.Swaps(id) == b.maxUses))
    && (forall id :: id !in w.tables.tickets ==> w.Swaps(id) == 0)
  }

  ghost predicate WorldOk(w: World, k: KeyHierarchy)
  {
    && TablesOk(w.tables, k)
    && (forall process <- w.pcs :: PcOk(w.tables, k, w.pcs[process]))
    && Budget(w)
  }

  lemma UnlockGivesKeys(s: Tables, k: KeyHierarchy, passphrase: Option<string>)
    requires s.header.Some? && HeaderOk(s.header.value, k)
    ensures Unlock(s.header, passphrase).Ok? ==>
              Holds(Unlock(s.header, passphrase).value.0, Unlock(s.header, passphrase).value.1, k)
  {
  }

  lemma SeenStays(a: Tables, b: Tables, k: KeyHierarchy, op: Op, t: SecretAccessTicket)
    requires Grows(a, b) && Usable(a, k, op, t)
    ensures Usable(b, k, op, t)
  {
  }

  lemma PcStays(a: Tables, b: Tables, k: KeyHierarchy, pc: Pc)
    requires Grows(a, b) && PcOk(a, k, pc)
    ensures PcOk(b, k, pc)
  {
    hide TicketSeen, EffectOk, Usable, RecordOk, HeaderOk;
    match pc
    case Validated(op, _, _, _, t) => SeenStays(a, b, k, op, t);
    case PolicyChecked(op, _, _, _, t) => SeenStays(a, b, k, op, t);
    case Checked(op, _, _, _, t) => SeenStays(a, b, k, op, t);
    case Swapped(op, _, _, _, t) => SeenStays(a, b, k, op, t);
    case Writing(effects, _) =>
      forall i | 0 <= i < |effects| ensures EffectOk(b, k, effects[i]) {
        EffectStaysOk(a, b, k, effects[i]);
      }
    case _ =>
  }

  lemma CarryOk(s: Tables, k: KeyHierarchy, env: Env, plan: Plan)
    requires PlanOk(s, k, env, plan) && forall i :: 0 <= i < |plan.effects| ==> !IsSwap(plan.effects[i])
    ensures PcOk(s, k, Carry(plan))
  {
  }

  lemma LoadOk(s: Tables, k: KeyHierarchy, op: Op, env: Env, h: VaultHeader)
    requires TablesOk(s, k) && HeaderOk(h, k) && OnTicket(op)
    ensures PcOk(s, k, LoadStep(s, op, env, h, k))
  {
    hide TablesOk, TicketSeen, ParseStamp, SessionMatches, HeaderOk;
    if op.ticketId in s.tickets {
      TicketRead(s, k, op.ticketId);
    }
  }

  lemma NoSwapWithin(es: seq<Effect>, kinds: set<Kind>)
    requires Within(es, kinds) && TicketSwap !in kinds
    ensures forall i :: 0 <= i < |es| ==> !IsSwap(es[i])
  {
  }

  /** Operations with a single read plan there. */
  lemma PlannedAtOnce(s: Tables, op: Op, passphrase: Option<string>, env: Env, h: VaultHeader, k: KeyHierarchy)
    requires !OnTicket(op) && !op.IssueTicket?
    ensures FirstRead(s, op, passphrase, env, h, k) == Carry(PlanOf(s, h, k, op, env))
  {
    hide PlanOf, Carry;
  }

  lemma PlanReadOk(s: Tables, k: KeyHierarchy, op: Op, env: Env, h: VaultHeader)
    requires TablesOk(s, k) && HeaderOk(h, k) && !OnTicket(op) && !op.IssueTicket?
    ensures PcOk(s, k, Carry(PlanOf(s, h, k, op, env)))
  {
    hide TablesOk, HeaderOk, PlanOf, PlanOk, IsSwap, Carry, Within, PcOk;
    PlanOfOk(s, h, k, op, env);
    PlanWithin(s, h, k, op, env);
    NoSwapWithin(PlanOf(s, h, k, op, env).effects, Writable(op));
    CarryOk(s, k, env, PlanOf(s, h, k, op, env));
  }

  lemma FirstReadOk(s: Tables, k: KeyHierarchy, op: Op, passphrase: Option<string>, env: Env, h: VaultHeader)
    requires TablesOk(s, k) && HeaderOk(h, k)
    ensures PcOk(s, k, FirstRead(s, op, passphrase, env, h, k))
  {
    hide TablesOk, HeaderOk, LatestRecord, PlanOf, RecordSeen, LoadStep, Carry, Unlock, EffectsOk;
    match op
    case IssueTicket(q) => LatestSeen(s, k, q.secretRef);
    case RenewTicket(_, _) =>
    case ValidateTicket(_, _) => LoadOk(s, k, op, env, h);
    case ConsumeTicket(_, _) => LoadOk(s, k, op, env, h);
    case _ =>
      PlannedAtOnce(s, op, passphrase, env, h, k);
      PlanReadOk(s, k, op, env, h);
  }

  lemma IssueStepOk(s: Tables, k: KeyHierarchy, env: Env, h: VaultHeader, q: AccessRequest, r: SecretRecord)
    requires RecordSeen(s, k, r) && r.secretRef == q.secretRef
    ensures PcOk(s, k, Carry(IssuePlan(h, k, env, q, r, Listing(s.policies))))
  {
    hide IssuePlan, PlanOk, RecordSeen, IsSwap, PcOk, Carry, Listing;
    IssueOk(s, h, k, env, q, r, Listing(s.policies));
    IssueWithin(h, k, env, q, r, Listing(s.policies));
    NoSwapWithin(IssuePlan(h, k, env, q, r, Listing(s.policies)).effects, {TicketRow, EventRow});
    CarryOk(s, k, env, IssuePlan(h, k, env, q, r, Listing(s.policies)));
  }

  lemma RenewStepOk(s: Tables, k: KeyHierarchy, op: Op, env: Env, h: VaultHeader, t: SecretAccessTicket)
    requires Usable(s, k, op, t)
    ensures PcOk(s, k, Carry(RenewPlan(h, k, env, t, op.request, ActivePolicy(s, t))))
  {
    hide RenewPlan, PlanOk, TicketSeen, IsSwap, PcOk, Carry, ActivePolicy;
    RenewOk(s, h, k, env, t, op.request, ActivePolicy(s, t));
    RenewWithin(h, k, env, t, op.request, ActivePolicy(s, t));
    NoSwapWithin(RenewPlan(h, k, env, t, op.request, ActivePolicy(s, t)).effects, {TicketRow, EventRow});
    CarryOk(s, k, env, RenewPlan(h, k, env, t, op.request, ActivePolicy(s, t)));
  }

  lemma MaterializeStepOk(s: Tables, k: KeyHierarchy, env: Env, h: VaultHeader, t: SecretAccessTicket, q: AccessRequest)
    ensures PcOk(s, k, Carry(MaterializePlan(h, k, env, t, q, ReadForTicket(s.records, t))))
  {
    hide MaterializePlan, PlanOk, IsSwap, PcOk, Carry, ReadForTicket;
    MaterializeOk(s, h, k, env, t, q, ReadForTicket(s.records, t));
    MaterializeWithin(h, k, env, t, q, ReadForTicket(s.records, t));
    NoSwapWithin(MaterializePlan(h, k, env, t, q, ReadForTicket(s.records, t)).effects, {EventRow});
    CarryOk(s, k, env, MaterializePlan(h, k, env, t, q, ReadForTicket(s.records, t)));
  }

  lemma TicketStepOk(s: Tables, k: KeyHierarchy, pc: Pc)
    requires pc.Validated? || pc.PolicyChecked? || pc.Checked? || pc.Swapped?
    requires PcOk(s, k, pc)
    ensures PcOk(s, k, ReadStep(s, pc))
  {
    hide HeaderOk, LatestRecord, RecordSeen, IsSwap, Carry, Usable, RenewPlan, MaterializePlan, PolicyCheck,
         CurrencyCheck, ActivePolicy, ReadForTicket, EffectsOk;
    if pc.Checked? {
      RenewStepOk(s, k, pc.op, pc.env, pc.h, pc.ticket);
      hide PcOk;
    } else if pc.Swapped? && pc.op.ConsumeTicket? {
      MaterializeStepOk(s, k, pc.env, pc.h, pc.ticket, pc.op.request);
      hide PcOk;
    }
  }

  lemma ReadStepOk(s: Tables, k: KeyHierarchy, pc: Pc)
    requires TablesOk(s, k) && PcOk(s, k, pc)
    ensures PcOk(s, k, ReadStep(s, pc))
  {
    hide FirstRead, LatestRecord, RecordSeen, IsSwap, LoadStep, Carry, Unlock, Usable, IssuePlan, Listing,
         TotpEnrolled, EffectsOk, HeaderOk, RecordsOk, TicketsOk, JobsOk, Audit.Verifies, PoliciesOk,
         RenewPlan, MaterializePlan, PolicyCheck, CurrencyCheck, ActivePolicy, ReadForTicket;
    match pc
    case Permitted(_, passphrase, _) => UnlockGivesKeys(s, k, passphrase);
    case Unlocked(op, passphrase, env, h, _) => FirstReadOk(s, k, op, passphrase, env, h);
    case Reunlocked(op, env, h, _) => LoadOk(s, k, op, env, h);
    case Found(op, env, h, _, r) => IssueStepOk(s, k, env, h, op.request, r);
    case Begun(_, _, _) =>
    case Exporting(_, _, _) =>
    case Idle =>
    case Writing(_, _) =>
    case Finished(_) =>
    case _ => TicketStepOk(s, k, pc);
  }

  lemma SwapSound(s: Tables, k: KeyHierarchy, op: Op, t: SecretAccessTicket)
    requires Usable(s, k, op, t)
    ensures EffectOk(s, k, SwapTicket(t, Used(k, t))) && Fresh(s, SwapTicket(t, Used(k, t)))
  {
  }

  lemma GrowsReflexive(s: Tables)
    ensures Grows(s, s)
  {
  }

  lemma WriteStepOk(s: Tables, k: KeyHierarchy, pc: Pc)
    requires TablesOk(s, k) && PcOk(s, k, pc) && pc.Writing? && pc.effects != []
    requires Fresh(s, pc.effects[0])
    ensures var s' := Do(s, pc.effects[0]);
            TablesOk(s', k) && Grows(s, s') && PcOk(s', k, Carry(Plan(pc.effects[1..], pc.outcome)))
  {
    hide TablesOk, IsSwap, Fresh, EffectOk;
    DoKeeps(s, k, pc.effects[0]);
    PcStays(s, Do(s, pc.effects[0]), k, pc);
  }

  /** One step keeps the tables sound and the process's own readings good. */
  lemma AdvancedOk(s: Tables, k: KeyHierarchy, pc: Pc)
    requires TablesOk(s, k) && PcOk(s, k, pc)
    ensures var (s', pc') := Advanced(s, pc);
            TablesOk(s', k) && Grows(s, s') && PcOk(s', k, pc')
  {
    hide TablesOk, ReadStep, IsSwap, Fresh, Carry;
    var (s', pc') := Advanced(s, pc);
    if Swapping(s, pc) {
      var swap := SwapTicket(pc.ticket, Used(pc.k, pc.ticket));
      SwapSound(s, k, pc.op, pc.ticket);
      DoKeeps(s, k, swap);
      SeenStays(s, s', k, pc.op, pc.ticket);
    } else if pc.Writing? && pc.effects != [] {
      if Fresh(s, pc.effects[0]) {
        WriteStepOk(s, k, pc);
      } else {
        GrowsReflexive(s);
      }
    } else {
      ReadStepOk(s, k, pc);
      GrowsReflexive(s);
    }
  }

  // ---- Every step, every run ----

  /** From `w` to `v`: tables grow, swap counts never fall and stand still once revoked. */
  ghost predicate Later(w: World, v: World)
  {
    && Grows(w.tables, v.tables)
    && (forall id :: w.Swaps(id) <= v.Swaps(id))
    && (forall id <- w.tables.tickets :: w.tables.tickets[id].body.revoked ==> v.Swaps(id) == w.Swaps(id))
  }

  lemma LaterTransitive(u: World, v: World, w: World)
    requires Later(u, v) && Later(v, w)
    ensures Later(u, w)
  {
    GrowsTransitive(u.tables, v.tables, w.tables);
    forall id <- u.tables.tickets ensures u.tables.tickets[id].body.revoked ==> w.Swaps(id) == u.Swaps(id) {
      assert id in v.tables.tickets;
    }
  }

  lemma SwapKeepsBudget(w: World, v: World, k: KeyHierarchy, t: SecretAccessTicket)
    requires Budget(w) && SwapApplies(w.tables.tickets, t) && t.body.usesRemaining >= 1 && !t.body.revoked
    requires v.tables.tickets == w.tables.tickets[t.body.ticketId := Used(k, t)]
    requires v.swaps == w.swaps[t.body.ticketId := w.Swaps(t.body.ticketId) + 1]
    ensures Budget(v)
  {
    assert w.tables.tickets[t.body.ticketId] == t;
  }

  lemma WriteKeepsBudget(w: World, v: World, k: KeyHierarchy, e: Effect)
    requires Budget(w) && EffectOk(w.tables, k, e) && Fresh(w.tables, e) && !IsSwap(e)
    requires v.tables == Do(w.tables, e) && v.swaps == w.swaps
    ensures Budget(v)
  {
    hide TicketOk, JobOk, RecordOk, HeaderOk;
  }

  lemma StartsOk(s: Tables, k: KeyHierarchy, op: Op, passphrase: Option<string>, env: Env)
    ensures PcOk(s, k, Idle) && PcOk(s, k, Start(op, passphrase, env))
  {
  }

  lemma BudgetOfTables(w: World, v: World)
    requires v.tables.tickets == w.tables.tickets && v.swaps == w.swaps
    ensures Budget(w) <==> Budget(v)
  {
  }

  lemma StepKeepsBudget(w: World, k: KeyHierarchy, process: nat)
    requires Budget(w) && PcOk(w.tables, k, w.At(process))
    ensures Budget(Next(w, Advance(process)))
    ensures var pc, v := w.At(process), Next(w, Advance(process));
            v.swaps == w.swaps ||
            (Swapping(w.tables, pc) && !w.tables.tickets[pc.ticket.body.ticketId].body.revoked
             && v.swaps == w.swaps[pc.ticket.body.ticketId := w.Swaps(pc.ticket.body.ticketId) + 1])
  {
    hide TicketSeen, EffectOk, Fresh, Budget, ReadStep, HeaderOk, IsSwap, Used;
    var pc, v := w.At(process), Next(w, Advance(process));
    if Swapping(w.tables, pc) {
      SwapKeepsBudget(w, v, k, pc.ticket);
    } else if pc.Writing? && pc.effects != [] && Fresh(w.tables, pc.effects[0]) {
      WriteKeepsBudget(w, v, k, pc.effects[0]);
    } else {
      BudgetOfTables(w, v);
    }
  }

  lemma AtOk(w: World, k: KeyHierarchy, process: nat)
    requires WorldOk(w, k)
    ensures PcOk(w.tables, k, w.At(process))
  {
  }

  /** The invariant holds after every step of every process. */
  lemma NextKeeps(w: World, k: KeyHierarchy, event: Event)
    requires WorldOk(w, k)
    ensures WorldOk(Next(w, event), k) && Later(w, Next(w, event))
  {
    hide TablesOk, PcOk, Advanced, Swapping, Budget;
    GrowsReflexive(w.tables);
    if event.Begin? {
      StartsOk(w.tables, k, event.op, event.passphrase, event.env);
      BudgetOfTables(w, Next(w, event));
    } else {
      var pc := w.At(event.process);
      AtOk(w, k, event.process);
      var v := Next(w, event);
      AdvancedOk(w.tables, k, pc);
      forall process <- v.pcs ensures PcOk(v.tables, k, v.pcs[process]) {
        if process != event.process {
          PcStays(w.tables, v.tables, k, w.pcs[process]);
        }
      }
      StepKeepsBudget(w, k, event.process);
    }
  }

  lemma {:induction false} RunKeeps(w: World, k: KeyHierarchy, events: seq<Event>)
    requires WorldOk(w, k)
    ensures WorldOk(Run(w, events), k) && Later(w, Run(w, events))
    decreases |events|
  {
    hide WorldOk, Later, Next;
    if events == [] {
      StillLater(w);
    } else {
      NextKeeps(w, k, events[0]);
      RunKeeps(Next(w, events[0]), k, events[1..]);
      LaterTransitive(w, Next(w, events[0]), Run(w, events));
    }
  }

  lemma StillLater(w: World)
    ensures Later(w, w)
  {
  }

  /** A vault just created, with no process running. */
  function Opened(h: VaultHeader, k: KeyHierarchy, env: Env, details: map<string, Audit.Json>): World
  {
    World(Created(h, k, env, details), map[], map[])
  }

  /** `w` comes about in some interleaved run on a vault with keys `k`. */
  ghost predicate Reachable(w: World, k: KeyHierarchy)
  {
    exists h, env, details, events :: HeaderOk(h, k) && w == Run(Opened(h, k, env, details), events)
  }

  lemma ReachableOk(w: World, k: KeyHierarchy)
    requires Reachable(w, k)
    ensures WorldOk(w, k)
  {
    hide TablesOk, Created, HeaderOk, Run;
    var h, env, details, events :| HeaderOk(h, k) && w == Run(Opened(h, k, env, details), events);
    CreatedOk(h, k, env, details);
    OpenedBudget(h, k, env, details);
    RunKeeps(Opened(h, k, env, details), k, events);
  }

  lemma OpenedBudget(h: VaultHeader, k: KeyHierarchy, env: Env, details: map<string, Audit.Json>)
    ensures Budget(Opened(h, k, env, details))
  {
  }

  // ---- What the interleaved vault guarantees ----

  /** However steps mix, successful swaps of a ticket id never exceed its uses; while it is
      unrevoked the uses left are exactly those not yet swapped. */
  lemma UsesBounded(w: World, k: KeyHierarchy, id: string)
    requires Reachable(w, k) && id in w.tables.tickets
    ensures var b := w.tables.tickets[id].body;
            w.Swaps(id) <= b.maxUses && (!b.revoked ==> b.usesRemaining + w.Swaps(id) == b.maxUses)
  {
    hide Run, Reachable;
    ReachableOk(w, k);
  }

  /** Comparing whole values is enough: if an unrevoked ticket is found unchanged later, nobody
      consumed it in between. */
  lemma NoAba(w: World, k: KeyHierarchy, events: seq<Event>, id: string)
    requires Reachable(w, k) && id in w.tables.tickets && !w.tables.tickets[id].body.revoked
    ensures var v := Run(w, events);
            id in v.tables.tickets && (v.tables.tickets[id] == w.tables.tickets[id] ==> v.Swaps(id) == w.Swaps(id))
  {
    hide Run, Reachable;
    ReachableOk(w, k);
    RunKeeps(w, k, events);
  }

  /** A ticket row once revoked stays revoked, whatever was read before, and is never consumed
      again. */
  lemma RevocationFinal(w: World, k: KeyHierarchy, events: seq<Event>, id: string)
    requires Reachable(w, k) && id in w.tables.tickets && w.tables.tickets[id].body.revoked
    ensures var v := Run(w, events);
            id in v.tables.tickets && v.tables.tickets[id].body.revoked && v.Swaps(id) == w.Swaps(id)
  {
    hide Run, Reachable;
    ReachableOk(w, k);
    RunKeeps(w, k, events);
  }

  /** A consume that validated a ticket before its revocation ends in a conflict, with no write. */
  lemma LateConsumeConflicts(w: World, k: KeyHierarchy, process: nat)
    requires Reachable(w, k) && w.At(process).Checked? && w.At(process).op.ConsumeTicket?
    requires var id := w.At(process).ticket.body.ticketId;
             id in w.tables.tickets && w.tables.tickets[id].body.revoked
    ensures var v := Next(w, Advance(process));
            && v.tables == w.tables && v.swaps == w.swaps
            && v.At(process) == Finished(Err(TicketConflict(w.At(process).ticket.body.ticketId)))
  {
    hide Run, Reachable, TicketSeen, HeaderOk, Budget, TablesOk;
    ReachableOk(w, k);
    AtOk(w, k, process);
  }

  /** Stored versions are exactly 1 to n, n never falls, and rotations and tickets name versions
      in range, so a ticket's version is never 0. */
  lemma VersionsGapFree(w: World, k: KeyHierarchy, events: seq<Event>, secretRef: string)
    requires Reachable(w, k)
    ensures var n := VersionCount(w.tables.records, secretRef);
            && (forall v: nat :: (secretRef, v) in w.tables.records <==> 1 <= v <= n)
            && n <= VersionCount(Run(w, events).tables.records, secretRef)
            && (forall id <- w.tables.jobs :: w.tables.jobs[id].secretRef == secretRef ==>
                  1 <= w.tables.jobs[id].stagedVersion <= n + 1)
            && (forall id <- w.tables.tickets :: w.tables.tickets[id].body.secretRef == secretRef ==>
                  1 <= w.tables.tickets[id].body.secretVersion <= n)
  {
    hide Run, Reachable, LatestVersion, VersionCount, Budget, RecordsOk;
    ReachableOk(w, k);
    RunKeeps(w, k, events);
    var after := Run(w, events).tables.records;
    VersionsExact(w.tables.records, k, secretRef);
    VersionsExact(after, k, secretRef);
    var n := VersionCount(w.tables.records, secretRef);
    if n > 0 {
      assert (secretRef, n) in after;
    }
  }

  /** Whoever appended in whatever order, the stored log verifies under the vault's audit key,
      across rewraps too. */
  lemma LogAlwaysVerifies(w: World, k: KeyHierarchy)
    requires Reachable(w, k)
    ensures Audit.ChainError(w.tables.audit, k.AuditIntegrityKey(), 0) == None
    ensures w.tables.audit == Audit.Written(k.AuditIntegrityKey(), Audit.Entries(w.tables.audit))
  {
    hide Run, Reachable;
    ReachableOk(w, k);
    Audit.ChainErrorExact(w.tables.audit, k.AuditIntegrityKey(), 0);
    Audit.VerifiesExact(w.tables.audit, k.AuditIntegrityKey());
  }

  // ---- What interleaving costs ----

  /** `n` steps of one process alone. */
  ghost function Steps(s: Tables, pc: Pc, n: nat): (Tables, Pc)
    decreases n
  {
    if n == 0 then (s, pc) else
      var (s', pc') := Advanced(s, pc);
      Steps(s', pc', n - 1)
  }

  lemma WriteSteps(s: Tables, a: Effect, b: Effect, c: Effect, d: Effect, outcome: Outcome)
    requires InsertOf(a).None? && InsertOf(b).None? && InsertOf(c).None?
    ensures Steps(s, Writing([a, b, c, d], outcome), 3) == (Do(Do(Do(s, a), b), c), Writing([d], outcome))
  {
    hide Do, InsertOf, ReadStep;
    var s1 := Do(s, a);
    var s2 := Do(s1, b);
    var s3 := Do(s2, c);
    assert [a, b, c, d][1..] == [b, c, d] && [b, c, d][1..] == [c, d] && [c, d][1..] == [d];
    assert Steps(s3, Writing([d], outcome), 0) == (s3, Writing([d], outcome));
    assert Steps(s2, Writing([c, d], outcome), 1) == Steps(s3, Writing([d], outcome), 0);
    assert Steps(s1, Writing([b, c, d], outcome), 2) == Steps(s2, Writing([c, d], outcome), 1);
  }

  /** A rollback that read the job before its promotion writes over it afterwards, with the new
      version already active. */
  lemma RollbackOverPromotion(s: Tables, k: KeyHierarchy, h: VaultHeader, promoting: Env, rolling: Env, id: string)
    requires TablesOk(s, k) && id in s.jobs && s.jobs[id].status == Verified
    ensures var late := ReadStep(s, Unlocked(RollbackRotation(id), None, rolling, h, k));
            var early := ReadStep(s, Unlocked(PromoteRotation(id), None, promoting, h, k));
            var s' := Steps(s, early, 3).0;
            var s'' := Advanced(s', late).0;
            var key := (s.jobs[id].secretRef, s.jobs[id].stagedVersion);
            && id in s'.jobs && s'.jobs[id].status == Promoted
            && id in s''.jobs && s''.jobs[id].status == RolledBack
            && key in s''.records && s''.records[key].status == Active
  {
    JobRead(s, k, id);
    JobReads(s, k, h, promoting, rolling, id);
    var job := s.jobs[id];
    assert job.jobId == id;
    hide TablesOk, ReadStep, PromotePlan, RollbackPlan, Advanced, Steps;
    PromotionWrites(s, k, h, promoting, id, job);
    var s' := Steps(s, Carry(PromotePlan(h, k, promoting, id, Some(job))), 3).0;
    RollbackWrites(s', k, h, rolling, id, job);
  }

  lemma JobReads(s: Tables, k: KeyHierarchy, h: VaultHeader, promoting: Env, rolling: Env, id: string)
    requires id in s.jobs
    ensures ReadStep(s, Unlocked(RollbackRotation(id), None, rolling, h, k)) ==
            Carry(RollbackPlan(h, k, rolling, id, Some(s.jobs[id])))
    ensures ReadStep(s, Unlocked(PromoteRotation(id), None, promoting, h, k)) ==
            Carry(PromotePlan(h, k, promoting, id, Some(s.jobs[id])))
  {
    hide Carry, RollbackPlan, PromotePlan;
  }

  lemma PromotionWrites(s: Tables, k: KeyHierarchy, h: VaultHeader, env: Env, id: string, job: RotationJob)
    requires JobSeen(s, k, job) && job.jobId == id && job.status == Verified
    ensures var s' := Steps(s, Carry(PromotePlan(h, k, env, id, Some(job))), 3).0;
            var key := (job.secretRef, job.stagedVersion);
            id in s'.jobs && s'.jobs[id].status == Promoted && key in s'.records && s'.records[key].status == Active
  {
    hide DecryptSecret, Log, Steps, Follows;
    var plan := PromotePlan(h, k, env, id, Some(job));
    var es := plan.effects;
    WriteSteps(s, es[0], es[1], es[2], es[3], plan.outcome);
    hide Advanced;
  }

  lemma RollbackWrites(s: Tables, k: KeyHierarchy, h: VaultHeader, env: Env, id: string, job: RotationJob)
    requires job.jobId == id && job.status == Verified
    ensures var s' := Advanced(s, Carry(RollbackPlan(h, k, env, id, Some(job)))).0;
            id in s'.jobs && s'.jobs[id].status == RolledBack && s'.records == s.records
  {
    hide Log, ReadStep;
  }
}
