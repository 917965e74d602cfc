/** How often a ticket really yields its secret when processes interleave: the count of plaintexts
    handed out to consumes is kept beside the world and bounded by the ticket's uses. */
module Delivery {
  import opened Keys
  import opened Store
  import opened Operations
  import opened Invariants
  import opened Interleaving

  /** A world, the operation each process was last started with, and the plaintexts delivered per
      ticket id. */
  datatype Ledger = Ledger(world: World, ops: map<nat, Op>, delivered: map<string, nat>) {
    function Delivered(id: string): nat
    {
      if id in delivered then delivered[id] else 0
    }

    /** The process is consuming the ticket `id`. */
    predicate Consuming(process: nat, id: string)
    {
      process in ops && ops[process].ConsumeTicket? && ops[process].ticketId == id
    }
  }

  predicate HasPlaintext(pc: Pc)
  {
    pc.Finished? && pc.outcome.Ok? && pc.outcome.value.Plaintext?
  }

  ghost function Record(l: Ledger, event: Event): Ledger
  {
    var world := Interleaving.Next(l.world, event);
    match event
    case Begin(process, op, _, _) =>
      if l.world.At(process).Idle? || l.world.At(process).Finished? then Ledger(world, l.ops[process := op], l.delivered)
      else Ledger(world, l.ops, l.delivered)
    case Advance(process) =>
      if process in l.ops && l.ops[process].ConsumeTicket? && !l.world.At(process).Finished?
         && HasPlaintext(world.At(process)) then
        var id := l.ops[process].ticketId;
        Ledger(world, l.ops, l.delivered[id := l.Delivered(id) + 1])
      else Ledger(world, l.ops, l.delivered)
  }

  ghost function RecordAll(l: Ledger, events: seq<Event>): Ledger
    decreases |events|
  {
    if events == [] then l else RecordAll(Record(l, events[0]), events[1..])
  }

  // ---- The invariant ----

  /** The process has swapped the ticket and not finished. */
  predicate Paid(pc: Pc)
  {
    pc.Swapped? || pc.Writing?
  }

  /** Processes that have used up a use of ticket `id` and may still deliver. */
  ghost function Owing(l: Ledger, id: string): set<nat>
  {
    set process | process in l.world.pcs && l.Consuming(process, id) && Paid(l.world.pcs[process])
  }

  /** What a process remembers of its operation is the operation. */
  predicate Faithful(pc: Pc, op: Op)
  {
    match pc
    case Begun(o, _, _) => o == op
    case Exporting(o, _, _) => o == op
    case Permitted(o, _, _) => o == op
    case Unlocked(o, _, _, _, _) => o == op
    case Reunlocked(o, _, _, _) => o == op
    case Found(o, _, _, _, _) => o == op
    case Validated(o, _, _, _, t) => o == op && OnTicket(op) && t.body.ticketId == op.ticketId
    case PolicyChecked(o, _, _, _, t) => o == op && OnTicket(op) && t.body.ticketId == op.ticketId
    case Checked(o, _, _, _, t) => o == op && OnTicket(op) && t.body.ticketId == op.ticketId
    case Swapped(o, _, _, _, t) => o == op && OnTicket(op) && t.body.ticketId == op.ticketId
    case _ => true
  }

  ghost predicate Accounts(l: Ledger)
  {
    && (forall process <- l.world.pcs ::
          l.world.pcs[process].Idle? || (process in l.ops && Faithful(l.world.pcs[process], l.ops[process])))
    && (forall id :: |Owing(l, id)| + l.Delivered(id) <= l.world.Swaps(id))
  }

  ghost predicate LedgerOk(l: Ledger, k: KeyHierarchy)
  {
    WorldOk(l.world, k) && Accounts(l)
  }

  /** Every read keeps memory and operation in step; a consume that has not paid neither writes nor
      finishes with a plaintext. */
  lemma ReadFaithful(s: Tables, k: KeyHierarchy, pc: Pc, op: Op)
    requires TablesOk(s, k) && Faithful(pc, op) && !pc.Finished?
    ensures Faithful(ReadStep(s, pc), op)
    ensures op.ConsumeTicket? && !Paid(pc) ==> !Paid(ReadStep(s, pc)) && !HasPlaintext(ReadStep(s, pc))
  {
    hide LatestRecord, Unlock, PolicyCheck, CurrencyCheck, ActivePolicy, PlanOf, IssuePlan, RenewPlan, MaterializePlan,
         ReadForTicket, TotpEnrolled, Ordering.Listing, RecordsOk, JobsOk, PoliciesOk, Audit.Verifies, TicketOk, HeaderOk, LoadStep;
    if pc.Unlocked? || pc.Reunlocked? {
      if OnTicket(op) {
        LoadFaithful(s, k, op, pc.env, pc.h, pc.k);
      }
    }
  }

  lemma LoadFaithful(s: Tables, k: KeyHierarchy, op: Op, env: Env, h: VaultHeader, held: KeyHierarchy)
    requires TablesOk(s, k) && OnTicket(op)
    ensures var pc := LoadStep(s, op, env, h, held); Faithful(pc, op) && !Paid(pc) && !HasPlaintext(pc)
  {
    hide RecordsOk, JobsOk, PoliciesOk, Audit.Verifies, TicketOk, HeaderOk;
    if op.ticketId in s.tickets {
      assert s.tickets[op.ticketId].body.ticketId == op.ticketId;
    }
  }

  /** The same for any step. */
  lemma StepFaithful(s: Tables, k: KeyHierarchy, pc: Pc, op: Op)
    requires TablesOk(s, k) && Faithful(pc, op)
    ensures var pc' := Advanced(s, pc).1;
            && Faithful(pc', op)
            && (op.ConsumeTicket? && !Paid(pc) && !pc.Finished? ==>
                  !HasPlaintext(pc') && (Paid(pc') ==> Swapping(s, pc) && pc.ticket.body.ticketId == op.ticketId))
            && (pc.Finished? ==> pc' == pc)
  {
    hide TablesOk, ReadStep, SwapApplies, Do, Fresh;
    if !pc.Finished? {
      ReadFaithful(s, k, pc, op);
    } else {
      FinishedStays(s, pc);
    }
  }

  lemma FinishedStays(s: Tables, pc: Pc)
    requires pc.Finished?
    ensures Advanced(s, pc) == (s, pc)
  {
  }

  lemma IdleStays(s: Tables)
    ensures Advanced(s, Idle) == (s, Idle)
  {
  }

  lemma SameBut(a: set<nat>, b: set<nat>, x: nat)
    requires forall p :: p != x ==> (p in a <==> p in b)
    ensures |b| - (if x in b then 1 else 0) == |a| - (if x in a then 1 else 0)
  {
    var rest := a - {x};
    assert rest == b - {x};
    assert a == if x in a then rest + {x} else rest;
    assert b == if x in b then rest + {x} else rest;
  }

  lemma OwingWithout(l: Ledger, m: Ledger, process: nat, id: string)
    requires l.world.pcs.Keys <= m.world.pcs.Keys <= l.world.pcs.Keys + {process}
    requires forall p <- l.world.pcs :: p != process ==> m.world.pcs[p] == l.world.pcs[p]
    requires forall p :: p != process ==> (p in l.ops <==> p in m.ops) && (p in l.ops ==> l.ops[p] == m.ops[p])
    ensures |Owing(m, id)| - (if process in Owing(m, id) then 1 else 0) ==
            |Owing(l, id)| - (if process in Owing(l, id) then 1 else 0)
  {
    forall p | p != process ensures p in Owing(l, id) <==> p in Owing(m, id) {
      assert p in l.world.pcs <==> p in m.world.pcs;
      assert l.Consuming(p, id) <==> m.Consuming(p, id);
    }
    hide Owing;
    SameBut(Owing(l, id), Owing(m, id), process);
  }

  lemma RecordKeeps(l: Ledger, k: KeyHierarchy, event: Event)
    requires LedgerOk(l, k)
    ensures LedgerOk(Record(l, event), k)
  {
    NextKeeps(l.world, k, event);
    if event.Begin? {
      BeginKeeps(l, event);
    } else {
      AdvanceKeeps(l, k, event.process);
    }
  }

  lemma BegunOwesNothing(l: Ledger, event: Event)
    requires event.Begin? && Record(l, event).world != l.world
    ensures forall id :: event.process !in Owing(Record(l, event), id) && event.process !in Owing(l, id)
  {
  }

  lemma BeginShape(l: Ledger, event: Event)
    requires event.Begin?
    ensures var m, start := Record(l, event), Start(event.op, event.passphrase, event.env);
            && (m == l || m == Ledger(l.world.(pcs := l.world.pcs[event.process := start]),
                                      l.ops[event.process := event.op], l.delivered))
            && (m.world == l.world ==> m == l)
    ensures Faithful(Start(event.op, event.passphrase, event.env), event.op)
  {
    var start := Start(event.op, event.passphrase, event.env);
    assert !start.Idle? && !start.Finished?;
    if Record(l, event) != l {
      assert l.world.At(event.process) != start;
      assert Record(l, event).world.At(event.process) == start;
    }
  }

  lemma BeginKeeps(l: Ledger, event: Event)
    requires Accounts(l) && event.Begin?
    ensures Accounts(Record(l, event))
  {
    hide Owing, Record;
    BeginShape(l, event);
    var m := Record(l, event);
    if m.world != l.world {
      BegunOwesNothing(l, event);
      forall id ensures |Owing(m, id)| + m.Delivered(id) <= m.world.Swaps(id) {
        OwingWithout(l, m, event.process, id);
      }
    }
  }

  function Owes(l: Ledger, process: nat, id: string): nat
  {
    if process in l.world.pcs && l.Consuming(process, id) && Paid(l.world.pcs[process]) then 1 else 0
  }

  lemma AdvanceShape(l: Ledger, process: nat, id: string)
    ensures var m, pc := Record(l, Advance(process)), l.world.At(process);
            && process in m.world.pcs && m.world.pcs[process] == Advanced(l.world.tables, pc).1 && m.ops == l.ops
            && m.world.Swaps(id) == l.world.Swaps(id) +
               (if Swapping(l.world.tables, pc) && pc.ticket.body.ticketId == id then 1 else 0)
            && m.Delivered(id) == l.Delivered(id) +
               (if l.Consuming(process, id) && !pc.Finished? && HasPlaintext(m.world.pcs[process]) then 1 else 0)
  {
    hide Advanced, SwapApplies;
  }

  /** What the step adds to what the process owes and has delivered is covered by what it swapped. */
  lemma StepPaid(l: Ledger, k: KeyHierarchy, process: nat, id: string)
    requires WorldOk(l.world, k) && Accounts(l)
    ensures var m := Record(l, Advance(process));
            Owes(m, process, id) + m.Delivered(id) + l.world.Swaps(id) <=
            Owes(l, process, id) + l.Delivered(id) + m.world.Swaps(id)
  {
    hide Advanced, Faithful, Swapping, Record, Owing;
    var pc := l.world.At(process);
    AdvanceShape(l, process, id);
    if pc.Idle? {
      IdleStays(l.world.tables);
    } else {
      StepFaithful(l.world.tables, k, pc, l.ops[process]);
    }
  }

  lemma AdvanceKeeps(l: Ledger, k: KeyHierarchy, process: nat)
    requires WorldOk(l.world, k) && Accounts(l)
    ensures Accounts(Record(l, Advance(process)))
  {
    var m := Record(l, Advance(process));
    AdvanceFaithful(l, k, process);
    forall id ensures |Owing(m, id)| + m.Delivered(id) <= m.world.Swaps(id) {
      StepPaid(l, k, process, id);
      assert |Owing(l, id)| + l.Delivered(id) <= l.world.Swaps(id);
      AdvanceLocal(l, process);
      OwingWithout(l, m, process, id);
      assert process in Owing(l, id) <==> Owes(l, process, id) == 1;
      assert process in Owing(m, id) <==> Owes(m, process, id) == 1;
    }
  }

  lemma AdvanceLocal(l: Ledger, process: nat)
    ensures var m := Record(l, Advance(process));
            && l.world.pcs.Keys <= m.world.pcs.Keys <= l.world.pcs.Keys + {process}
            && (forall p <- l.world.pcs :: p != process ==> m.world.pcs[p] == l.world.pcs[p])
            && m.ops == l.ops
  {
    hide Advanced, Swapping;
  }

  lemma AdvanceElsewhere(l: Ledger, process: nat)
    ensures var m := Record(l, Advance(process));
            m.ops == l.ops && m.world.pcs == l.world.pcs[process := Advanced(l.world.tables, l.world.At(process)).1]
  {
    hide Advanced, Swapping, HasPlaintext;
  }

  lemma AdvanceFaithful(l: Ledger, k: KeyHierarchy, process: nat)
    requires WorldOk(l.world, k) && Accounts(l)
    ensures var m := Record(l, Advance(process));
            forall p <- m.world.pcs :: m.world.pcs[p].Idle? || (p in m.ops && Faithful(m.world.pcs[p], m.ops[p]))
  {
    hide Record, TablesOk, PcOk, Budget, Advanced, Faithful, Owing;
    AdvanceElsewhere(l, process);
    var pc := l.world.At(process);
    if pc.Idle? {
      IdleStays(l.world.tables);
    } else {
      StepFaithful(l.world.tables, k, pc, l.ops[process]);
    }
  }

  lemma {:induction false} RecordAllKeeps(l: Ledger, k: KeyHierarchy, events: seq<Event>)
    requires LedgerOk(l, k)
    ensures LedgerOk(RecordAll(l, events), k)
    ensures RecordAll(l, events).world == Run(l.world, events)
    decreases |events|
  {
    hide LedgerOk, Interleaving.Next;
    if events != [] {
      RecordKeeps(l, k, events[0]);
      RecordAllKeeps(Record(l, events[0]), k, events[1..]);
    }
  }

  /** In every interleaved run from creation, the plaintexts handed out to consumes of a ticket never
      outnumber its uses. */
  lemma DeliveriesBounded(h: VaultHeader, k: KeyHierarchy, env: Env, details: map<string, Audit.Json>, events: seq<Event>,
                          id: string)
    requires HeaderOk(h, k)
    ensures var l := RecordAll(Ledger(Opened(h, k, env, details), map[], map[]), events);
            l.Delivered(id) <= if id in l.world.tables.tickets then l.world.tables.tickets[id].body.maxUses else 0
  {
    var start := Ledger(Opened(h, k, env, details), map[], map[]);
    CreatedOk(h, k, env, details);
    OpenedBudget(h, k, env, details);
    assert forall i :: Owing(start, i) == {};
    hide TablesOk, RecordAll, Created;
    RecordAllKeeps(start, k, events);
  }
}
