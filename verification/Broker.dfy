/** `broker_daemon.rs`: the broker's session. Socket commands hold the state lock throughout; a
    gateway request takes it twice, to copy what it needs and, later, to note its activity.
    What the vault answers is a parameter. Instants are in nanoseconds. */
module Broker {
  import opened Wrappers
  import opened Policy
  import opened Tickets

  datatype Session = Session(
    passphrase: Option<string>,
    unlocked: bool,
    mfaVerified: bool,
    sessionId: Option<string>,
    lastActivity: Option<int>)

  const LOCKED := Session(None, false, false, None, None)

  /** What an access request copies from the state. */
  datatype Snapshot = Snapshot(passphrase: Option<string>, mfaVerified: bool, sessionId: Option<string>)

  datatype Command =
    | Malformed
    | Status
    | Unlock(passphrase: Option<string>, mfaCode: Option<string>)
    | MfaVerify(mfaCode: Option<string>)
    | Lock
    | Access
    | Unknown

  /** The clock when a command is accepted, checked and done. */
  datatype Times = Times(accepted: int, checked: int, done: int)

  /** The vault opens with the passphrase, the code is valid, the access succeeds. */
  datatype Answers = Answers(opens: bool, codeValid: bool, succeeds: bool)

  datatype Reply =
    | StatusReply(unlocked: bool, mfaVerified: bool, lastActivity: Option<int>)
    | UnlockedReply(mfaVerified: bool)
    | LockedReply
    | Served(used: Snapshot)
    | Failed(used: Snapshot)
    | NotUnlocked
    | Rejected

  // ---- The state transitions ----

  predicate Idle(s: Session, timeout: int, now: int)
  {
    s.unlocked && timeout > 0 && s.lastActivity.Some? && now - s.lastActivity.value > timeout
  }

  function AfterIdle(s: Session, timeout: int, now: int): Session
  {
    if Idle(s, timeout, now) then LOCKED else s
  }

  function Marked(s: Session, now: int): Session
  {
    s.(lastActivity := Some(now))
  }

  function Copy(s: Session): Snapshot
  {
    Snapshot(s.passphrase, s.mfaVerified, s.sessionId)
  }

  function Handle(s0: Session, timeout: int, command: Command, times: Times, answers: Answers, newId: string): (Session, Reply)
  {
    var s := AfterIdle(s0, timeout, times.accepted);
    match command
    case Malformed => (s, Rejected)
    case Status => (s, StatusReply(s.unlocked, s.mfaVerified, s.lastActivity))
    case Unlock(passphrase, mfaCode) =>
      if !answers.opens then (s, Rejected)
      else if mfaCode.Some? && !answers.codeValid then (s.(mfaVerified := false, passphrase := None), Rejected)
      else (Session(passphrase, true, mfaCode.Some?, Some(newId), Some(times.done)), UnlockedReply(mfaCode.Some?))
    case MfaVerify(mfaCode) =>
      var c := AfterIdle(s, timeout, times.checked);
      if !c.unlocked then (c, NotUnlocked)
      else if mfaCode.None? || !answers.codeValid then (c, Rejected)
      else (Marked(c.(mfaVerified := true), times.done), UnlockedReply(true))
    case Lock => (LOCKED, LockedReply)
    case Access =>
      var c := AfterIdle(s, timeout, times.checked);
      if !c.unlocked then (c, NotUnlocked)
      else if !answers.succeeds then (c, Failed(Copy(c)))
      else (Marked(c, times.done), Served(Copy(c)))
    case Unknown => (s, Rejected)
  }

  class BrokerState {
    const idleTimeout: int
    var unlockedPassphrase: Option<string>
    var unlocked: bool
    var mfaVerified: bool
    var brokerSessionId: Option<string>
    var lastActivity: Option<int>

    constructor (idleTimeout: int)
      ensures View() == LOCKED && this.idleTimeout == idleTimeout
    {
      this.idleTimeout := idleTimeout;
      unlockedPassphrase, unlocked, mfaVerified, brokerSessionId, lastActivity := None, false, false, None, None;
    }

    function View(): Session
      reads this
    {
      Session(unlockedPassphrase, unlocked, mfaVerified, brokerSessionId, lastActivity)
    }

    method ExpireIdleUnlock(now: int)
      modifies this
      ensures View() == AfterIdle(old(View()), idleTimeout, now)
    {
      if !unlocked || idleTimeout <= 0 {
        return;
      }
      if lastActivity.None? {
        return;
      }
      if now - lastActivity.value > idleTimeout {
        unlockedPassphrase := None;
        unlocked := false;
        mfaVerified := false;
        brokerSessionId := None;
        lastActivity := None;
      }
    }

    method RequireUnlocked(now: int) returns (ok: bool)
      modifies this
      ensures View() == AfterIdle(old(View()), idleTimeout, now) && ok == View().unlocked
    {
      ExpireIdleUnlock(now);
      ok := unlocked;
    }

    method MarkActivity(now: int)
      modifies this
      ensures View() == Marked(old(View()), now)
    {
      lastActivity := Some(now);
    }

    method HandleConnection(command: Command, times: Times, answers: Answers, newId: string) returns (reply: Reply)
      modifies this
      ensures (View(), reply) == Handle(old(View()), idleTimeout, command, times, answers, newId)
    {
      ExpireIdleUnlock(times.accepted);
      match command {
        case Malformed =>
          return Rejected;
        case Status =>
          return StatusReply(unlocked, mfaVerified, lastActivity);
        case Unlock(passphrase, mfaCode) =>
          if !answers.opens {
            return Rejected;
          }
          mfaVerified := false;
          unlockedPassphrase := passphrase;
          if mfaCode.Some? {
            if !answers.codeValid {
              unlockedPassphrase := None;
              return Rejected;
            }
            mfaVerified := true;
          }
          unlocked := true;
          brokerSessionId := Some(newId);
          MarkActivity(times.done);
          return UnlockedReply(mfaVerified);
        case MfaVerify(mfaCode) =>
          var ok := RequireUnlocked(times.checked);
          if !ok {
            return NotUnlocked;
          }
          if mfaCode.None? || !answers.codeValid {
            return Rejected;
          }
          mfaVerified := true;
          MarkActivity(times.done);
          return UnlockedReply(true);
        case Lock =>
          unlockedPassphrase := None;
          unlocked := false;
          mfaVerified := false;
          brokerSessionId := None;
          lastActivity := None;
          return LockedReply;
        case Access =>
          var ok := RequireUnlocked(times.checked);
          if !ok {
            return NotUnlocked;
          }
          var used := Copy(View());
          if !answers.succeeds {
            return Failed(used);
          }
          MarkActivity(times.done);
          return Served(used);
        case Unknown =>
          return Rejected;
      }
    }

    /** The gateway's first section. */
    method GatewayCopy(now: int) returns (r: Option<Snapshot>)
      modifies this
      ensures View() == AfterIdle(old(View()), idleTimeout, now)
      ensures r == if View().unlocked then Some(Copy(View())) else None
    {
      var ok := RequireUnlocked(now);
      if !ok {
        return None;
      }
      return Some(Copy(View()));
    }
  }

  // ---- Any mixture of socket commands and gateway requests ----

  /** The session, the copies held by gateway requests in flight, every session id drawn so far,
      and the last access request built. */
  datatype World = World(session: Session, inFlight: map<nat, Snapshot>, drawn: set<string>, built: Option<Snapshot>)

  datatype Event =
    | Socket(command: Command, times: Times, answers: Answers, newId: string)
    | GatewayBegins(request: nat, now: int)
    | GatewayEnds(request: nat, succeeded: bool, now: int)

  function UsedBy(reply: Reply): Option<Snapshot>
  {
    match reply
    case Served(used) => Some(used)
    case Failed(used) => Some(used)
    case _ => None
  }

  function Next(w: World, timeout: int, e: Event): World
  {
    match e
    case Socket(command, times, answers, newId) =>
      var (session, reply) := Handle(w.session, timeout, command, times, answers, newId);
      World(session, w.inFlight, if reply.UnlockedReply? && command.Unlock? then w.drawn + {newId} else w.drawn, UsedBy(reply))
    case GatewayBegins(request, now) =>
      var session := AfterIdle(w.session, timeout, now);
      if session.unlocked then World(session, w.inFlight[request := Copy(session)], w.drawn, Some(Copy(session)))
      else w.(session := session, built := None)
    case GatewayEnds(request, succeeded, now) =>
      if request in w.inFlight && succeeded then
        World(Marked(w.session, now), w.inFlight - {request}, w.drawn, None)
      else World(w.session, w.inFlight - {request}, w.drawn, None)
  }

  function Run(w: World, timeout: int, events: seq<Event>): World
    decreases |events|
  {
    if events == [] then w else Run(Next(w, timeout, events[0]), timeout, events[1..])
  }

  /** Random session ids do not repeat. */
  predicate FreshIds(w: World, timeout: int, events: seq<Event>)
    decreases |events|
  {
    events == [] ||
    ((events[0].Socket? && events[0].command.Unlock? ==> events[0].newId !in w.drawn)
     && FreshIds(Next(w, timeout, events[0]), timeout, events[1..]))
  }

  const BOOTED := World(LOCKED, map[], {}, None)

  /** Unlocked exactly while there is a session; MFA and passphrase only while unlocked; an
      unlocked state can expire. */
  predicate SessionOk(s: Session)
  {
    && (s.unlocked <==> s.sessionId.Some?)
    && (s.mfaVerified ==> s.unlocked)
    && (!s.unlocked ==> s.passphrase.None?)
    && (s.unlocked ==> s.lastActivity.Some?)
  }

  predicate WorldOk(w: World)
  {
    && SessionOk(w.session)
    && (w.session.sessionId.Some? ==> w.session.sessionId.value in w.drawn)
    && (forall r <- w.inFlight :: w.inFlight[r].sessionId.Some? && w.inFlight[r].sessionId.value in w.drawn)
  }

  lemma NextKeeps(w: World, timeout: int, e: Event)
    requires WorldOk(w)
    ensures WorldOk(Next(w, timeout, e))
  {
  }

  /** In every run of the broker, gateway included, the session invariant holds. */
  lemma {:induction false} RunKeeps(w: World, timeout: int, events: seq<Event>)
    requires WorldOk(w)
    ensures WorldOk(Run(w, timeout, events))
    decreases |events|
  {
    if events != [] {
      NextKeeps(w, timeout, events[0]);
      hide Next, WorldOk;
      RunKeeps(Next(w, timeout, events[0]), timeout, events[1..]);
    }
  }

  /** Drawn, but not the current session. */
  predicate Ended(w: World, id: string)
  {
    id in w.drawn && w.session.sessionId != Some(id)
  }

  lemma EndedStays(w: World, timeout: int, e: Event, id: string)
    requires WorldOk(w) && Ended(w, id)
    requires e.Socket? && e.command.Unlock? ==> e.newId !in w.drawn
    ensures Ended(Next(w, timeout, e), id)
    ensures var built := Next(w, timeout, e).built;
            built.Some? ==> built.value.sessionId.Some? && built.value.sessionId != Some(id)
  {
  }

  /** Once a session has ended it stays ended, and no access request built afterwards, by a command
      or by the gateway, carries it. */
  lemma {:induction false} EndedForGood(w: World, timeout: int, events: seq<Event>, id: string)
    requires WorldOk(w) && Ended(w, id) && FreshIds(w, timeout, events)
    ensures var v := Run(w, timeout, events);
            && Ended(v, id)
            && (events != [] && v.built.Some? ==> v.built.value.sessionId.Some? && v.built.value.sessionId != Some(id))
    decreases |events|
  {
    if events != [] {
      NextKeeps(w, timeout, events[0]);
      EndedStays(w, timeout, events[0], id);
      hide Next, WorldOk, Ended;
      EndedForGood(Next(w, timeout, events[0]), timeout, events[1..], id);
    }
  }

  /** So no ticket bound to an ended session validates for a request built after its end. */
  lemma EndedSessionRefused(timeout: int, events: seq<Event>, more: seq<Event>, id: string, manager: TicketManager,
                            t: SecretAccessTicket, q: AccessRequest, now: int)
    requires FreshIds(Run(BOOTED, timeout, events), timeout, more)
    requires Ended(Run(BOOTED, timeout, events), id) && more != []
    requires var v := Run(Run(BOOTED, timeout, events), timeout, more);
             v.built.Some? && q.brokerSessionId == v.built.value.sessionId
    requires t.body.brokerSessionId == Some(id)
    ensures manager.Validate(t, q, now).Err?
  {
    RunKeeps(BOOTED, timeout, events);
    hide Run, FreshIds, WorldOk, Ended;
    EndedForGood(Run(BOOTED, timeout, events), timeout, more, id);
  }

  /** An access is refused exactly when locked, or idle too long when accepted or when checked. */
  lemma AccessExact(s: Session, timeout: int, times: Times, answers: Answers, newId: string)
    requires SessionOk(s)
    ensures var reply := Handle(s, timeout, Access, times, answers, newId).1;
            && (reply == NotUnlocked <==> !s.unlocked || Idle(s, timeout, times.accepted) || Idle(s, timeout, times.checked))
            && (reply != NotUnlocked ==> UsedBy(reply) == Some(Copy(s)))
  {
  }

  /** While locked, and until an unlock succeeds, no access request is built by anyone. */
  lemma {:induction false} NothingBuiltWhileLocked(w: World, timeout: int, events: seq<Event>)
    requires WorldOk(w) && !w.session.unlocked
    requires forall i :: 0 <= i < |events| ==> !(events[i].Socket? && events[i].command.Unlock? && events[i].answers.opens)
    ensures var v := Run(w, timeout, events);
            !v.session.unlocked && (events != [] ==> v.built.None?)
    decreases |events|
  {
    if events != [] {
      var v := Next(w, timeout, events[0]);
      NextKeeps(w, timeout, events[0]);
      assert !(events[0].Socket? && events[0].command.Unlock? && events[0].answers.opens);
      assert !v.session.unlocked && v.built.None?;
      hide Next, WorldOk;
      assert forall i :: 0 <= i < |events[1..]| ==> events[1..][i] == events[i + 1];
      NothingBuiltWhileLocked(v, timeout, events[1..]);
    }
  }

  // ---- What every state of a run goes back to ----

  /** The world after the first `n` events. */
  function After(timeout: int, events: seq<Event>, n: nat): World
    requires n <= |events|
  {
    Run(BOOTED, timeout, events[..n])
  }

  lemma {:induction false} RunLast(w: World, timeout: int, events: seq<Event>)
    requires events != []
    ensures Run(w, timeout, events) == Next(Run(w, timeout, events[..|events| - 1]), timeout, events[|events| - 1])
    decreases |events|
  {
    hide Next;
    var front := events[..|events| - 1];
    if front == [] {
      assert events[1..] == [];
      assert Run(Next(w, timeout, events[0]), timeout, []) == Next(w, timeout, events[0]);
    } else {
      assert front[1..] == events[1..][..|events[1..]| - 1];
      RunLast(Next(w, timeout, events[0]), timeout, events[1..]);
    }
  }

  lemma AfterStep(timeout: int, events: seq<Event>, n: nat)
    requires n < |events|
    ensures After(timeout, events, n + 1) == Next(After(timeout, events, n), timeout, events[n])
  {
    hide Next;
    var prefix := events[..n + 1];
    assert prefix[..n] == events[..n] && prefix[n] == events[n];
    RunLast(BOOTED, timeout, prefix);
  }

  lemma AfterOk(timeout: int, events: seq<Event>, n: nat)
    requires n <= |events|
    ensures WorldOk(After(timeout, events, n)) && After(timeout, events, 0) == BOOTED
  {
    RunKeeps(BOOTED, timeout, events[..n]);
  }

  predicate Unlocks(w: World, timeout: int, e: Event)
  {
    e.Socket? && e.command.Unlock? && Handle(w.session, timeout, e.command, e.times, e.answers, e.newId).1.UnlockedReply?
  }

  /** An unlock the vault would allow, refused for its code. */
  predicate CodeRefused(e: Event)
  {
    e.Socket? && e.command.Unlock? && e.answers.opens && e.command.mfaCode.Some? && !e.answers.codeValid
  }

  /** Event `i` opened the session that is still the one at `n`. */
  predicate OpenedAt(timeout: int, events: seq<Event>, i: nat, n: nat)
    requires n <= |events|
  {
    && i < n && Unlocks(After(timeout, events, i), timeout, events[i])
    && forall j :: i < j < n ==> !Unlocks(After(timeout, events, j), timeout, events[j])
                                 && After(timeout, events, j).session.unlocked
  }

  predicate CodeRefusedSince(events: seq<Event>, i: nat, n: nat)
    requires n <= |events|
  {
    exists j :: i < j < n && CodeRefused(events[j])
  }

  lemma SessionStep(w: World, timeout: int, e: Event)
    requires WorldOk(w)
    ensures var v := Next(w, timeout, e);
            if Unlocks(w, timeout, e) then
              v.session.unlocked && v.session.sessionId == Some(e.newId) && v.session.passphrase == e.command.passphrase
            else if v.session.unlocked then
              w.session.unlocked && v.session.sessionId == w.session.sessionId
              && v.session.passphrase == if CodeRefused(e) then None else w.session.passphrase
            else true
  {
  }

  /** An unlocked broker is in the session of its last successful unlock. It holds that unlock's
      passphrase unless the code of a later unlock was refused: then, and only then, it is unlocked
      with the passphrase gone. */
  lemma {:induction false} UnlockedSince(timeout: int, events: seq<Event>, n: nat) returns (i: nat)
    requires n <= |events| && After(timeout, events, n).session.unlocked
    ensures OpenedAt(timeout, events, i, n)
    ensures var s := After(timeout, events, n).session;
            && s.sessionId == Some(events[i].newId)
            && s.passphrase == if CodeRefusedSince(events, i, n) then None else events[i].command.passphrase
    decreases n
  {
    hide Next, Run, After, WorldOk, CodeRefused;
    AfterOk(timeout, events, n);
    assert n > 0 by {
      assert !BOOTED.session.unlocked;
    }
    var m := n - 1;
    AfterStep(timeout, events, m);
    AfterOk(timeout, events, m);
    SessionStep(After(timeout, events, m), timeout, events[m]);
    if Unlocks(After(timeout, events, m), timeout, events[m]) {
      i := m;
    } else {
      i := UnlockedSince(timeout, events, m);
      assert CodeRefusedSince(events, i, n) <==> CodeRefusedSince(events, i, m) || CodeRefused(events[m]) by {
        if j :| i < j < n && CodeRefused(events[j]) {
          assert j < m || j == m;
        }
      }
    }
  }

  // ---- Where more could be hoped for ----

  /** After a code refused during an unlock the broker is unlocked exactly if it was and had not idled
      out; either way passphrase and MFA are gone, and a kept session is the old one. */
  lemma FailedMfaKeepsUnlocked(s: Session, timeout: int, passphrase: Option<string>, code: string, times: Times,
                               answers: Answers, newId: string)
    requires SessionOk(s) && answers.opens && !answers.codeValid
    ensures var (after, reply) := Handle(s, timeout, Unlock(passphrase, Some(code)), times, answers, newId);
            && reply == Rejected
            && (after.unlocked <==> s.unlocked && !Idle(s, timeout, times.accepted))
            && after.passphrase.None? && !after.mfaVerified
            && after.sessionId == if after.unlocked then s.sessionId else None
  {
  }

  /** The successful end of a gateway request that is in flight. */
  predicate Notes(w: World, e: Event)
  {
    e.GatewayEnds? && e.succeeded && e.request in w.inFlight
  }

  predicate IsLock(e: Event)
  {
    e.Socket? && e.command.Lock?
  }

  /** Such an end at `i`, in the locked spell that lasts to `n`, with no lock command since. */
  predicate NotedAt(timeout: int, events: seq<Event>, i: nat, n: nat)
    requires n <= |events|
  {
    && i < n && Notes(After(timeout, events, i), events[i])
    && (forall j :: i <= j <= n ==> !After(timeout, events, j).session.unlocked)
    && (forall j :: i < j < n ==> !IsLock(events[j]))
  }

  lemma LockedStep(w: World, timeout: int, e: Event)
    requires WorldOk(w) && !Next(w, timeout, e).session.unlocked
    ensures var last := Next(w, timeout, e).session.lastActivity;
            if w.session.unlocked || IsLock(e) then last.None?
            else if Notes(w, e) then last.Some?
            else last == w.session.lastActivity
  {
  }

  lemma NotesNoLock(w: World, e: Event)
    ensures !(Notes(w, e) && IsLock(e))
  {
  }

  lemma NotedLocked(timeout: int, events: seq<Event>, m: nat, n: nat)
    requires m < |events| && n == m + 1
    ensures forall i: nat :: NotedAt(timeout, events, i, n) ==> !After(timeout, events, m).session.unlocked
  {
    hide Next, Run, After, Notes, IsLock;
  }

  /** A locked broker has a last activity exactly if a gateway request, begun before, has ended
      successfully since it locked. */
  lemma {:induction false} ActivityWhileLocked(timeout: int, events: seq<Event>, n: nat)
    requires n <= |events| && !After(timeout, events, n).session.unlocked
    ensures After(timeout, events, n).session.lastActivity.Some? <==> exists i: nat :: NotedAt(timeout, events, i, n)
    decreases n
  {
    hide Next, Run, After, WorldOk, Notes, IsLock;
    AfterOk(timeout, events, n);
    if n == 0 {
      assert BOOTED.session.lastActivity.None?;
    } else {
      var m := n - 1;
      AfterStep(timeout, events, m);
      AfterOk(timeout, events, m);
      LockedStep(After(timeout, events, m), timeout, events[m]);
      NotesNoLock(After(timeout, events, m), events[m]);
      if !After(timeout, events, m).session.unlocked {
        ActivityWhileLocked(timeout, events, m);
        NotedStep(timeout, events, m, n);
        hide NotedAt;
        if i: nat :| NotedAt(timeout, events, i, m) {
          assert !IsLock(events[m]) && i < m ==> NotedAt(timeout, events, i, n);
        }
      } else {
        NotedLocked(timeout, events, m, n);
      }
    }
  }

  lemma NotedStep(timeout: int, events: seq<Event>, m: nat, n: nat)
    requires m < |events| && n == m + 1
    requires !After(timeout, events, m).session.unlocked && !After(timeout, events, n).session.unlocked
    ensures Notes(After(timeout, events, m), events[m]) ==> NotedAt(timeout, events, m, n)
    ensures forall i: nat :: i < m ==>
              (NotedAt(timeout, events, i, n) <==> NotedAt(timeout, events, i, m) && !IsLock(events[m]))
    ensures forall i: nat :: NotedAt(timeout, events, i, n) ==> i <= m
    ensures forall i: nat :: NotedAt(timeout, events, i, m) ==> i < m
    ensures NotedAt(timeout, events, m, n) ==> Notes(After(timeout, events, m), events[m])
  {
    hide Next, Run, After, Notes, IsLock;
  }

  /** Request `request` took its copy at event `i` and has neither ended nor taken another since. */
  predicate TakenAt(timeout: int, events: seq<Event>, i: nat, n: nat, request: nat)
    requires n <= |events|
  {
    && i < n && Takes(After(timeout, events, i), timeout, events[i], request)
    && forall j :: i < j < n ==> !Takes(After(timeout, events, j), timeout, events[j], request) && !Drops(events[j], request)
  }

  predicate Takes(w: World, timeout: int, e: Event, request: nat)
  {
    e.GatewayBegins? && e.request == request && AfterIdle(w.session, timeout, e.now).unlocked
  }

  predicate Drops(e: Event, request: nat)
  {
    e.GatewayEnds? && e.request == request
  }

  lemma InFlightStep(w: World, timeout: int, e: Event, request: nat)
    ensures var v := Next(w, timeout, e);
            if Takes(w, timeout, e, request) then request in v.inFlight && v.inFlight[request] == Copy(v.session)
            else if Drops(e, request) then request !in v.inFlight
            else (request in v.inFlight <==> request in w.inFlight)
                 && (request in v.inFlight ==> v.inFlight[request] == w.inFlight[request])
  {
  }

  /** A gateway request in flight holds exactly what the session was when it took its copy, whatever
      was locked or unlocked since. So it carries an ended session's id exactly if it took its copy
      while that session was current. */
  lemma {:induction false} InFlightExact(timeout: int, events: seq<Event>, n: nat, request: nat)
    requires n <= |events|
    ensures var w := After(timeout, events, n);
            && (request in w.inFlight <==> exists i: nat :: TakenAt(timeout, events, i, n, request))
            && forall i: nat :: TakenAt(timeout, events, i, n, request) ==>
                 request in w.inFlight && w.inFlight[request] == Copy(After(timeout, events, i + 1).session)
    decreases n
  {
    hide Next, Run, After, Takes, Drops, Copy;
    AfterOk(timeout, events, n);
    if n > 0 {
      var m := n - 1;
      AfterStep(timeout, events, m);
      InFlightStep(After(timeout, events, m), timeout, events[m], request);
      InFlightExact(timeout, events, m, request);
      TakenStep(timeout, events, m, n, request);
    }
  }

  lemma TakenStep(timeout: int, events: seq<Event>, m: nat, n: nat, request: nat)
    requires m < |events| && n == m + 1
    ensures TakenAt(timeout, events, m, n, request) <==> Takes(After(timeout, events, m), timeout, events[m], request)
    ensures forall i: nat :: i < m ==>
              (TakenAt(timeout, events, i, n, request) <==>
                 TakenAt(timeout, events, i, m, request)
                 && !Takes(After(timeout, events, m), timeout, events[m], request) && !Drops(events[m], request))
    ensures forall i: nat :: TakenAt(timeout, events, i, n, request) ==> i <= m
  {
    hide Next, Run, After, Takes, Drops;
  }

  /** From any unlocked session: a gateway request that took its copy before a lock still holds the
      ended session's id afterwards, and its successful end notes activity in the locked state. */
  lemma LockMissesGateway(w: World, timeout: int, request: nat, now: int, times: Times, answers: Answers, newId: string,
                          ended: int)
    requires WorldOk(w) && w.session.unlocked && !Idle(w.session, timeout, now)
    ensures var taken := Next(w, timeout, GatewayBegins(request, now));
            var locked := Next(taken, timeout, Socket(Lock, times, answers, newId));
            && locked.session == LOCKED && Ended(locked, w.session.sessionId.value)
            && request in locked.inFlight && locked.inFlight[request] == Copy(w.session)
            && SessionMatches(w.session.sessionId, locked.inFlight[request].sessionId)
            && Next(locked, timeout, GatewayEnds(request, true, ended)).session == LOCKED.(lastActivity := Some(ended))
  {
  }
}
