/** `audit.rs`: the hash-chained, keyed audit log. Hashes and MACs are symbolic terms over the
    canonical payload; stored fields may also hold any other text. */
module Audit {
  import opened Wrappers
  import opened Keys
  import opened Envelope

  datatype Json = JNull | JBool(b: bool) | JNumber(n: int) | JString(s: string)

  /** What the writer supplies. */
  datatype Entry = Entry(
    eventId: string, timestamp: Stamp, vaultId: string, namespaceId: string,
    eventType: string, severity: string, decision: string, metadata: map<string, Json>)

  datatype Hash = ZeroHash | HashOf(entry: Entry, previous: Hash) | OtherHash(text: string)

  datatype Tag = MacOf(key: Key, entry: Entry, previous: Hash, hash: Hash) | OtherTag(text: string)

  datatype AuditEvent = AuditEvent(entry: Entry, previousHash: Hash, eventHash: Hash, eventMac: Tag)

  datatype AuditVerificationError = PreviousHashMismatch | EventHashMismatch | EventMacMismatch

  function Head(log: seq<AuditEvent>): Hash
  {
    if log == [] then ZeroHash else log[|log| - 1].eventHash
  }

  /** The event that chains `entry` to `previous` under `key`. */
  function SealEvent(key: Key, entry: Entry, previous: Hash): AuditEvent
  {
    var hash := HashOf(entry, previous);
    AuditEvent(entry, previous, hash, MacOf(key, entry, previous, hash))
  }

  function Appended(key: Key, log: seq<AuditEvent>, entry: Entry): seq<AuditEvent>
  {
    log + [SealEvent(key, entry, Head(log))]
  }

  class AuditManager {
    const macKey: Key
    var events: seq<AuditEvent>

    constructor (macKey: Key, events: seq<AuditEvent>)
      ensures this.macKey == macKey && this.events == events
    {
      this.macKey := macKey;
      this.events := events;
    }

    method Append(entry: Entry) returns (event: AuditEvent)
      modifies this
      ensures events == old(events) + [event] == Appended(macKey, old(events), entry)
    {
      var previousHash := if events == [] then ZeroHash else events[|events| - 1].eventHash;
      var eventHash := HashOf(entry, previousHash);
      event := AuditEvent(entry, previousHash, eventHash, MacOf(macKey, entry, previousHash, eventHash));
      events := events + [event];
    }
  }

  function EventError(event: AuditEvent, key: Key, previous: Hash): Option<AuditVerificationError>
  {
    if event.previousHash != previous then Some(PreviousHashMismatch)
    else if HashOf(event.entry, event.previousHash) != event.eventHash then Some(EventHashMismatch)
    else if MacOf(key, event.entry, event.previousHash, event.eventHash) != event.eventMac then Some(EventMacMismatch)
    else None
  }

  /** The log is accepted: no event has an error after the one before it. */
  ghost predicate Verifies(log: seq<AuditEvent>, key: Key)
  {
    forall i :: 0 <= i < |log| ==> EventError(log[i], key, Head(log[..i])) == None
  }

  /** The first error from position `n` on. */
  function ChainError(log: seq<AuditEvent>, key: Key, n: nat): Option<AuditVerificationError>
    requires n <= |log|
    decreases |log| - n
  {
    if n == |log| then None
    else
      var error := EventError(log[n], key, Head(log[..n]));
      if error.Some? then error else ChainError(log, key, n + 1)
  }

  lemma {:induction false} ChainErrorExact(log: seq<AuditEvent>, key: Key, n: nat)
    requires n <= |log|
    ensures ChainError(log, key, n) == None <==>
            forall i :: n <= i < |log| ==> EventError(log[i], key, Head(log[..i])) == None
    decreases |log| - n
  {
    if n < |log| {
      ChainErrorExact(log, key, n + 1);
    }
  }

  method VerifyAuditChain(events: seq<AuditEvent>, key: Key) returns (r: Result<(), AuditVerificationError>)
    ensures r == match ChainError(events, key, 0) case None => Ok(()) case Some(e) => Err(e)
    ensures r.Ok? <==> Verifies(events, key)
  {
    ChainErrorExact(events, key, 0);
    var previousHash := ZeroHash;
    for i := 0 to |events|
      invariant previousHash == Head(events[..i])
      invariant ChainError(events, key, i) == ChainError(events, key, 0)
    {
      var event := events[i];
      if event.previousHash != previousHash {
        return Err(PreviousHashMismatch);
      }
      if HashOf(event.entry, event.previousHash) != event.eventHash {
        return Err(EventHashMismatch);
      }
      if MacOf(key, event.entry, event.previousHash, event.eventHash) != event.eventMac {
        return Err(EventMacMismatch);
      }
      previousHash := event.eventHash;
    }
    return Ok(());
  }

  // ---- What a verifying log is ----

  function Entries(log: seq<AuditEvent>): seq<Entry>
  {
    seq(|log|, i requires 0 <= i < |log| => log[i].entry)
  }

  /** The log that appending `entries` one by one produces. */
  function Written(key: Key, entries: seq<Entry>): seq<AuditEvent>
  {
    if entries == [] then []
    else Appended(key, Written(key, entries[..|entries| - 1]), entries[|entries| - 1])
  }

  lemma VerifiesPrefix(log: seq<AuditEvent>, key: Key, n: nat)
    requires n <= |log| && Verifies(log, key)
    ensures Verifies(log[..n], key)
  {
    forall i | 0 <= i < n ensures EventError(log[..n][i], key, Head(log[..n][..i])) == None {
      assert log[..n][..i] == log[..i];
    }
  }

  lemma AppendVerifies(key: Key, log: seq<AuditEvent>, entry: Entry)
    requires Verifies(log, key)
    ensures Verifies(Appended(key, log, entry), key)
  {
    var after := Appended(key, log, entry);
    forall i | 0 <= i < |after| ensures EventError(after[i], key, Head(after[..i])) == None {
      assert after[..i] == log[..i];
      assert log[..|log|] == log;
    }
  }

  lemma {:induction false} WrittenVerifies(key: Key, entries: seq<Entry>)
    ensures Verifies(Written(key, entries), key)
  {
    if entries != [] {
      WrittenVerifies(key, entries[..|entries| - 1]);
      AppendVerifies(key, Written(key, entries[..|entries| - 1]), entries[|entries| - 1]);
    }
  }

  lemma {:induction false} VerifiedIsWritten(log: seq<AuditEvent>, key: Key)
    requires Verifies(log, key)
    ensures log == Written(key, Entries(log))
  {
    if log == [] {
      assert Entries(log) == [];
    } else {
      hide Verifies, Entries, SealEvent;
      var n := |log| - 1;
      var front := log[..n];
      EntriesPrefix(log, n);
      VerifiesPrefix(log, key, n);
      VerifiedIsWritten(front, key);
      LastIsSealed(log, key);
      assert Written(key, Entries(log)) == Appended(key, Written(key, Entries(log)[..n]), log[n].entry);
      assert log == front + [log[n]];
    }
  }

  lemma EntriesPrefix(log: seq<AuditEvent>, n: nat)
    requires n + 1 == |log|
    ensures |Entries(log)| == n + 1 && Entries(log)[n] == log[n].entry
    ensures Entries(log)[..n] == Entries(log[..n])
  {
  }

  lemma LastIsSealed(log: seq<AuditEvent>, key: Key)
    requires log != [] && Verifies(log, key)
    ensures var n := |log| - 1; log[n] == SealEvent(key, log[n].entry, Head(log[..n]))
  {
    assert EventError(log[|log| - 1], key, Head(log[..|log| - 1])) == None;
  }

  /** A log verifies exactly when it is, event for event, what appending its own entries
      under that key writes. */
  lemma VerifiesExact(log: seq<AuditEvent>, key: Key)
    ensures Verifies(log, key) <==> log == Written(key, Entries(log))
  {
    WrittenVerifies(key, Entries(log));
    if Verifies(log, key) {
      VerifiedIsWritten(log, key);
    }
  }

  /** If two logs verify under one key and the head of one is the hash of some event of the
      other, the first is exactly the other up to that event. So no interior edit, insertion,
      deletion or reordering goes unnoticed while the head hash is known. */
  lemma {:induction false} HeadDeterminesLog(a: seq<AuditEvent>, b: seq<AuditEvent>, key: Key, i: nat)
    requires Verifies(a, key) && Verifies(b, key)
    requires a != [] && i < |b| && Head(a) == b[i].eventHash
    ensures a == b[..i + 1]
    decreases |a|
  {
    hide Verifies;
    var n := |a| - 1;
    LastIsSealed(a, key);
    VerifiesPrefix(a, key, n);
    VerifiesPrefix(b, key, i);
    VerifiesPrefix(b, key, i + 1);
    LastIsSealed(b[..i + 1], key);
    assert b[..i + 1][..i] == b[..i];
    assert Head(a[..n]) == Head(b[..i]);
    HeadNotZero(a[..n], key);
    HeadNotZero(b[..i], key);
    if n > 0 {
      assert b[..i][i - 1] == b[i - 1];
      HeadDeterminesLog(a[..n], b, key, i - 1);
    }
    assert a == a[..n] + [a[n]] && b[..i + 1] == b[..i] + [b[i]];
  }

  /** The same head means the same log. */
  lemma LogUnique(a: seq<AuditEvent>, b: seq<AuditEvent>, key: Key)
    requires Verifies(a, key) && Verifies(b, key) && Head(a) == Head(b)
    ensures a == b
  {
    HeadNotZero(a, key);
    HeadNotZero(b, key);
    if a != [] {
      HeadDeterminesLog(a, b, key, |b| - 1);
      assert b[..|b|] == b;
    }
  }

  lemma HeadNotZero(log: seq<AuditEvent>, key: Key)
    requires Verifies(log, key)
    ensures Head(log) == ZeroHash <==> log == []
  {
    if log != [] {
      assert EventError(log[|log| - 1], key, Head(log[..|log| - 1])) == None;
    }
  }
}
