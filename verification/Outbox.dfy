/** The audit outbox as its two implementations keep it: one entry per event and sink, pending until
    it is acknowledged with its own digest. */
module Outbox {
  import opened Wrappers

  datatype Key = Key(event: nat, sink: nat)

  /** digest is fixed when the entry is made. */
  datatype Entry =
    | Pending(digest: nat, attempts: nat, error: Option<nat>)
    | Acknowledged(digest: nat, id: nat)

  datatype Ack = Ack(key: Key, digest: nat, id: nat)

  datatype Refusal = IdentityConflict | EntryNotFound | AcknowledgementConflict

  type Entries = map<Key, Entry>

  datatype Answer = Made(entries: Entries) | Refused(reason: Refusal)

  function Enqueue(o: Entries, k: Key, digest: nat): Answer
  {
    if k in o then if o[k].digest == digest then Made(o) else Refused(IdentityConflict)
    else Made(o[k := Pending(digest, 0, None)])
  }

  /** strict tells the implementations apart: what a mark on an acknowledged entry does. */
  function Mark(o: Entries, k: Key, error: Option<nat>, strict: bool): Answer
  {
    if k !in o then Refused(EntryNotFound)
    else if o[k].Acknowledged? then if strict then Refused(EntryNotFound) else Made(o)
    else Made(o[k := Pending(o[k].digest, o[k].attempts + 1, error)])
  }

  function Acknowledge(o: Entries, ack: Ack): Answer
  {
    if ack.key !in o || o[ack.key].digest != ack.digest then Refused(AcknowledgementConflict)
    else if o[ack.key].Acknowledged? then Made(o)
    else Made(o[ack.key := Acknowledged(ack.digest, ack.id)])
  }

  function Next(sequences: map<nat, nat>, run: nat): nat { if run in sequences then sequences[run] + 1 else 1 }

  // ---------------------------------------------------------------- in memory: two maps

  datatype Delivery = Delivery(digest: nat, attempts: nat, error: Option<nat>)

  class InMemoryEventLedger {
    var sequences: map<nat, nat>
    var pending: map<Key, Delivery>
    var acknowledged: map<Key, Ack>

    ghost predicate Valid()
      reads this
    {
      && pending.Keys !! acknowledged.Keys
      && forall k :: k in acknowledged ==> acknowledged[k].key == k
    }

    ghost function View(): Entries
      reads this
    {
      map k | k in pending.Keys + acknowledged.Keys ::
        if k in pending then Pending(pending[k].digest, pending[k].attempts, pending[k].error)
        else Acknowledged(acknowledged[k].digest, acknowledged[k].id)
    }

    constructor ()
      ensures Valid() && View() == map[] && sequences == map[]
    {
      sequences, pending, acknowledged := map[], map[], map[];
    }

    method NextSequence(run: nat) returns (n: nat)
      requires Valid()
      modifies this`sequences
      ensures Valid() && View() == old(View())
      ensures n == Next(old(sequences), run) && sequences == old(sequences)[run := n]
    {
      n := (if run in sequences then sequences[run] else 0) + 1;
      sequences := sequences[run := n];
    }

    method EnqueueEvent(k: Key, digest: nat) returns (refused: Option<Refusal>)
      requires Valid()
      modifies this`pending
      ensures Valid()
      ensures match Enqueue(old(View()), k, digest)
              case Made(entries) => refused == None && View() == entries
              case Refused(reason) => refused == Some(reason) && View() == old(View())
    {
      var existing := if k in pending then Some(pending[k].digest)
                      else if k in acknowledged then Some(acknowledged[k].digest) else None;
      if existing.Some? && existing.value != digest { return Some(IdentityConflict); }
      if k !in pending && k !in acknowledged { pending := pending[k := Delivery(digest, 0, None)]; }
      refused := None;
    }

    method MarkAttempt(k: Key, error: Option<nat>) returns (refused: Option<Refusal>)
      requires Valid()
      modifies this`pending
      ensures Valid()
      ensures match Mark(old(View()), k, error, false)
              case Made(entries) => refused == None && View() == entries
              case Refused(reason) => refused == Some(reason) && View() == old(View())
    {
      if k !in pending {
        if k in acknowledged { return None; }
        return Some(EntryNotFound);
      }
      pending := pending[k := Delivery(pending[k].digest, pending[k].attempts + 1, error)];
      refused := None;
    }

    method AcknowledgeEvent(ack: Ack) returns (refused: Option<Refusal>)
      requires Valid()
      modifies this`pending, this`acknowledged
      ensures Valid()
      ensures match Acknowledge(old(View()), ack)
              case Made(entries) => refused == None && View() == entries
              case Refused(reason) => refused == Some(reason) && View() == old(View())
    {
      if ack.key in acknowledged {
        if acknowledged[ack.key].digest != ack.digest { return Some(AcknowledgementConflict); }
        return None;
      }
      if ack.key !in pending || pending[ack.key].digest != ack.digest { return Some(AcknowledgementConflict); }
      acknowledged := acknowledged[ack.key := ack];
      pending := pending - {ack.key};
      refused := None;
    }
  }

  // ---------------------------------------------------------------- durable: rows with a status

  datatype RowStatus = RowPending | RowAcknowledged

  datatype Row = Row(digest: nat, status: RowStatus, attempts: nat, lastError: Option<nat>, acknowledgementId: Option<nat>)

  class SqliteEventLedger {
    var eventSequences: map<nat, nat>
    var auditOutbox: map<Key, Row>

    ghost predicate Valid()
      reads this
    {
      forall k :: k in auditOutbox ==> (auditOutbox[k].status.RowAcknowledged? <==> auditOutbox[k].acknowledgementId.Some?)
    }

    ghost function View(): Entries
      requires Valid()
      reads this
    {
      map k | k in auditOutbox ::
        if auditOutbox[k].status.RowPending? then Pending(auditOutbox[k].digest, auditOutbox[k].attempts, auditOutbox[k].lastError)
        else Acknowledged(auditOutbox[k].digest, auditOutbox[k].acknowledgementId.value)
    }

    constructor ()
      ensures Valid() && View() == map[] && eventSequences == map[]
    {
      eventSequences, auditOutbox := map[], map[];
    }

    method NextSequence(run: nat) returns (n: nat)
      requires Valid()
      modifies this`eventSequences
      ensures Valid() && View() == old(View())
      ensures n == Next(old(eventSequences), run) && eventSequences == old(eventSequences)[run := n]
    {
      n := if run !in eventSequences then 1 else eventSequences[run] + 1;
      eventSequences := eventSequences[run := n];
    }

    /** SELECT, then INSERT when there is no row. */
    method EnqueueEvent(k: Key, digest: nat) returns (refused: Option<Refusal>)
      requires Valid()
      modifies this`auditOutbox
      ensures Valid()
      ensures match Enqueue(old(View()), k, digest)
              case Made(entries) => refused == None && View() == entries
              case Refused(reason) => refused == Some(reason) && View() == old(View())
    {
      if k in auditOutbox {
        if auditOutbox[k].digest != digest { return Some(IdentityConflict); }
        return None;
      }
      auditOutbox := auditOutbox[k := Row(digest, RowPending, 0, None, None)];
      refused := None;
    }

    /** UPDATE ... WHERE status = 'pending'; exactly one row must change. */
    method MarkAttempt(k: Key, error: Option<nat>) returns (refused: Option<Refusal>)
      requires Valid()
      modifies this`auditOutbox
      ensures Valid()
      ensures match Mark(old(View()), k, error, true)
              case Made(entries) => refused == None && View() == entries
              case Refused(reason) => refused == Some(reason) && View() == old(View())
    {
      if k !in auditOutbox || !auditOutbox[k].status.RowPending? { return Some(EntryNotFound); }
      auditOutbox := auditOutbox[k := auditOutbox[k].(attempts := auditOutbox[k].attempts + 1, lastError := error)];
      refused := None;
    }

    method AcknowledgeEvent(ack: Ack) returns (refused: Option<Refusal>)
      requires Valid()
      modifies this`auditOutbox
      ensures Valid()
      ensures match Acknowledge(old(View()), ack)
              case Made(entries) => refused == None && View() == entries
              case Refused(reason) => refused == Some(reason) && View() == old(View())
    {
      if ack.key !in auditOutbox || auditOutbox[ack.key].digest != ack.digest { return Some(AcknowledgementConflict); }
      if auditOutbox[ack.key].status.RowAcknowledged? { return None; }
      auditOutbox := auditOutbox[ack.key := auditOutbox[ack.key].(status := RowAcknowledged, acknowledgementId := Some(ack.id), lastError := None)];
      refused := None;
    }
  }

  // ---------------------------------------------------------------- histories

  datatype Call =
    | CallNext(run: nat) | CallEnqueue(key: Key, digest: nat) | CallMark(key: Key, error: Option<nat>) | CallAcknowledge(ack: Ack)

  datatype Ledger = Ledger(sequences: map<nat, nat>, entries: Entries)

  datatype Reply = Sequence(n: nat) | Done | Failed(reason: Refusal)

  function Perform(l: Ledger, call: Call, strict: bool): Answer
  {
    match call
    case CallNext(_) => Made(l.entries)
    case CallEnqueue(k, digest) => Enqueue(l.entries, k, digest)
    case CallMark(k, error) => Mark(l.entries, k, error, strict)
    case CallAcknowledge(ack) => Acknowledge(l.entries, ack)
  }

  function ReplyOf(l: Ledger, call: Call, strict: bool): Reply
  {
    if call.CallNext? then Sequence(Next(l.sequences, call.run))
    else match Perform(l, call, strict) case Made(_) => Done case Refused(reason) => Failed(reason)
  }

  function After(l: Ledger, call: Call, strict: bool): Ledger
  {
    if call.CallNext? then l.(sequences := l.sequences[call.run := Next(l.sequences, call.run)])
    else match Perform(l, call, strict) case Made(entries) => l.(entries := entries) case Refused(_) => l
  }

  function Execute(l: Ledger, calls: seq<Call>, strict: bool): Ledger
    decreases |calls|
  {
    if calls == [] then l else Execute(After(l, calls[0], strict), calls[1..], strict)
  }

  function Replies(l: Ledger, calls: seq<Call>, strict: bool): seq<Reply>
    decreases |calls|
  {
    if calls == [] then [] else [ReplyOf(l, calls[0], strict)] + Replies(After(l, calls[0], strict), calls[1..], strict)
  }

  predicate MarksAcknowledged(l: Ledger, call: Call)
  {
    call.CallMark? && call.key in l.entries && l.entries[call.key].Acknowledged?
  }

  /** Some call of the history marks an attempt on an entry that is acknowledged by then. */
  predicate MarksLate(l: Ledger, calls: seq<Call>)
    decreases |calls|
  {
    calls != [] && (MarksAcknowledged(l, calls[0]) || MarksLate(After(l, calls[0], false), calls[1..]))
  }

  /** The two ledgers give the same replies to a whole history exactly when it has no late mark,
      and then they also end in the same state. */
  lemma {:induction false} LedgersAgreeExactly(l: Ledger, calls: seq<Call>)
    ensures Replies(l, calls, true) == Replies(l, calls, false) <==> !MarksLate(l, calls)
    ensures Execute(l, calls, true) == Execute(l, calls, false)
    decreases |calls|
  {
    if calls != [] {
      assert After(l, calls[0], true) == After(l, calls[0], false);
      var next := After(l, calls[0], false);
      LedgersAgreeExactly(next, calls[1..]);
      var a, b := Replies(l, calls, true), Replies(l, calls, false);
      assert a[0] == b[0] <==> !MarksAcknowledged(l, calls[0]);
      assert a[1..] == Replies(next, calls[1..], true) && b[1..] == Replies(next, calls[1..], false);
      if a[0] == b[0] && a[1..] == b[1..] { assert a == [a[0]] + a[1..] && b == [b[0]] + b[1..]; }
    }
  }

  /** No history acknowledges k with digest. */
  predicate NeverAcknowledged(calls: seq<Call>, k: Key, digest: nat)
  {
    forall i :: 0 <= i < |calls| && calls[i].CallAcknowledge? ==> calls[i].ack.key != k || calls[i].ack.digest != digest
  }

  /** An entry is never lost: it keeps its digest for good, stays pending until it is acknowledged
      with that digest, and an acknowledgement stays as it was first given. */
  lemma {:induction false} EntryIsKept(l: Ledger, calls: seq<Call>, strict: bool, k: Key)
    requires k in l.entries
    ensures var after := Execute(l, calls, strict).entries;
            && k in after && after[k].digest == l.entries[k].digest
            && (l.entries[k].Acknowledged? ==> after[k] == l.entries[k])
            && (l.entries[k].Pending? && NeverAcknowledged(calls, k, l.entries[k].digest) ==>
                 after[k].Pending? && after[k].attempts >= l.entries[k].attempts)
    decreases |calls|
  {
    if calls != [] {
      var next := After(l, calls[0], strict);
      EntryIsKept(next, calls[1..], strict, k);
      if NeverAcknowledged(calls, k, l.entries[k].digest) {
        assert forall i :: 0 <= i < |calls[1..]| ==> calls[1..][i] == calls[i + 1];
        assert NeverAcknowledged(calls[1..], k, l.entries[k].digest);
      }
    }
  }

  function CountNext(calls: seq<Call>, run: nat): nat
  {
    if calls == [] then 0
    else CountNext(calls[..|calls| - 1], run) + if calls[|calls| - 1] == CallNext(run) then 1 else 0
  }

  lemma {:induction false} ExecuteLast(l: Ledger, calls: seq<Call>, strict: bool)
    requires calls != []
    ensures Execute(l, calls, strict) == After(Execute(l, calls[..|calls| - 1], strict), calls[|calls| - 1], strict)
    decreases |calls|
  {
    if |calls| > 1 {
      ExecuteLast(After(l, calls[0], strict), calls[1..], strict);
      assert calls[1..][..|calls| - 2] == calls[..|calls| - 1][1..];
    } else {
      assert calls[1..] == [];
    }
  }

  /** The n-th request for a Run's sequence number is answered with n, whatever lies between. */
  lemma {:induction false} SequencesCount(calls: seq<Call>, strict: bool, run: nat)
    ensures Next(Execute(Ledger(map[], map[]), calls, strict).sequences, run) == CountNext(calls, run) + 1
    decreases |calls|
  {
    if calls != [] {
      ExecuteLast(Ledger(map[], map[]), calls, strict);
      SequencesCount(calls[..|calls| - 1], strict, run);
    }
  }
}
