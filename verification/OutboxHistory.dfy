/** What an outbox entry says after any history of calls, and what each call is answered. */
module OutboxHistory {
  import opened Wrappers
  import opened Outbox

  const EMPTY := Ledger(map[], map[])

  // ---------------------------------------------------------------- one call

  /** An enqueue is refused exactly for an entry with another digest; a mark for a missing entry, and
      over rows for an acknowledged one; an acknowledgement for an entry that is missing or has
      another digest. */
  lemma AnswersExactly(l: Ledger, call: Call, strict: bool)
    ensures match call
            case CallNext(run) => ReplyOf(l, call, strict) == Sequence(if run in l.sequences then l.sequences[run] + 1 else 1)
            case CallEnqueue(k, digest) =>
              ReplyOf(l, call, strict) ==
                if k in l.entries && l.entries[k].digest != digest then Failed(IdentityConflict) else Done
            case CallMark(k, _) =>
              ReplyOf(l, call, strict) ==
                if k !in l.entries || (strict && l.entries[k].Acknowledged?) then Failed(EntryNotFound) else Done
            case CallAcknowledge(ack) =>
              ReplyOf(l, call, strict) ==
                if ack.key in l.entries && l.entries[ack.key].digest == ack.digest then Done else Failed(AcknowledgementConflict)
  {
  }

  // ---------------------------------------------------------------- one entry

  predicate Enqueues(call: Call, k: Key) { call.CallEnqueue? && call.key == k }

  predicate Marks(call: Call, k: Key) { call.CallMark? && call.key == k }

  predicate Confirms(call: Call, k: Key, digest: nat) { call.CallAcknowledge? && call.ack.key == k && call.ack.digest == digest }

  /** Call i makes the entry. */
  ghost predicate Makes(calls: seq<Call>, k: Key, i: int)
  {
    0 <= i < |calls| && Enqueues(calls[i], k) && forall j :: 0 <= j < i ==> !Enqueues(calls[j], k)
  }

  /** Call j is the first after i to acknowledge the entry with its digest. */
  ghost predicate Settles(calls: seq<Call>, k: Key, i: int, j: int)
  {
    && 0 <= i < j < |calls| && calls[i].CallEnqueue? && Confirms(calls[j], k, calls[i].digest)
    && forall x :: i < x < j ==> !Confirms(calls[x], k, calls[i].digest)
  }

  ghost function MarksSince(calls: seq<Call>, k: Key, i: int): set<int>
  {
    set j: int | i < j < |calls| && 0 <= j && Marks(calls[j], k)
  }

  /** The error of the last mark after i, if there is one. */
  ghost predicate LastError(calls: seq<Call>, k: Key, i: int, error: Option<nat>)
  {
    || (error.None? && MarksSince(calls, k, i) == {})
    || exists j :: j in MarksSince(calls, k, i) && calls[j].CallMark? && error == calls[j].error
                   && forall x :: x in MarksSince(calls, k, i) ==> x <= j
  }

  /** What the calls made of the entry that call i made. */
  ghost predicate Shows(calls: seq<Call>, k: Key, i: int, entry: Entry)
    requires Makes(calls, k, i)
  {
    match entry
    case Acknowledged(digest, id) =>
      digest == calls[i].digest && exists j :: Settles(calls, k, i, j) && calls[j].CallAcknowledge? && id == calls[j].ack.id
    case Pending(digest, attempts, error) =>
      && digest == calls[i].digest && (forall j :: !Settles(calls, k, i, j))
      && attempts == |MarksSince(calls, k, i)| && LastError(calls, k, i, error)
  }

  ghost predicate Told(calls: seq<Call>, k: Key, entries: Entries)
  {
    && (k in entries <==> exists i :: Makes(calls, k, i))
    && forall i :: Makes(calls, k, i) && k in entries ==> Shows(calls, k, i, entries[k])
  }

  lemma MakesOn(calls: seq<Call>, call: Call, k: Key, i: int)
    ensures Makes(calls + [call], k, i) <==>
      Makes(calls, k, i) || (i == |calls| && Enqueues(call, k) && forall j :: 0 <= j < |calls| ==> !Enqueues(calls[j], k))
  {
    var longer := calls + [call];
    assert forall j :: 0 <= j < |calls| ==> longer[j] == calls[j];
  }

  /** Unless an entry is made, some call makes it or none enqueues it. */
  lemma {:induction false} NoneMakes(calls: seq<Call>, k: Key)
    requires forall i :: !Makes(calls, k, i)
    ensures forall j :: 0 <= j < |calls| ==> !Enqueues(calls[j], k)
  {
    if calls != [] {
      var front, last := calls[..|calls| - 1], calls[|calls| - 1];
      assert calls == front + [last];
      forall i ensures !Makes(front, k, i) { MakesOn(front, last, k, i); }
      NoneMakes(front, k);
      MakesOn(front, last, k, |front|);
    }
  }

  lemma MakesOnce(calls: seq<Call>, k: Key, i: int, j: int)
    requires Makes(calls, k, i) && Makes(calls, k, j)
    ensures i == j
  {
  }

  /** The first call for a key that is not there makes the entry, or leaves it missing. */
  lemma StillMissing(calls: seq<Call>, call: Call, k: Key, entries: Entries, next: Entries)
    requires k !in entries && Told(calls, k, entries)
    requires if Enqueues(call, k) then next == entries[k := Pending(call.digest, 0, None)] else k !in next
    ensures Told(calls + [call], k, next)
  {
    var longer := calls + [call];
    assert forall i :: !Makes(calls, k, i);
    NoneMakes(calls, k);
    forall i ensures Makes(longer, k, i) <==> i == |calls| && Enqueues(call, k) { MakesOn(calls, call, k, i); }
    if Enqueues(call, k) {
      assert Makes(longer, k, |calls|);
      assert MarksSince(longer, k, |calls|) == {};
      assert Shows(longer, k, |calls|, Pending(call.digest, 0, None));
    }
  }

  lemma SettlesOn(calls: seq<Call>, call: Call, k: Key, i: int, j: int)
    requires Makes(calls, k, i)
    ensures Settles(calls + [call], k, i, j) <==>
      Settles(calls, k, i, j)
      || (j == |calls| && Confirms(call, k, calls[i].digest) && forall x :: i < x < |calls| ==> !Confirms(calls[x], k, calls[i].digest))
  {
    var longer := calls + [call];
    assert forall x :: 0 <= x < |calls| ==> longer[x] == calls[x];
  }

  lemma MarksOn(calls: seq<Call>, call: Call, k: Key, i: int)
    requires 0 <= i < |calls|
    ensures MarksSince(calls + [call], k, i) == MarksSince(calls, k, i) + if Marks(call, k) then {|calls|} else {}
    ensures |MarksSince(calls + [call], k, i)| == |MarksSince(calls, k, i)| + if Marks(call, k) then 1 else 0
  {
    var longer := calls + [call];
    assert forall x :: 0 <= x < |calls| ==> longer[x] == calls[x];
    assert MarksSince(longer, k, i) == MarksSince(calls, k, i) + if Marks(call, k) then {|calls|} else {};
  }

  lemma ErrorOn(calls: seq<Call>, call: Call, k: Key, i: int, error: Option<nat>)
    requires 0 <= i < |calls| && LastError(calls, k, i, error)
    ensures LastError(calls + [call], k, i, if Marks(call, k) then call.error else error)
  {
    var longer := calls + [call];
    MarksOn(calls, call, k, i);
    if Marks(call, k) {
      assert longer[|calls|] == call;
      assert |calls| in MarksSince(longer, k, i);
    } else if MarksSince(calls, k, i) != {} {
      var j :| j in MarksSince(calls, k, i) && calls[j].CallMark? && error == calls[j].error
               && forall x :: x in MarksSince(calls, k, i) ==> x <= j;
      assert longer[j] == calls[j] && j in MarksSince(longer, k, i);
    }
  }

  /** The first confirmation after i, if there is any. */
  lemma {:induction false} SettledSomewhere(calls: seq<Call>, k: Key, i: int, x: int) returns (j: int)
    requires 0 <= i < x < |calls| && calls[i].CallEnqueue? && Confirms(calls[x], k, calls[i].digest)
    ensures Settles(calls, k, i, j)
    decreases x
  {
    if y :| i < y < x && Confirms(calls[y], k, calls[i].digest) { j := SettledSomewhere(calls, k, i, y); } else { j := x; }
  }

  /** What one call makes of an entry. */
  predicate EntryStep(call: Call, k: Key, before: Entry, after: Entry)
  {
    after == if before.Acknowledged? then before
             else if Confirms(call, k, before.digest) then Acknowledged(before.digest, call.ack.id)
             else if Marks(call, k) then Pending(before.digest, before.attempts + 1, call.error)
             else before
  }

  lemma ShowsOn(calls: seq<Call>, call: Call, k: Key, i: int, before: Entry, after: Entry)
    requires Makes(calls, k, i) && Shows(calls, k, i, before) && EntryStep(call, k, before, after)
    ensures Makes(calls + [call], k, i) && Shows(calls + [call], k, i, after)
  {
    var longer := calls + [call];
    MakesOn(calls, call, k, i);
    assert longer[i] == calls[i];
    forall j ensures Settles(longer, k, i, j) <==>
        Settles(calls, k, i, j)
        || (j == |calls| && Confirms(call, k, calls[i].digest) && forall x :: i < x < |calls| ==> !Confirms(calls[x], k, calls[i].digest))
    {
      SettlesOn(calls, call, k, i, j);
    }
    if before.Acknowledged? {
      var j :| Settles(calls, k, i, j) && calls[j].CallAcknowledge? && before.id == calls[j].ack.id;
      assert Settles(longer, k, i, j) && longer[j] == calls[j];
    } else {
      forall x | i < x < |calls| ensures !Confirms(calls[x], k, calls[i].digest) {
        if Confirms(calls[x], k, calls[i].digest) { var j := SettledSomewhere(calls, k, i, x); }
      }
      if Confirms(call, k, before.digest) {
        assert Settles(longer, k, i, |calls|) && longer[|calls|] == call;
      } else {
        MarksOn(calls, call, k, i);
        ErrorOn(calls, call, k, i, before.error);
      }
    }
  }

  lemma EntriesStep(l: Ledger, call: Call, strict: bool, k: Key)
    ensures var next := After(l, call, strict).entries;
            if k in l.entries then k in next && EntryStep(call, k, l.entries[k], next[k])
            else if Enqueues(call, k) then next == l.entries[k := Pending(call.digest, 0, None)] else k !in next
  {
  }

  lemma ToldOn(calls: seq<Call>, call: Call, k: Key, entries: Entries, next: Entries)
    requires Told(calls, k, entries) && k in entries && k in next && EntryStep(call, k, entries[k], next[k])
    ensures Told(calls + [call], k, next)
  {
    hide Shows, EntryStep;
    var i :| Makes(calls, k, i);
    ShowsOn(calls, call, k, i, entries[k], next[k]);
    forall j | Makes(calls + [call], k, j) ensures Shows(calls + [call], k, j, next[k]) { MakesOnce(calls + [call], k, i, j); }
  }

  /** After any history, over either ledger: there is an entry if and only if it was enqueued, with the
      digest of its first enqueue; it is acknowledged if and only if an acknowledgement with that digest
      came since, by the first of them; and until then it counts the marks and keeps the last error. */
  lemma {:induction false} EntryTellsTheCalls(calls: seq<Call>, strict: bool, k: Key)
    ensures Told(calls, k, Execute(EMPTY, calls, strict).entries)
    decreases |calls|
  {
    if calls != [] {
      var front, last := calls[..|calls| - 1], calls[|calls| - 1];
      var l := Execute(EMPTY, front, strict);
      assert calls == front + [last];
      ExecuteLast(EMPTY, calls, strict);
      EntriesStep(l, last, strict, k);
      hide Execute, After, Told, EntryStep;
      EntryTellsTheCalls(front, strict, k);
      if k in l.entries {
        ToldOn(front, last, k, l.entries, After(l, last, strict).entries);
      } else {
        StillMissing(front, last, k, l.entries, After(l, last, strict).entries);
      }
    }
  }
}
