/** Audit publication: enqueue, deliver with bounded retries, acknowledge, and recover later. */
module AuditDispatch {
  import opened Wrappers
  import opened Order
  import opened Outbox

  /** What a sink does with one delivery. */
  datatype Response = Acked(ack: Ack) | NoAck | Raises(code: nat, retryable: bool)

  datatype Failure =
    | RequiredSinkMissing | Unprepared(code: nat) | NotEnqueued | DeliveryFailed(cause: Option<nat>) | MarkRaised

  const ACK_MISSING := 0
  const ENTRY_NOT_FOUND := 1
  const ACK_CONFLICT := 2

  /** A registered sink; prepared is the digest it may be given, or why it may be given nothing. */
  datatype Sink = Sink(id: nat, required: bool, audit: bool, prepared: Prepared)

  datatype Prepared = Ready(digest: nat) | Barred(code: nat)

  /** sink(k, n) answers the n-th delivery of entry k. */
  datatype Setup = Setup(strict: bool, maxAttempts: nat, sink: (Key, nat) -> Response)

  /** The outbox, and how often each entry has been handed to its sink. */
  datatype World = World(entries: Entries, delivered: map<Key, nat>)

  function Count(w: World, k: Key): nat { if k in w.delivered then w.delivered[k] else 0 }

  datatype Run = Run(world: World, failure: Option<Failure>)

  // ---------------------------------------------------------------- one delivery loop

  /** The body of the try block: hand over, mark, acknowledge. What it raises, if anything. */
  datatype Tried = Tried(world: World, raised: Option<(nat, bool)>)

  function Try(w: World, c: Setup, k: Key): Tried
  {
    var handed := w.(delivered := w.delivered[k := Count(w, k) + 1]);
    match c.sink(k, Count(w, k))
    case Raises(code, retryable) => Tried(handed, Some((code, retryable)))
    case NoAck => Tried(handed, Some((ACK_MISSING, false)))
    case Acked(ack) =>
      match Mark(w.entries, k, None, c.strict)
      case Refused(_) => Tried(handed, Some((ENTRY_NOT_FOUND, false)))
      case Made(marked) =>
        match Acknowledge(marked, ack)
        case Refused(_) => Tried(handed.(entries := marked), Some((ACK_CONFLICT, false)))
        case Made(entries) => Tried(handed.(entries := entries), None)
  }

  /** The loop from one attempt number on; last is the error remembered so far. */
  function Deliver(w: World, c: Setup, k: Key, attempt: nat, last: Option<nat>): Run
    decreases c.maxAttempts - attempt
  {
    if attempt >= c.maxAttempts then Run(w, Some(DeliveryFailed(last)))
    else
      var tried := Try(w, c, k);
      if tried.raised.None? then Run(tried.world, None)
      else
        var code, retryable := tried.raised.value.0, tried.raised.value.1;
        match Mark(tried.world.entries, k, Some(code), c.strict)
        case Refused(_) => Run(tried.world, Some(MarkRaised))
        case Made(entries) =>
          var marked := tried.world.(entries := entries);
          if retryable then Deliver(marked, c, k, attempt + 1, Some(code)) else Run(marked, Some(DeliveryFailed(Some(code))))
  }

  /** Publication of one event to one sink. */
  function PublishTo(w: World, c: Setup, event: nat, s: Sink): Run
  {
    if s.prepared.Barred? then Run(w, Some(Unprepared(s.prepared.code)))
    else match Enqueue(w.entries, Key(event, s.id), s.prepared.digest)
    case Refused(_) => Run(w, Some(NotEnqueued))
    case Made(entries) => Deliver(w.(entries := entries), c, Key(event, s.id), 0, None)
  }

  /** The required sinks in order; the first failure ends the publication. */
  function PublishRequired(w: World, c: Setup, event: nat, sinks: seq<Sink>): Run
    decreases |sinks|
  {
    if sinks == [] then Run(w, None)
    else if !sinks[0].required then PublishRequired(w, c, event, sinks[1..])
    else
      var first := PublishTo(w, c, event, sinks[0]);
      if first.failure.Some? then first else PublishRequired(first.world, c, event, sinks[1..])
  }

  /** The other audit sinks; their failures are only diagnosed. */
  function PublishOptional(w: World, c: Setup, event: nat, sinks: seq<Sink>): World
    decreases |sinks|
  {
    if sinks == [] then w
    else if sinks[0].required || !sinks[0].audit then PublishOptional(w, c, event, sinks[1..])
    else PublishOptional(PublishTo(w, c, event, sinks[0]).world, c, event, sinks[1..])
  }

  function Publish(w: World, c: Setup, event: nat, sinks: seq<Sink>): Run
  {
    if !exists s :: s in sinks && s.required then Run(w, Some(RequiredSinkMissing))
    else
      var required := PublishRequired(w, c, event, sinks);
      if required.failure.Some? then required else Run(PublishOptional(required.world, c, event, sinks), None)
  }

  /** A pending entry as recovery read it. */
  datatype Listed = Listed(key: Key, attempts: nat, barred: bool)

  /** Recovery over what the outbox listed; barred entries have no sink or no authorization now. */
  function Recover(w: World, c: Setup, listed: seq<Listed>): World
    decreases |listed|
  {
    if listed == [] then w
    else if listed[0].barred then Recover(w, c, listed[1..])
    else Recover(Deliver(w, c, listed[0].key, listed[0].attempts, None).world, c, listed[1..])
  }

  /** How many of the listed entries recovery brought to an acknowledgement. */
  function Recovered(w: World, c: Setup, listed: seq<Listed>): nat
    decreases |listed|
  {
    if listed == [] then 0
    else if listed[0].barred then Recovered(w, c, listed[1..])
    else
      var first := Deliver(w, c, listed[0].key, listed[0].attempts, None);
      (if first.failure.None? then 1 else 0) + Recovered(first.world, c, listed[1..])
  }

  // ---------------------------------------------------------------- the dispatcher's loops

  class EventDispatcher {
    const c: Setup
    const sinks: seq<Sink>
    var world: World

    constructor (c: Setup, sinks: seq<Sink>)
      ensures this.c == c && this.sinks == sinks && world == World(map[], map[])
    {
      this.c := c;
      this.sinks := sinks;
      world := World(map[], map[]);
    }

    method DeliverAudit(k: Key, startingAttempt: nat) returns (failure: Option<Failure>)
      modifies this
      ensures Run(world, failure) == Deliver(old(world), c, k, startingAttempt, None)
    {
      var lastError := None;
      var attempt := startingAttempt;
      while attempt < c.maxAttempts
        invariant Deliver(world, c, k, attempt, lastError) == Deliver(old(world), c, k, startingAttempt, None)
        decreases c.maxAttempts - attempt
      {
        var response := c.sink(k, Count(world, k));
        ghost var before := world;
        world := world.(delivered := world.delivered[k := Count(world, k) + 1]);
        var raised := None;
        match response {
          case Raises(code, retryable) => raised := Some((code, retryable));
          case NoAck => raised := Some((ACK_MISSING, false));
          case Acked(ack) =>
            var marked := Mark(world.entries, k, None, c.strict);
            if marked.Refused? {
              raised := Some((ENTRY_NOT_FOUND, false));
            } else {
              world := world.(entries := marked.entries);
              var acknowledged := Acknowledge(world.entries, ack);
              if acknowledged.Refused? {
                raised := Some((ACK_CONFLICT, false));
              } else {
                world := world.(entries := acknowledged.entries);
              }
            }
        }
        assert Try(before, c, k) == Tried(world, raised);
        if raised.None? { return None; }
        lastError := Some(raised.value.0);
        var noted := Mark(world.entries, k, lastError, c.strict);
        if noted.Refused? { return Some(MarkRaised); }
        world := world.(entries := noted.entries);
        if !raised.value.1 { break; }
        attempt := attempt + 1;
      }
      failure := Some(DeliveryFailed(lastError));
    }

    method PublishAudit(event: nat) returns (failure: Option<Failure>)
      modifies this
      ensures Run(world, failure) == Publish(old(world), c, event, sinks)
    {
      if !exists s :: s in sinks && s.required { return Some(RequiredSinkMissing); }
      var i := 0;
      while i < |sinks|
        invariant 0 <= i <= |sinks|
        invariant PublishRequired(world, c, event, sinks[i..]) == PublishRequired(old(world), c, event, sinks)
      {
        assert sinks[i..][1..] == sinks[i + 1..];
        if sinks[i].required {
          failure := PublishOne(event, sinks[i]);
          if failure.Some? { return; }
        }
        i := i + 1;
      }
      ghost var required := world;
      i := 0;
      while i < |sinks|
        invariant 0 <= i <= |sinks|
        invariant PublishOptional(world, c, event, sinks[i..]) == PublishOptional(required, c, event, sinks)
      {
        assert sinks[i..][1..] == sinks[i + 1..];
        if !sinks[i].required && sinks[i].audit {
          var diagnosed := PublishOne(event, sinks[i]);
        }
        i := i + 1;
      }
      failure := None;
    }

    method PublishOne(event: nat, s: Sink) returns (failure: Option<Failure>)
      modifies this
      ensures Run(world, failure) == PublishTo(old(world), c, event, s)
    {
      if s.prepared.Barred? { return Some(Unprepared(s.prepared.code)); }
      var enqueued := Enqueue(world.entries, Key(event, s.id), s.prepared.digest);
      if enqueued.Refused? { return Some(NotEnqueued); }
      world := world.(entries := enqueued.entries);
      failure := DeliverAudit(Key(event, s.id), 0);
    }

    method RecoverPending(listed: seq<Listed>) returns (recovered: nat)
      modifies this
      ensures world == Recover(old(world), c, listed) && recovered == Recovered(old(world), c, listed)
    {
      recovered := 0;
      var i := 0;
      while i < |listed|
        invariant 0 <= i <= |listed|
        invariant recovered + Recovered(world, c, listed[i..]) == Recovered(old(world), c, listed)
        invariant Recover(world, c, listed[i..]) == Recover(old(world), c, listed)
      {
        assert listed[i..][1..] == listed[i + 1..];
        if !listed[i].barred {
          var failure := DeliverAudit(listed[i].key, listed[i].attempts);
          if failure.None? { recovered := recovered + 1; }
        }
        i := i + 1;
      }
    }
  }
}
