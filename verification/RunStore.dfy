/** The Run repository, the service that drives it, and any number of clients interleaving. */
module RunStore {
  import opened RunMachine

  datatype RepositoryError = AlreadyExists | NotFound | StaleState | InvalidNextVersion | Rejected(error: Error)

  datatype Reply = Accept(run: Run) | Refuse(reason: RepositoryError)

  /** compare_and_set as one atomic decision on the stored table. */
  function CasReply(runs: map<nat, Run>, run: Run, expected: nat): Reply
  {
    if run.id !in runs then Refuse(NotFound)
    else if runs[run.id].version != expected then Refuse(StaleState)
    else if run.version != expected + 1 then Refuse(InvalidNextVersion)
    else Accept(run)
  }

  class InMemoryRunRepository {
    var runs: map<nat, Run>

    ghost predicate Valid()
      reads this
    {
      forall id :: id in runs ==> runs[id].id == id
    }

    constructor ()
      ensures Valid() && runs == map[]
    {
      runs := map[];
    }

    method Add(run: Run) returns (reply: Reply)
      requires Valid()
      modifies this
      ensures Valid()
      ensures reply == if run.id in old(runs) then Refuse(AlreadyExists) else Accept(run)
      ensures runs == if run.id in old(runs) then old(runs) else old(runs)[run.id := run]
    {
      if run.id in runs { return Refuse(AlreadyExists); }
      runs := runs[run.id := run];
      reply := Accept(run);
    }

    method Get(id: nat) returns (reply: Reply)
      requires Valid()
      ensures reply == if id in runs then Accept(runs[id]) else Refuse(NotFound)
      ensures reply.Accept? ==> reply.run.id == id
    {
      if id !in runs { return Refuse(NotFound); }
      reply := Accept(runs[id]);
    }

    /** The stored Run advances by exactly one version, or nothing changes. */
    method CompareAndSet(run: Run, expected: nat) returns (reply: Reply)
      requires Valid()
      modifies this
      ensures Valid() && reply == CasReply(old(runs), run, expected)
      ensures runs == if reply.Accept? then old(runs)[run.id := run] else old(runs)
      ensures reply.Accept? ==> run.id in old(runs) && run.version == old(runs)[run.id].version + 1
    {
      if run.id !in runs { return Refuse(NotFound); }
      if runs[run.id].version != expected { return Refuse(StaleState); }
      if run.version != expected + 1 { return Refuse(InvalidNextVersion); }
      runs := runs[run.id := run];
      reply := Accept(run);
    }
  }

  class RunService {
    const repository: InMemoryRunRepository

    constructor (repository: InMemoryRunRepository)
      ensures this.repository == repository
    {
      this.repository := repository;
    }

    /** _apply without a competing client: exactly one state-machine step is stored. */
    method Mutate(id: nat, op: Op, expected: nat, now: int) returns (reply: Reply)
      requires repository.Valid()
      modifies repository
      ensures repository.Valid()
      ensures reply.Accept? <==> id in old(repository.runs) && Apply(old(repository.runs)[id], op, expected, now).Ok?
      ensures reply.Accept? ==>
        && Apply(old(repository.runs)[id], op, expected, now) == Ok(reply.run)
        && repository.runs == old(repository.runs)[id := reply.run]
      ensures reply.Refuse? ==> repository.runs == old(repository.runs)
      ensures reply.Refuse? && id in old(repository.runs) ==>
        reply.reason == Rejected(Apply(old(repository.runs)[id], op, expected, now).error)
    {
      var got := repository.Get(id);
      if got.Refuse? { return got; }
      var previous := got.run;
      match Apply(previous, op, expected, now) {
        case Err(error) => return Refuse(Rejected(error));
        case Ok(current) =>
          ApplyVersion(previous, op, expected, now);
          if current == previous { return Accept(current); }
          hide Apply;
          reply := repository.CompareAndSet(current, expected);
      }
    }
  }

  // ---------------------------------------------------------------- interleaved clients

  /** A client between its read and its compare-and-set holds the value it read and the value it
      computed from it. */
  datatype Client = Idle | Holding(read: Run, op: Op, now: int, next: Run)

  /** history records every value ever stored for a Run, oldest first. */
  datatype State = State(runs: map<nat, Run>, clients: map<nat, Client>, history: map<nat, seq<Run>>)

  ghost predicate LegalStep(a: Run, b: Run)
  {
    a != b && exists op, now :: Apply(a, op, a.version, now) == Ok(b)
  }

  ghost predicate LegalPath(h: seq<Run>)
  {
    forall i :: 0 <= i < |h| - 1 ==> LegalStep(h[i], h[i + 1])
  }

  ghost predicate Versioned(h: seq<Run>, id: nat)
  {
    forall i :: 0 <= i < |h| ==> h[i].id == id && h[i].version == h[0].version + i
  }

  ghost predicate HistoryOk(s: State, id: nat)
    requires id in s.runs && id in s.history
  {
    var h := s.history[id];
    h != [] && h[|h| - 1] == s.runs[id] && Versioned(h, id) && LegalPath(h)
  }

  ghost predicate ClientOk(s: State, c: Client)
  {
    c.Holding? ==>
      && c.read.id in s.history && c.read in s.history[c.read.id]
      && Apply(c.read, c.op, c.read.version, c.now) == Ok(c.next) && c.next != c.read
  }

  ghost predicate Inv(s: State)
  {
    && s.runs.Keys == s.history.Keys
    && (forall id :: id in s.runs ==> HistoryOk(s, id))
    && (forall c :: c in s.clients ==> ClientOk(s, s.clients[c]))
  }

  ghost predicate Init(s: State)
  {
    s.runs == map[] && s.history == map[] && forall c :: c in s.clients ==> s.clients[c].Idle?
  }

  ghost predicate Create(s: State, t: State, run: Run)
  {
    && run.id !in s.runs
    && t == State(s.runs[run.id := run], s.clients, s.history[run.id := [run]])
  }

  /** get, then the pure mutation. A rejected or idempotent mutation leaves the client idle. */
  ghost predicate Read(s: State, t: State, c: nat, id: nat, op: Op, expected: nat, now: int)
  {
    && c in s.clients && s.clients[c].Idle? && id in s.runs
    && var computed := Apply(s.runs[id], op, expected, now);
       if computed.Ok? && computed.run != s.runs[id]
       then t == s.(clients := s.clients[c := Holding(s.runs[id], op, now, computed.run)])
       else t == s
  }

  ghost predicate Store(s: State, t: State, c: nat)
  {
    && c in s.clients && s.clients[c].Holding?
    && var next := s.clients[c].next;
       var reply := CasReply(s.runs, next, s.clients[c].read.version);
       if reply.Accept?
       then next.id in s.history && t == State(s.runs[next.id := next], s.clients[c := Idle], s.history[next.id := s.history[next.id] + [next]])
       else t == s.(clients := s.clients[c := Idle])
  }

  /** A client may vanish at any moment. */
  ghost predicate Crash(s: State, t: State, c: nat)
  {
    c in s.clients && t == s.(clients := s.clients[c := Idle])
  }

  ghost predicate Step(s: State, t: State)
  {
    || (exists run :: Create(s, t, run))
    || (exists c, id, op, expected, now :: Read(s, t, c, id, op, expected, now))
    || (exists c :: Store(s, t, c))
    || (exists c :: Crash(s, t, c))
  }

  lemma CreateKeeps(s: State, t: State, run: Run)
    requires Inv(s) && Create(s, t, run)
    ensures Inv(t)
  {
    forall id | id in t.runs ensures HistoryOk(t, id) {
      if id != run.id { assert HistoryOk(s, id); }
    }
    forall c | c in t.clients ensures ClientOk(t, t.clients[c]) { assert ClientOk(s, s.clients[c]); }
  }

  lemma ReadKeeps(s: State, t: State, c: nat, id: nat, op: Op, expected: nat, now: int)
    requires Inv(s) && Read(s, t, c, id, op, expected, now)
    ensures Inv(t)
  {
    assert HistoryOk(s, id);
    if t != s { ApplyVersion(s.runs[id], op, expected, now); }
    hide Apply;
    forall i | i in t.runs ensures HistoryOk(t, i) { assert HistoryOk(s, i); }
    forall d | d in t.clients ensures ClientOk(t, t.clients[d]) { assert ClientOk(s, s.clients[d]); }
  }

  lemma IdleKeeps(s: State, t: State, c: nat)
    requires Inv(s) && Crash(s, t, c)
    ensures Inv(t)
  {
    forall i | i in t.runs ensures HistoryOk(t, i) { assert HistoryOk(s, i); }
    forall d | d in t.clients ensures ClientOk(t, t.clients[d]) { assert ClientOk(s, s.clients[d]); }
  }

  /** A value is accepted if and only if its Run is stored at the expected version and it is the next
      version; the first of these to fail is the reason given. */
  lemma CompareExactly(runs: map<nat, Run>, run: Run, expected: nat)
    ensures var reply, known := CasReply(runs, run, expected), run.id in runs;
            && (reply.Accept? <==> known && runs[run.id].version == expected && run.version == runs[run.id].version + 1)
            && (reply.Accept? ==> reply.run == run)
            && (reply.Refuse? ==>
                 reply.reason == if !known then NotFound
                                 else if runs[run.id].version != expected then StaleState else InvalidNextVersion)
  {
  }

  /** A client's compare-and-set succeeds if and only if the stored Run is still exactly the value the
      client had read, and otherwise it is stale: no update is ever lost, and none refused in vain. */
  lemma NoLostUpdate(s: State, c: nat)
    requires Inv(s) && c in s.clients && s.clients[c].Holding?
    ensures var read := s.clients[c].read;
            var reply := CasReply(s.runs, s.clients[c].next, read.version);
            && read.id in s.runs && (reply.Accept? <==> s.runs[read.id] == read)
            && (reply.Refuse? ==> reply.reason == StaleState)
  {
    var client := s.clients[c];
    assert ClientOk(s, client);
    ApplyVersion(client.read, client.op, client.read.version, client.now);
    var id := client.read.id;
    assert HistoryOk(s, id);
    var h := s.history[id];
    var i :| 0 <= i < |h| && h[i] == client.read;
    hide Apply, LegalPath;
    assert h[|h| - 1].version == h[0].version + |h| - 1 && h[i].version == h[0].version + i;
    if s.runs[id].version == client.read.version { assert i == |h| - 1; }
  }

  /** When two clients computed from the same stored value, for instance a completion and a
      cancellation, at most one of them commits. */
  lemma RaceHasOneWinner(s: State, t: State, c: nat, d: nat)
    requires Inv(s) && c in s.clients && d in s.clients && c != d && s.clients[c].Holding? && s.clients[d].Holding?
    requires s.clients[c].read == s.clients[d].read
    requires Store(s, t, c) && CasReply(s.runs, s.clients[c].next, s.clients[c].read.version).Accept?
    ensures d in t.clients && t.clients[d] == s.clients[d]
    ensures CasReply(t.runs, t.clients[d].next, t.clients[d].read.version) == Refuse(StaleState)
    ensures forall u :: Store(t, u, d) ==> u.runs == t.runs && u.history == t.history
  {
    var winner, loser := s.clients[c], s.clients[d];
    assert ClientOk(s, winner) && ClientOk(s, loser);
    ApplyVersion(winner.read, winner.op, winner.read.version, winner.now);
    ApplyVersion(loser.read, loser.op, loser.read.version, loser.now);
  }

  lemma HistoryAppended(s: State, t: State, id: nat, next: Run)
    requires id in s.runs && id in s.history && HistoryOk(s, id) && LegalStep(s.runs[id], next)
    requires next.id == id && next.version == s.runs[id].version + 1
    requires id in t.runs && id in t.history && t.runs[id] == next && t.history[id] == s.history[id] + [next]
    ensures HistoryOk(t, id)
  {
    hide LegalStep;
  }

  lemma HistoryUntouched(s: State, t: State, i: nat)
    requires i in s.runs && i in s.history && HistoryOk(s, i)
    requires i in t.runs && i in t.history && t.runs[i] == s.runs[i] && t.history[i] == s.history[i]
    ensures HistoryOk(t, i)
  {
  }

  lemma StoreKeeps(s: State, t: State, c: nat)
    requires Inv(s) && Store(s, t, c)
    ensures Inv(t)
  {
    var client := s.clients[c];
    assert ClientOk(s, client);
    if CasReply(s.runs, client.next, client.read.version).Accept? {
      NoLostUpdate(s, c);
      ApplyVersion(client.read, client.op, client.read.version, client.now);
      hide Apply;
      var id := client.read.id;
      assert HistoryOk(s, id);
      assert LegalStep(client.read, client.next);
      forall d | d in t.clients ensures ClientOk(t, t.clients[d]) { assert ClientOk(s, s.clients[d]); }
      HistoryAppended(s, t, id, client.next);
      hide HistoryOk, ClientOk;
      forall i | i in t.runs ensures HistoryOk(t, i) { if i != id { HistoryUntouched(s, t, i); } }
    } else {
      assert Crash(s, t, c);
      IdleKeeps(s, t, c);
    }
  }

  lemma StepKeeps(s: State, t: State)
    requires Inv(s) && Step(s, t)
    ensures Inv(t)
  {
    if run :| Create(s, t, run) {
      CreateKeeps(s, t, run);
    } else if c, id, op, expected, now :| Read(s, t, c, id, op, expected, now) {
      ReadKeeps(s, t, c, id, op, expected, now);
    } else if c :| Store(s, t, c) {
      StoreKeeps(s, t, c);
    } else {
      var c :| Crash(s, t, c);
      IdleKeeps(s, t, c);
    }
  }

  ghost predicate IsTrace(trace: seq<State>)
  {
    trace != [] && Init(trace[0]) && forall i :: 0 <= i < |trace| - 1 ==> Step(trace[i], trace[i + 1])
  }

  lemma {:induction false} TraceInv(trace: seq<State>, k: nat)
    requires IsTrace(trace) && k < |trace|
    ensures Inv(trace[k])
  {
    if k > 0 {
      TraceInv(trace, k - 1);
      StepKeeps(trace[k - 1], trace[k]);
    }
  }

  /** In every interleaving, the values stored for a Run form one legal path of the state machine,
      and a version number names one value. */
  lemma Linearized(trace: seq<State>, k: nat, id: nat)
    requires IsTrace(trace) && k < |trace| && id in trace[k].history
    ensures var h := trace[k].history[id];
            && id in trace[k].runs && h != [] && h[|h| - 1] == trace[k].runs[id] && LegalPath(h)
            && (forall i, j :: 0 <= i < |h| && 0 <= j < |h| && h[i].version == h[j].version ==> h[i] == h[j])
  {
    TraceInv(trace, k);
    assert HistoryOk(trace[k], id);
  }

  /** Nothing is ever stored after a terminal value. */
  lemma TerminalEndsHistory(trace: seq<State>, k: nat, id: nat, i: nat)
    requires IsTrace(trace) && k < |trace| && id in trace[k].history
    requires i < |trace[k].history[id]| && Terminal(trace[k].history[id][i].status)
    ensures i == |trace[k].history[id]| - 1
  {
    Linearized(trace, k, id);
    var h := trace[k].history[id];
    if i < |h| - 1 {
      assert LegalStep(h[i], h[i + 1]);
      var op, now :| Apply(h[i], op, h[i].version, now) == Ok(h[i + 1]);
      TerminalIsFinal(h[i], op, h[i].version, now);
    }
  }

  lemma StepAppends(s: State, t: State, id: nat)
    requires Inv(s) && Step(s, t) && id in s.history
    ensures id in t.history && s.history[id] <= t.history[id]
  {
    hide Apply;
  }

  lemma TraceStep(trace: seq<State>, k: nat)
    requires IsTrace(trace) && k + 1 < |trace|
    ensures Step(trace[k], trace[k + 1])
  {
    hide Step;
  }

  /** Values already stored stay in the history: later steps only append. */
  lemma {:induction false} HistoryOnlyGrows(trace: seq<State>, j: nat, k: nat, id: nat)
    requires IsTrace(trace) && j <= k < |trace| && id in trace[j].history
    ensures id in trace[k].history && trace[j].history[id] <= trace[k].history[id]
    decreases k - j
  {
    hide *;
    if j < k {
      TraceInv(trace, j);
      TraceStep(trace, j);
      StepAppends(trace[j], trace[j + 1], id);
      HistoryOnlyGrows(trace, j + 1, k, id);
    }
  }
}
