/** The durable checkpoint value. */
module Checkpoints {
  import opened Wrappers
  import opened RunMachine

  type RunId = nat
  type NodeId = nat

  datatype NodeOutcome =
    | NodeSucceeded | NodeFailed | NodeDenied | NodeTimedOut | NodeCancelled | NodeWaiting | NodeRetryScheduled

  datatype Decision = Approved | Rejected | Withdrawn

  datatype Approval = Approval(node: NodeId, decision: Option<Decision>)

  datatype NodeState = NodeState(outcome: NodeOutcome, output: Option<nat>, error: Option<nat>, approval: Option<nat>)

  datatype SideEffect = SideEffect(operation: NodeId, fingerprint: nat, result: nat)

  /** Everything the digest covers. Tuples with unique keys are maps: node states by node,
      side effects by idempotency key, approvals by approval identity. */
  datatype Body = Body(
    ref: CheckpointRef, run: RunId, scope: nat, definition: nat, graphVersion: nat, sequence: nat, attempt: nat,
    previous: Option<CheckpointRef>, states: map<NodeId, NodeState>, pending: set<NodeId>,
    effects: map<nat, SideEffect>, approvals: map<nat, Approval>)

  /** Digests are injective: a digest determines the content it was computed from. */
  datatype Digest = Sha256(content: Body)

  datatype Checkpoint = Checkpoint(body: Body, digest: Digest)

  predicate Intact(c: Checkpoint) { c.digest == Sha256(c.body) }

  function Seal(body: Body): Checkpoint { Checkpoint(body, Sha256(body)) }

  /** The constructor's structural checks. */
  predicate Constructible(b: Body)
  {
    && b.sequence >= 1 && b.attempt >= 1
    && (b.sequence == 1 <==> b.previous.None?)
    && b.states.Keys !! b.pending
    && (forall k, l :: k in b.effects && l in b.effects && k != l ==> b.effects[k].operation != b.effects[l].operation)
    && (forall n :: n in b.states ==>
         && !(b.states[n].output.Some? && b.states[n].error.Some?)
         && (b.states[n].outcome.NodeWaiting? ==> b.states[n].approval.Some?)
         && (b.states[n].approval.Some? ==> b.states[n].approval.value in b.approvals))
  }

  /** The part of a checkpoint that places it in a chain. */
  predicate SameLinks(a: Checkpoint, b: Checkpoint)
  {
    && a.body.ref == b.body.ref && a.body.run == b.body.run && a.body.scope == b.body.scope
    && a.body.sequence == b.body.sequence && a.body.previous == b.body.previous
  }
}
