/**
 * Sequences of calls into one SslStreamSocket, as the reactor makes them,
 * and what holds along every such sequence: the handshake flag only ever
 * goes from pending to done, it gets there only through a positive
 * handshake reply, and once it is done no handshake step is made again.
 */
module SslRuns {
  import opened SslSocket

  /** One call into the socket, with the answers its collaborators give. */
  datatype Op =
    | ReadIncomingOp(replies: seq<Reply>, readBase: BaseRun<bool>)
    | WriteOutgoingOp(replies: seq<Reply>, writeBase: BaseRun<()>)
    | ReadDataOp(reply: Reply)
    | WriteDataOp(len: int, reply: Reply)
    | ShutdownOp(first: int)

  /** What the source demands before the call can be made in state `s`. */
  predicate Enabled(s: Session, op: Op)
  {
    match op
    case ReadIncomingOp(replies, _) => s.handshakePending ==> Settles(replies)
    case WriteOutgoingOp(replies, _) => s.handshakePending ==> Settles(replies)
    case ReadDataOp(_) => true
    case WriteDataOp(len, _) => len > 0
    case ShutdownOp(_) => true
  }

  /** The state after `op` and the calls it makes. */
  function Next(s: Session, op: Op): (t: (Session, seq<Call>))
    requires Enabled(s, op)
    // the handshake flag never goes back to pending
    ensures t.0.handshakePending ==> s.handshakePending
    // once done, no call makes a handshake step
    ensures !s.handshakePending ==> HandshakeStep !in t.1
    // the flag is cleared only by a handshake reply that is positive
    ensures s.handshakePending && !t.0.handshakePending ==>
      (op.ReadIncomingOp? || op.WriteOutgoingOp?) && op.replies[FirstSettled(op.replies)].rc > 0
  {
    match op
    case ReadIncomingOp(replies, base) =>
      var e := ReadIncoming(s, replies, base);
      (e.session, e.calls)
    case WriteOutgoingOp(replies, base) =>
      var e := WriteOutgoing(s, replies, base);
      (e.session, e.calls)
    case ReadDataOp(r) =>
      (s.(wantsTo := Classify(s.wantsTo, r.rc, r.status).wantsTo), [EngineRead])
    case WriteDataOp(_, r) =>
      (s.(wantsTo := Classify(s.wantsTo, r.rc, r.status).wantsTo), [EngineWrite])
    case ShutdownOp(first) =>
      (s, ShutdownCalls(first))
  }

  /** Every call of `ops`, made in turn from `s`, is enabled. */
  predicate Runnable(s: Session, ops: seq<Op>)
    decreases |ops|
  {
    ops == [] || (Enabled(s, ops[0]) && Runnable(Next(s, ops[0]).0, ops[1..]))
  }

  /** The final state after `ops` and all the calls they made, in order. */
  function Run(s: Session, ops: seq<Op>): (Session, seq<Call>)
    requires Runnable(s, ops)
    decreases |ops|
  {
    if ops == [] then (s, [])
    else
      var t := Next(s, ops[0]);
      var rest := Run(t.0, ops[1..]);
      (rest.0, t.1 + rest.1)
  }

  /**
   * Once the handshake is done it stays done, and no handshake step is made
   * again. The first half is the contrapositive of PendingOnlyFromPending; it
   * is kept here so that "done is terminal" is stated in one place.
   */
  lemma {:induction false} DoneIsFinal(s: Session, ops: seq<Op>)
    requires Runnable(s, ops)
    requires !s.handshakePending
    ensures !Run(s, ops).0.handshakePending
    ensures HandshakeStep !in Run(s, ops).1
    decreases |ops|
  {
    if ops != [] {
      DoneIsFinal(Next(s, ops[0]).0, ops[1..]);
    }
  }

  /** The handshake flag is monotone along any run: a pending end state means a pending start. */
  lemma {:induction false} PendingOnlyFromPending(s: Session, ops: seq<Op>)
    requires Runnable(s, ops)
    ensures Run(s, ops).0.handshakePending ==> s.handshakePending
    decreases |ops|
  {
    if ops != [] {
      PendingOnlyFromPending(Next(s, ops[0]).0, ops[1..]);
    }
  }

  /** A read or write call in which the handshake step that ends the retry loop is answered positively. */
  predicate OffersSuccess(op: Op)
  {
    (op.ReadIncomingOp? || op.WriteOutgoingOp?) &&
    Settles(op.replies) && op.replies[FirstSettled(op.replies)].rc > 0
  }

  /** A run that completes the handshake contains a call in which the engine answered a step positively. */
  lemma {:induction false} CompletionNeedsPositiveStep(s: Session, ops: seq<Op>)
    requires Runnable(s, ops)
    requires s.handshakePending && !Run(s, ops).0.handshakePending
    ensures exists i :: 0 <= i < |ops| && OffersSuccess(ops[i])
    decreases |ops|
  {
    var t := Next(s, ops[0]);
    if !t.0.handshakePending {
      assert OffersSuccess(ops[0]) by {
        var k := FirstSettled(ops[0].replies);
        assert ops[0].replies[k].rc > 0;
      }
    } else {
      CompletionNeedsPositiveStep(t.0, ops[1..]);
      var i :| 0 <= i < |ops[1..]| && OffersSuccess(ops[1..][i]);
      assert OffersSuccess(ops[i + 1]);
    }
  }

  /** Two shutdowns in a row leave the state alone and make at most two close-notify calls each. */
  lemma ShutdownTwice(s: Session, first: int, second: int)
    ensures Runnable(s, [ShutdownOp(first), ShutdownOp(second)])
    ensures Run(s, [ShutdownOp(first), ShutdownOp(second)]) ==
      (s, ShutdownCalls(first) + ShutdownCalls(second))
    ensures 2 <= |Run(s, [ShutdownOp(first), ShutdownOp(second)]).1| <= 4
  {
    var ops := [ShutdownOp(first), ShutdownOp(second)];
    assert ops[1..] == [ShutdownOp(second)];
    assert ops[1..][1..] == [];
    assert Run(s, ops[1..]) == (s, ShutdownCalls(second) + []);
    assert ShutdownCalls(second) + [] == ShutdownCalls(second);
  }
}
