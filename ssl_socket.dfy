/**
 * A model of the TLS session adapter SslStreamSocket (net/SslSocket.hpp):
 * a non-blocking server-side stream socket that drives a TLS engine.
 *
 * The engine (OpenSSL) is not modelled. Each engine call is represented by
 * what it answers: the return code `rc` and the diagnostics the adapter reads
 * right after a failed call (the SSL_get_error kind, errno and the first code
 * of the engine's error queue). The base StreamSocket paths are represented
 * by what they return and the want-state they leave behind.
 */
module SslSocket {

  /** errno value of an interrupted system call (Linux). */
  const EINTR := 4

  /** poll(2) event bits (Linux). */
  const POLLIN := 1
  const POLLOUT := 4

  /** The next I/O direction the engine needs before it can progress. */
  datatype SslWantsTo = Neither | Read | Write

  /** The error kind SSL_get_error reports for a call that returned rc <= 0. */
  datatype SslError =
    | ZeroReturn      // SSL_ERROR_ZERO_RETURN: the peer closed the TLS session
    | WantRead        // SSL_ERROR_WANT_READ
    | WantWrite       // SSL_ERROR_WANT_WRITE
    | WantConnect     // SSL_ERROR_WANT_CONNECT
    | WantAccept      // SSL_ERROR_WANT_ACCEPT
    | WantX509Lookup  // SSL_ERROR_WANT_X509_LOOKUP
    | Syscall         // SSL_ERROR_SYSCALL
    | ProtocolError   // SSL_ERROR_SSL
    | Unlisted        // any other code (SSL_ERROR_NONE, the asynchronous kinds, ...)

  /** What the adapter can observe about the engine after a call. */
  datatype EngineStatus = EngineStatus(error: SslError, errno: int, queuedError: int)

  /** One engine call's answer: its return code and the status read after it. */
  datatype Reply = Reply(rc: int, status: EngineStatus)

  /** The exceptions the adapter throws, by tag (their message text is not modelled). */
  datatype Fault =
    | ClosedUnexpectedly        // "SSL Socket closed unexpectedly."
    | BioReportedError(rc: int) // "SSL BIO reported error [rc]."
    | QueuedError(code: int)    // the engine's formatted diagnostic for `code`

  /** A value returned normally, or an exception. */
  datatype Outcome<T> = Returned(value: T) | Thrown(fault: Fault)

  /** The adapter's own state: the two fields it updates. */
  datatype Session = Session(wantsTo: SslWantsTo, handshakePending: bool)

  /** A freshly constructed socket: no want, handshake still to be done. */
  const Initial := Session(Neither, true)

  /** Calls the adapter makes into collaborators, in the order it makes them. */
  datatype Call =
    | HandshakeStep   // SSL_do_handshake
    | EngineRead      // SSL_read
    | EngineWrite     // SSL_write
    | EngineShutdown  // SSL_shutdown
    | BaseRead        // StreamSocket::readIncomingData
    | BaseWrite       // StreamSocket::writeOutgoingData

  /**
   * What a base StreamSocket read or write path produced: its result and the
   * want-state it leaves, since it reaches the engine through readData and
   * writeData, which classify every reply.
   */
  datatype BaseRun<T> = BaseRun(outcome: Outcome<T>, wantsTo: SslWantsTo)

  /** The outcome, the new session state and the calls made by one operation. */
  datatype Effect<T> = Effect(outcome: Outcome<T>, session: Session, calls: seq<Call>)

  /** The classifier's verdict: an outcome and the new want-state. */
  datatype Classified = Classified(outcome: Outcome<int>, wantsTo: SslWantsTo)

  // ---------------------------------------------------------------------
  // Status classifier (handleSslState)
  // ---------------------------------------------------------------------

  /** The error kinds for which the classifier consults the engine's error queue. */
  predicate FallsToQueue(st: EngineStatus)
  {
    match st.error
    case Syscall => st.errno == 0
    case ProtocolError => true
    case Unlisted => true
    case _ => false
  }

  /** The verdict once the error queue is consulted: `queued` is its first code, 0 when empty. */
  function FromQueue(rc: int, queued: int): Outcome<int>
  {
    if queued != 0 then Thrown(QueuedError(queued))
    else if rc == 0 then Returned(0)
    else if rc == -1 then Thrown(ClosedUnexpectedly)
    else Thrown(BioReportedError(rc))
  }

  /** Classifies an engine return code `rc` given the status read after it and the current want-state `w`. */
  function Classify(w: SslWantsTo, rc: int, st: EngineStatus): (c: Classified)
    // success resets the want-state and passes the count through
    ensures rc > 0 ==> c == Classified(Returned(rc), Neither)
    // the two want signals set the want-state and pass rc through
    ensures rc <= 0 && st.error == WantRead ==> c == Classified(Returned(rc), Read)
    ensures rc <= 0 && st.error == WantWrite ==> c == Classified(Returned(rc), Write)
    // a clean TLS close reports 0 and leaves the want-state alone
    ensures rc <= 0 && st.error == ZeroReturn ==> c == Classified(Returned(0), w)
    // the continuation kinds, unexpected for a server, pass rc through and leave the want-state alone
    ensures rc <= 0 && st.error in {WantConnect, WantAccept, WantX509Lookup} ==> c == Classified(Returned(rc), w)
    // a system error is handed back unchanged, never reclassified
    ensures rc <= 0 && st.error == Syscall && st.errno != 0 ==> c == Classified(Returned(rc), w)
    // nothing else moves the want-state
    ensures c.wantsTo != w ==> rc > 0 || st.error == WantRead || st.error == WantWrite
    // a returned value is rc itself or 0, so a failed call never yields a positive count
    ensures c.outcome.Returned? ==> c.outcome.value == rc || c.outcome.value == 0
    ensures rc <= 0 && c.outcome.Returned? ==> c.outcome.value <= 0
    // a negative code turns into 0 only for a clean TLS close
    ensures rc < 0 && c.outcome == Returned(0) ==> st.error == ZeroReturn
    // exactly the unexplained failures throw, with the tag the error queue and rc select
    ensures c.outcome.Thrown? <==> rc <= 0 && FallsToQueue(st) && (st.queuedError != 0 || rc != 0)
    ensures c.outcome.Thrown? ==>
      c.outcome.fault == (if st.queuedError != 0 then QueuedError(st.queuedError)
                          else if rc == -1 then ClosedUnexpectedly
                          else BioReportedError(rc))
  {
    if rc > 0 then Classified(Returned(rc), Neither)
    else
      match st.error
      case ZeroReturn => Classified(Returned(0), w)
      case WantRead => Classified(Returned(rc), Read)
      case WantWrite => Classified(Returned(rc), Write)
      case WantConnect => Classified(Returned(rc), w)
      case WantAccept => Classified(Returned(rc), w)
      case WantX509Lookup => Classified(Returned(rc), w)
      case Syscall =>
        if st.errno != 0 then Classified(Returned(rc), w)
        else Classified(FromQueue(rc, st.queuedError), w)
      case ProtocolError => Classified(FromQueue(rc, st.queuedError), w)
      case Unlisted => Classified(FromQueue(rc, st.queuedError), w)
  }

  // ---------------------------------------------------------------------
  // Handshake driver (doHandshake)
  // ---------------------------------------------------------------------

  /** A handshake reply the driver retries in place: negative with errno EINTR. */
  predicate Interrupted(r: Reply)
  {
    r.rc < 0 && r.status.errno == EINTR
  }

  /** The engine eventually answers a handshake step with something other than an interruption. */
  predicate Settles(replies: seq<Reply>)
  {
    exists k :: 0 <= k < |replies| && !Interrupted(replies[k])
  }

  /** The index of the reply that ends the retry loop. */
  function FirstSettled(replies: seq<Reply>): (k: nat)
    requires Settles(replies)
    ensures k < |replies| && !Interrupted(replies[k])
    ensures forall j :: 0 <= j < k ==> Interrupted(replies[j])
  {
    if !Interrupted(replies[0]) then 0
    else
      ghost var k0 :| 0 <= k0 < |replies| && !Interrupted(replies[k0]);
      assert !Interrupted(replies[1..][k0 - 1]);
      1 + FirstSettled(replies[1..])
  }

  /** `n` handshake steps. */
  function HandshakeSteps(n: nat): seq<Call>
  {
    seq(n, _ => HandshakeStep)
  }

  /** One run of the handshake driver; `replies` are the engine's answers to successive steps. */
  function Handshake(s: Session, replies: seq<Reply>): (h: Effect<int>)
    requires s.handshakePending ==> Settles(replies)
    // once the handshake is done no step is attempted and the result is 1
    ensures !s.handshakePending ==> h == Effect(Returned(1), s, [])
    // interrupted steps are retried; the driver stops at the first other reply
    ensures s.handshakePending ==> h.calls == HandshakeSteps(FirstSettled(replies) + 1)
    // the flag is cleared exactly when that reply is positive, and never set again
    ensures h.session.handshakePending ==> s.handshakePending
    ensures s.handshakePending ==>
      (h.session.handshakePending <==> replies[FirstSettled(replies)].rc <= 0)
    // a successful step bypasses the classifier, leaves the want-state as it was and returns 1
    ensures s.handshakePending && replies[FirstSettled(replies)].rc > 0 ==>
      h.session.wantsTo == s.wantsTo && h.outcome == Returned(1)
    // a step that fails is classified: the driver records the classifier's want,
    // rethrows its fault, and reports any other result as 1 unless it is 0
    ensures s.handshakePending && replies[FirstSettled(replies)].rc <= 0 ==>
      var r := replies[FirstSettled(replies)];
      var c := Classify(s.wantsTo, r.rc, r.status);
      && h.session.wantsTo == c.wantsTo
      && (c.outcome.Thrown? ==> h.outcome == Thrown(c.outcome.fault))
      && (c.outcome.Returned? ==> h.outcome == Returned(if c.outcome.value != 0 then 1 else 0))
    // the result is 0 or 1, and 0 exactly when the classifier reports a close
    ensures h.outcome.Returned? ==> h.outcome.value == 0 || h.outcome.value == 1
    ensures h.outcome == Returned(0) <==>
      s.handshakePending &&
      var r := replies[FirstSettled(replies)];
      r.rc <= 0 && Classify(s.wantsTo, r.rc, r.status).outcome == Returned(0)
  {
    if !s.handshakePending then Effect(Returned(1), s, [])
    else
      var k := FirstSettled(replies);
      var r := replies[k];
      var steps := HandshakeSteps(k + 1);
      if r.rc > 0 then Effect(Returned(1), s.(handshakePending := false), steps)
      else
        var c := Classify(s.wantsTo, r.rc, r.status);
        var s' := s.(wantsTo := c.wantsTo);
        match c.outcome
        case Thrown(f) => Effect(Thrown(f), s', steps)
        case Returned(v) =>
          if v <= 0 then Effect(Returned(if v != 0 then 1 else 0), s', steps)
          else Effect(Returned(1), s'.(handshakePending := false), steps)
  }

  // ---------------------------------------------------------------------
  // Entry points
  // ---------------------------------------------------------------------

  /** readIncomingData: drive the handshake, then (unless it reported a close) the base read path. */
  function ReadIncoming(s: Session, replies: seq<Reply>, base: BaseRun<bool>): (e: Effect<bool>)
    requires s.handshakePending ==> Settles(replies)
    // the base read runs exactly when the handshake driver returned 1
    ensures BaseRead in e.calls <==> Handshake(s, replies).outcome == Returned(1)
    // a close reported by the handshake makes the read return false without touching the base path
    ensures Handshake(s, replies).outcome == Returned(0) ==>
      e == Effect(Returned(false), Handshake(s, replies).session, Handshake(s, replies).calls)
    // a fault from the handshake propagates, with nothing more done
    ensures Handshake(s, replies).outcome.Thrown? ==>
      e == Effect(Thrown(Handshake(s, replies).outcome.fault), Handshake(s, replies).session, Handshake(s, replies).calls)
    // a driver result of 1 (handshake done, or suspended) goes on to the base read path
    ensures Handshake(s, replies).outcome == Returned(1) ==>
      e == Effect(base.outcome, Handshake(s, replies).session.(wantsTo := base.wantsTo),
                  Handshake(s, replies).calls + [BaseRead])
    // only the handshake driver moves the handshake flag
    ensures e.session.handshakePending == Handshake(s, replies).session.handshakePending
    // after the handshake the call is the base read alone
    ensures !s.handshakePending ==> e == Effect(base.outcome, s.(wantsTo := base.wantsTo), [BaseRead])
  {
    var h := Handshake(s, replies);
    match h.outcome
    case Thrown(f) => Effect(Thrown(f), h.session, h.calls)
    case Returned(rc) =>
      if rc <= 0 then Effect(Returned(rc != 0), h.session, h.calls)
      else Effect(base.outcome, h.session.(wantsTo := base.wantsTo), h.calls + [BaseRead])
  }

  /** writeOutgoingData: drive the handshake, then (unless it reported a close) the base write path. */
  function WriteOutgoing(s: Session, replies: seq<Reply>, base: BaseRun<()>): (e: Effect<()>)
    requires s.handshakePending ==> Settles(replies)
    // the base write runs exactly when the handshake driver returned 1
    ensures BaseWrite in e.calls <==> Handshake(s, replies).outcome == Returned(1)
    // a close reported by the handshake returns without touching the base path
    ensures Handshake(s, replies).outcome == Returned(0) ==>
      e == Effect(Returned(()), Handshake(s, replies).session, Handshake(s, replies).calls)
    // a fault from the handshake propagates, with nothing more done
    ensures Handshake(s, replies).outcome.Thrown? ==>
      e == Effect(Thrown(Handshake(s, replies).outcome.fault), Handshake(s, replies).session, Handshake(s, replies).calls)
    // a driver result of 1 (handshake done, or suspended) goes on to the base write path
    ensures Handshake(s, replies).outcome == Returned(1) ==>
      e == Effect(base.outcome, Handshake(s, replies).session.(wantsTo := base.wantsTo),
                  Handshake(s, replies).calls + [BaseWrite])
    // only the handshake driver moves the handshake flag
    ensures e.session.handshakePending == Handshake(s, replies).session.handshakePending
    // after the handshake the call is the base write alone
    ensures !s.handshakePending ==> e == Effect(base.outcome, s.(wantsTo := base.wantsTo), [BaseWrite])
  {
    var h := Handshake(s, replies);
    match h.outcome
    case Thrown(f) => Effect(Thrown(f), h.session, h.calls)
    case Returned(rc) =>
      if rc <= 0 then Effect(Returned(()), h.session, h.calls)
      else Effect(base.outcome, h.session.(wantsTo := base.wantsTo), h.calls + [BaseWrite])
  }

  /** getPollEvents: the events to wait for, given the base socket's own choice `baseEvents`. */
  function PollEvents(w: SslWantsTo, baseEvents: int): (events: int)
    // a pending engine want overrides the base socket entirely
    ensures w == Read ==> events == POLLIN
    ensures w == Write ==> events == POLLOUT
    // the base socket decides only when the engine wants nothing
    ensures w == Neither ==> events == baseEvents
  {
    if w == Read then POLLIN
    else if w == Write then POLLOUT
    else baseEvents
  }

  /** shutdown: the close-notify calls made when the first one answers `first`. */
  function ShutdownCalls(first: int): (calls: seq<Call>)
    // at most two close-notify calls, and nothing else
    ensures 1 <= |calls| <= 2
    ensures forall i :: 0 <= i < |calls| ==> calls[i] == EngineShutdown
    // the second one is made only when the first reports the close as incomplete
    ensures |calls| == 2 <==> first == 0
  {
    if first == 0 then [EngineShutdown, EngineShutdown] else [EngineShutdown]
  }

  /**
   * A handshake step that suspends on a want signal makes the driver return
   * 1, not 0, so readIncomingData goes on to the base read path while the
   * handshake is still pending.
   */
  lemma SuspendedHandshakeStillReads(s: Session, replies: seq<Reply>, base: BaseRun<bool>)
    requires s.handshakePending && Settles(replies)
    requires replies[FirstSettled(replies)].rc < 0
    requires replies[FirstSettled(replies)].status.error in {WantRead, WantWrite}
    ensures Handshake(s, replies).outcome == Returned(1)
    ensures Handshake(s, replies).session.handshakePending
    ensures Handshake(s, replies).session.wantsTo ==
      (if replies[FirstSettled(replies)].status.error == WantRead then Read else Write)
    ensures ReadIncoming(s, replies, base).calls == HandshakeSteps(FirstSettled(replies) + 1) + [BaseRead]
  {
  }

  /**
   * A successful handshake step bypasses the classifier, so a want recorded
   * by an earlier suspended step survives it and still overrides the poll
   * events the base socket would choose.
   */
  lemma HandshakeSuccessKeepsOverride(s: Session, replies: seq<Reply>, baseEvents: int)
    requires s.handshakePending && Settles(replies)
    requires replies[FirstSettled(replies)].rc > 0
    ensures Handshake(s, replies).session == Session(s.wantsTo, false)
    ensures s.wantsTo == Read ==> PollEvents(Handshake(s, replies).session.wantsTo, baseEvents) == POLLIN
    ensures s.wantsTo == Write ==> PollEvents(Handshake(s, replies).session.wantsTo, baseEvents) == POLLOUT
  {
  }

  // ---------------------------------------------------------------------
  // The socket object
  // ---------------------------------------------------------------------

  /**
   * SslStreamSocket: the two fields the adapter updates, and a ghost log of
   * the calls it has made into the engine and the base socket.
   */
  class SslStreamSocket {
    var wantsTo: SslWantsTo
    var handshakePending: bool
    ghost var calls: seq<Call>

    function State(): Session
      reads this
    {
      Session(wantsTo, handshakePending)
    }

    constructor ()
      ensures State() == Initial && calls == []
    {
      wantsTo := Neither;
      handshakePending := true;
      calls := [];
    }

    /** Sends close-notify; `first` is the engine's answer to the first attempt. */
    method Shutdown(first: int)
      modifies this`calls
      ensures calls == old(calls) + ShutdownCalls(first)
    {
      calls := calls + [EngineShutdown];
      if first == 0 {
        // Complete the bidirectional shutdown; the second answer is ignored.
        calls := calls + [EngineShutdown];
      }
    }

    /** Reads from the peer; `replies` answer the handshake steps, `base` is the base read path. */
    method ReadIncomingData(replies: seq<Reply>, base: BaseRun<bool>) returns (o: Outcome<bool>)
      requires handshakePending ==> Settles(replies)
      modifies this
      ensures var e := ReadIncoming(old(State()), replies, base);
        o == e.outcome && State() == e.session && calls == old(calls) + e.calls
    {
      var h := DoHandshake(replies);
      match h
      case Thrown(f) =>
        o := Thrown(f);
      case Returned(rc) =>
        if rc <= 0 {
          o := Returned(rc != 0);
        } else {
          o := base.outcome;
          wantsTo := base.wantsTo;
          calls := calls + [BaseRead];
        }
    }

    /** Writes to the peer; `replies` answer the handshake steps, `base` is the base write path. */
    method WriteOutgoingData(replies: seq<Reply>, base: BaseRun<()>) returns (o: Outcome<()>)
      requires handshakePending ==> Settles(replies)
      modifies this
      ensures var e := WriteOutgoing(old(State()), replies, base);
        o == e.outcome && State() == e.session && calls == old(calls) + e.calls
    {
      var h := DoHandshake(replies);
      match h
      case Thrown(f) =>
        o := Thrown(f);
      case Returned(rc) =>
        if rc <= 0 {
          o := Returned(());
        } else {
          o := base.outcome;
          wantsTo := base.wantsTo;
          calls := calls + [BaseWrite];
        }
    }

    /** readData: one engine read, answered by `r`, classified. */
    method ReadData(r: Reply) returns (o: Outcome<int>)
      modifies this`wantsTo, this`calls
      ensures var c := Classify(old(wantsTo), r.rc, r.status);
        o == c.outcome && wantsTo == c.wantsTo
      ensures calls == old(calls) + [EngineRead]
    {
      calls := calls + [EngineRead];
      o := HandleSslState(r.rc, r.status);
    }

    /** writeData: one engine write of `len` bytes, answered by `r`, classified. */
    method WriteData(len: int, r: Reply) returns (o: Outcome<int>)
      requires len > 0
      modifies this`wantsTo, this`calls
      ensures var c := Classify(old(wantsTo), r.rc, r.status);
        o == c.outcome && wantsTo == c.wantsTo
      ensures calls == old(calls) + [EngineWrite]
    {
      calls := calls + [EngineWrite];
      o := HandleSslState(r.rc, r.status);
    }

    /** getPollEvents, given what the base socket would ask for. */
    method GetPollEvents(baseEvents: int) returns (events: int)
      ensures events == PollEvents(wantsTo, baseEvents)
    {
      if wantsTo == Read {
        // Must read next before attempting to write.
        events := POLLIN;
      } else if wantsTo == Write {
        // Must write next before attempting to read.
        events := POLLOUT;
      } else {
        events := baseEvents;
      }
    }

    /** doHandshake: `replies` are the engine's answers to successive handshake steps. */
    method DoHandshake(replies: seq<Reply>) returns (o: Outcome<int>)
      requires handshakePending ==> Settles(replies)
      modifies this
      ensures var h := Handshake(old(State()), replies);
        o == h.outcome && State() == h.session && calls == old(calls) + h.calls
    {
      if handshakePending {
        ghost var k := FirstSettled(replies);
        var r := replies[0];
        var i := 1;
        calls := calls + [HandshakeStep];
        while r.rc < 0 && r.status.errno == EINTR
          invariant 1 <= i <= k + 1 && r == replies[i - 1]
          invariant calls == old(calls) + HandshakeSteps(i)
          invariant State() == old(State())
          decreases k + 1 - i
        {
          r := replies[i];
          i := i + 1;
          calls := calls + [HandshakeStep];
        }
        var rc := r.rc;
        if rc <= 0 {
          var c := HandleSslState(rc, r.status);
          match c
          case Thrown(f) =>
            o := Thrown(f);
            return;
          case Returned(v) =>
            if v <= 0 {
              o := Returned(if v != 0 then 1 else 0);
              return;
            }
        }
        handshakePending := false;
      }
      // Handshake complete.
      o := Returned(1);
    }

    /** handleSslState: classifies `rc` and records the engine's want. */
    method HandleSslState(rc: int, st: EngineStatus) returns (o: Outcome<int>)
      modifies this`wantsTo
      ensures var c := Classify(old(wantsTo), rc, st);
        o == c.outcome && wantsTo == c.wantsTo
    {
      if rc > 0 {
        // Success: reset so that either direction may follow.
        wantsTo := Neither;
        return Returned(rc);
      }
      match st.error {
        case ZeroReturn =>
          // The TLS session was shut down: disconnected.
          return Returned(0);
        case WantRead =>
          wantsTo := Read;
          return Returned(rc);
        case WantWrite =>
          wantsTo := Write;
          return Returned(rc);
        case WantConnect =>
          return Returned(rc);
        case WantAccept =>
          return Returned(rc);
        case WantX509Lookup =>
          return Returned(rc);
        case Syscall =>
          if st.errno != 0 {
            // A system error: left to the caller.
            return Returned(rc);
          }
          // Otherwise fall through to the error queue.
        case ProtocolError =>
        case Unlisted =>
      }
      if st.queuedError == 0 {
        if rc == 0 {
          // The socket closed.
          o := Returned(0);
        } else if rc == -1 {
          o := Thrown(ClosedUnexpectedly);
        } else {
          o := Thrown(BioReportedError(rc));
        }
      } else {
        o := Thrown(QueuedError(st.queuedError));
      }
    }
  }
}
