# SslStreamSocket — a Dafny model

This project models `SslStreamSocket` (`net/SslSocket.hpp`). It is the
server-side TLS adapter of a non-blocking, reactor-driven stream socket. The
adapter keeps two pieces of state. The first is the want-state, the I/O
direction the TLS engine last said it needs (`Neither`, `Read`, `Write`). The
second is the handshake flag, which says whether the handshake is still to be
done. Around that state sit four pieces of logic:

- the status classifier `handleSslState`, which turns an engine return code
  and the diagnostics read after it into a count, a suspend signal, a close
  signal or an exception, and records the engine's want;
- the handshake driver `doHandshake`, which retries interrupted steps in
  place and clears the handshake flag for good once a step succeeds;
- the read and write entry points, which run the handshake driver first and
  then the base socket's own path;
- `getPollEvents`, where a recorded want overrides the base socket's choice,
  and `shutdown`, which sends close-notify at most twice.

The engine (OpenSSL) is not modelled. Each engine call is represented by its
answer, a `Reply`. A reply holds the return code and the status the adapter
would read after a failure: the `SSL_get_error` kind, `errno`, and the first
code in the engine's error queue. The base `StreamSocket` read and write paths
are represented by a `BaseRun`: the result they return and the want-state they
leave. They reach the engine through `readData` and `writeData`, so they can
change the want-state. A ghost log `calls` records every call the adapter
makes that does work: handshake steps, engine read/write/shutdown, and base
read/write. The log makes three claims
checkable: that the base read is skipped, that no handshake step follows
completion, and that there are at most two close-notify calls.

Files:

- `ssl_socket.dfy`, module `SslSocket`. It holds the data model, the
  specification functions (`Classify`, `Handshake`, `ReadIncoming`,
  `WriteOutgoing`, `PollEvents`, `ShutdownCalls`) and the class
  `SslStreamSocket`. Each method of the class is proved against the matching
  specification function.
- `ssl_runs.dfy`, module `SslRuns`. It holds sequences of calls into one
  socket and the lemmas that hold along every such sequence.

### Behaviour that is easy to misread

- A handshake step that suspends (need input or need output) does not make
  the read or write path return early. `doHandshake` returns
  `rc != 0`, which is 1 for a negative code. So `readIncomingData` and
  `writeOutgoingData` go on to the base path while the handshake is pending
  (`SuspendedHandshakeStillReads`). Only a classifier result of 0 stops them.
- A successful handshake step never reaches the classifier, so it does not
  reset the want-state. If an earlier step recorded `Read`, the poll events
  stay `POLLIN` after the handshake completes, until the next classified
  engine call (`HandshakeSuccessKeepsOverride`).
- Suppose the error queue is empty and the return code is negative. Only
  `rc == -1` gives "closed unexpectedly". Any other non-zero code gives
  "BIO reported error [rc]".

## Model

| member | source | states |
|---|---|---|
| `SslSocket.Classify` | net/SslSocket.hpp:169-244 | A positive rc is returned unchanged and resets the want-state to Neither. WANT_READ and WANT_WRITE set Read and Write and return rc unchanged. ZERO_RETURN returns 0 and WANT_CONNECT, WANT_ACCEPT and WANT_X509_LOOKUP return rc unchanged, all without touching the want-state. A system error with errno set is returned unchanged. Nothing else changes the want-state. A returned value is rc or 0, so it is never positive for rc <= 0. A negative rc becomes 0 only on a clean TLS close. The call throws exactly when the error queue is consulted and the result is not the orderly close; the queued code, or rc == -1, selects which fault |
| `SslSocket.SslStreamSocket.HandleSslState` | net/SslSocket.hpp:169-244 | The returned outcome and the new want-state are those of `Classify` on the old want-state |
| `SslSocket.FirstSettled` | net/SslSocket.hpp:145-150 | The retry loop stops at the first handshake reply that is not negative-with-EINTR, and every reply before it is such a reply |
| `SslSocket.Handshake` | net/SslSocket.hpp:139-166 | Once the flag is clear, no step is made and the result is 1. While it is set, steps are retried up to the first reply that is not interrupted. The flag is cleared exactly when that reply is positive and is never set again. A success bypasses the classifier, keeps the want-state and returns 1. A failed step takes the classifier's want-state, rethrows the classifier's fault, and otherwise returns 1 unless the classifier returned 0, so a suspended step returns 1. The result is 0 or 1, and it is 0 exactly when the classifier returns 0 |
| `SslSocket.SslStreamSocket.DoHandshake` | net/SslSocket.hpp:139-166 | The retry loop and the flag update give the outcome, the new fields and the logged handshake steps of `Handshake` |
| `SslSocket.ReadIncoming` | net/SslSocket.hpp:69-81 | The base read runs exactly when the driver returns 1. A driver result of 0 returns false without touching the base path. A driver result of 1, even with the handshake still pending, gives the base read's result and want-state after the handshake steps. Driver faults propagate with nothing more done. Only the driver moves the handshake flag. After the handshake, the call is the base read alone |
| `SslSocket.SslStreamSocket.ReadIncomingData` | net/SslSocket.hpp:69-81 | The result, the new fields and the calls made are those of `ReadIncoming` |
| `SslSocket.WriteOutgoing` | net/SslSocket.hpp:83-95 | The base write runs exactly when the driver returns 1. A driver result of 0 returns without touching the base path. A driver result of 1, even with the handshake still pending, gives the base write's result and want-state after the handshake steps. Driver faults propagate with nothing more done. Only the driver moves the handshake flag. After the handshake, the call is the base write alone |
| `SslSocket.SslStreamSocket.WriteOutgoingData` | net/SslSocket.hpp:83-95 | The result, the new fields and the calls made are those of `WriteOutgoing` |
| `SslSocket.SslStreamSocket.ReadData` | net/SslSocket.hpp:97-102 | One engine read is made and its reply is classified: the result and the want-state are `Classify`'s |
| `SslSocket.SslStreamSocket.WriteData` | net/SslSocket.hpp:104-110 | The call demands len > 0. One engine write is made and its reply is classified |
| `SslSocket.PollEvents` | net/SslSocket.hpp:112-127 | A Read want gives exactly POLLIN and a Write want gives exactly POLLOUT, whatever the base socket would choose. The base socket's choice is used only when the want-state is Neither |
| `SslSocket.SslStreamSocket.GetPollEvents` | net/SslSocket.hpp:112-127 | The events returned are `PollEvents` of the current want-state |
| `SslSocket.ShutdownCalls` | net/SslSocket.hpp:60-67 | There are one or two close-notify calls and nothing else. The second is made exactly when the first returns 0 |
| `SslSocket.SslStreamSocket.Shutdown` | net/SslSocket.hpp:60-67 | The calls logged are `ShutdownCalls` of the first answer, and the want-state and handshake flag are untouched |
| `SslSocket.SslStreamSocket.constructor` | net/SslSocket.hpp:22-27 | A new socket wants neither direction and has the handshake pending |
| `SslSocket.SuspendedHandshakeStillReads` | net/SslSocket.hpp:152-158 | A step that suspends on WANT_READ or WANT_WRITE makes the driver return 1 with the flag still set and the want recorded. The read path then goes on to the base read |
| `SslSocket.HandshakeSuccessKeepsOverride` | net/SslSocket.hpp:152-161 | A successful step clears the flag and keeps the earlier want, so a Read or Write want still overrides the poll events |
| `SslRuns.Next` | net/SslSocket.hpp:60-110 | No call sets the handshake flag again. Once it is clear, no call makes a handshake step. The flag is cleared only by a read or write call whose settling handshake reply is positive |
| `SslRuns.DoneIsFinal` | net/SslSocket.hpp:143-166 | Along any sequence of calls that starts with the handshake done, it stays done and no handshake step is made |
| `SslRuns.PendingOnlyFromPending` | net/SslSocket.hpp:143-161 | Along any sequence of calls, a pending handshake at the end means it was pending at the start |
| `SslRuns.CompletionNeedsPositiveStep` | net/SslSocket.hpp:152-161 | A sequence of calls that completes the handshake contains a read or write call in which the handshake step that ended the retry loop was answered positively |
| `SslRuns.ShutdownTwice` | net/SslSocket.hpp:60-67 | Two shutdowns in a row leave the state unchanged and make between two and four close-notify calls, never a third round in either |

## Left out

- OpenSSL itself is not modelled: BIO creation and binding, `SSL_new`/`SSL_free`, and the behaviour of `SSL_do_handshake`, `SSL_read`, `SSL_write`, `SSL_shutdown`, `SSL_get_error` and `ERR_get_error`. Their answers are inputs (`Reply`, `EngineStatus`, the `first` answer of `Shutdown`).
- Exception messages (`ERR_error_string_n`, `std::to_string`) are not modelled. A thrown error is a `Fault` tag that carries the code it was built from.
- The base `StreamSocket` is not part of this model. Its read and write paths are inputs (`BaseRun`): their result and the want-state their internal `readData`/`writeData` calls leave. Its poll-event choice is an input too.
- `SslSocket.SslStreamSocket.GetPollEvents` takes the base socket's poll events as a parameter even when the want-state makes them irrelevant. The source calls the base only when the want-state is Neither.
- `SslSocket.SslStreamSocket.DoHandshake`: an engine that answers every handshake step with an interruption is not modelled. The source would loop forever. The model requires the list of replies to contain a reply that is not interrupted (`Settles`).
- A reply carries one `errno`. The model assumes that `SSL_get_error` and `ERR_get_error` do not change `errno` between the retry-loop test and the classifier.
- The data buffers of `readData` and `writeData`, and the length passed to `SSL_read`, are not modelled; no byte content is tracked. `writeData`'s debug assertion `len > 0` is a precondition.
- Thread-ownership assertions (`isCorrectThread`) and logging concern concurrency and diagnostics, so they are left out.
- The destructor is left out beyond what `Shutdown` models: it calls `shutdown` and then frees the engine handle.
- The constructor's failure paths (BIO or engine allocation fails) are left out; only the initial state is modelled.
- The log `calls` records calls that do work (handshake steps, engine read/write/shutdown, base read/write). It does not record the status queries `SSL_get_error` and `ERR_get_error`, or the base poll query.
- Return codes are unbounded integers. The source never does arithmetic on them, so the width of C++ `int` has no effect.
