# Wave websocket handshake

This project models the handshake that the Wave server runs when a browser opens its websocket:
`SocketServer.ServeHTTP` and `getRemoteAddr` in `socket.go`. For one request, the handler does the
following, in order:

1. It upgrades the HTTP connection.
2. If authentication is configured, it resolves the session. For a request without a session the
   handler stops here. It writes one text frame that sends the browser to `<baseURL>_auth/logout`,
   but only when that op encodes and `NextWriter` opens. When the op encodes and `NextWriter` fails,
   it writes 401 instead. When the op does not encode, it writes nothing.
3. It snapshots the request headers that the forwarding policy lets through.
4. It asks the broker for the client registered under the `client-id` query parameter.
5. If the broker knows that client, the handler hands it the new connection (the reattach path).
   Under the client's lock it sends a close frame on the old connection, closes it, installs the
   new connection, sets the state to `STATE_RECONNECT` and records the new remote address.
6. Otherwise it creates a fresh client and sends that client its id in a hello message. If the
   hello cannot be encoded or `send` refuses it, the handler writes 500 and stops.
7. Finally it starts the client's `flush` and `listen` pumps.

Modules:

- `Http` (`http.dfy`) covers the Go library behaviour the handler relies on: ASCII `strings.ToLower`,
  `textproto.CanonicalMIMEHeaderKey`, `Header.Get` and `url.Values.Get`.
- `Forwarding` (`forwarding.dfy`) holds two parts:
  - The forwarded-header snapshot. `ForwardedSnapshot` is a pure map filter, and `FilterHeaders`
    is the handler's loop, proved to compute it.
  - `getRemoteAddr`.
- `Socket` (`socket.dfy`) holds the handshake:
  - `Handshake` is a pure function. It gives the outcome and the trace of effects for given
    answers from the collaborators.
  - `Client`, `Broker` and `SocketServer` are classes. `SocketServer.ServeHTTP` mutates the
    reattached client in place and is proved to produce exactly `Handshake`'s outcome and trace.
  - The lemmas about `Handshake` state which branch fires, what each branch writes and when the
    pumps start.

The collaborators' answers for one request come in as the `Collaborators` input. These are: the
result of `Upgrade`, what `Auth.identify` returns, whether each `json.Marshal` succeeds, whether
`NextWriter` opens, the id `newClient` generates and what `client.send` answers. The handler's
effects are returned as a sequence of `Event`s: frames written, HTTP statuses, close frame and
close of the old connection, lock and unlock, the hello handed to `send`, and the two pump starts.

Behaviour of the code that the model follows:

- When there is no session, the handler does not close the new connection. If the navigate op
  fails to encode, the handler writes nothing at all. A 401 is written only when `NextWriter` fails.
- On reattach, the state becomes `STATE_RECONNECT`. The forwarded-header snapshot computed for the
  new request is thrown away, so the client keeps the snapshot from its first handshake.
- On the fresh path, a failed hello writes 500 and returns. It does not close the connection and
  does not undo anything `newClient` may have done.
- The policy is looked up with the lower-cased request header name, and the policy's own keys are
  used as they are. A policy key with an upper-case letter never matches, unless `"*"` is set.

## Model

| member | source | states |
|---|---|---|
| Http.ToLower | socket.go:81 | The lower-cased name has the same length as the original, and each character is the ASCII lower case of the original one. |
| Http.ToLowerIdempotent | socket.go:81 | Lower-casing a name twice gives the same result as lower-casing it once. |
| Http.ToLowerIgnoresCase | socket.go:81 | Two names that differ only in letter case (each character equal, or its upper or lower case) lower-case to the same name. |
| Http.Canon | socket.go:117 | A character is upper-cased when it is first or follows '-', and lower-cased otherwise. The length is kept. |
| Http.CanonicalKey | socket.go:117 | A name made of header-name characters comes back with upper case at the start and after every '-', and lower case elsewhere. A name with any other character is returned unchanged. The length is always kept. |
| Http.Get | socket.go:117 | A canonical name with at least one value yields its first value. A non-empty result is always that first value, and a name whose canonical form is absent yields "". |
| Http.FirstValue | socket.go:86 | A non-empty result is the first value listed under the key. A key with at least one value yields its first value. |
| Forwarding.Allows | socket.go:81 | The wildcard lets every header through, and so does a true entry for the lower-cased name. A header is let through only when "*" or its lower-cased name maps to true, so a missing key or a false entry blocks it. |
| Forwarding.ForwardedSnapshot | socket.go:78-85 | The snapshot is a sub-map of the request headers: it has no name the request lacks, and every name keeps the request's value list. |
| Forwarding.NilPolicyForwardsNothing | socket.go:78-79 | A nil policy gives an empty snapshot. |
| Forwarding.SnapshotMembership | socket.go:79-84 | A name is in the snapshot iff it is a request header and the policy maps "*" or the lower-cased name to true. An included name keeps the request's exact value list. |
| Forwarding.WildcardForwardsAll | socket.go:81-82 | When "*" is true, the snapshot equals the whole request header map. |
| Forwarding.SnapshotIgnoresCase | socket.go:81 | Two request headers whose names differ only in letter case are either both forwarded or both dropped. |
| Forwarding.FilterHeaders | socket.go:78-85 | The loop over the request headers returns exactly the snapshot function's result, for every policy and request. |
| Forwarding.GetRemoteAddr | socket.go:116-121 | A non-empty X-Forwarded-For value wins, and otherwise the socket peer address is used. The result comes from one of those two, and it is non-empty whenever the peer address is. |
| Socket.ClientIdParam | socket.go:86 | A `client-id` with at least one value yields its first value. A non-empty id is always that first value, and a query without `client-id` yields "". |
| Socket.SessionOf | socket.go:60-62 | Without auth configured the session is anonymous. With auth configured and a session found, it is what identify returned. |
| Socket.Handshake | socket.go:53-114 | The outcome is UpgradeFailed iff the upgrade failed, and Unauthorized iff auth is configured and found no session. Otherwise it is a reattach iff the broker returned a client, and fresh iff it did not. The pumps start iff the request got past authentication and either a client was found or the hello encoded and was accepted by send. |
| Socket.Broker.GetClient | socket.go:87 | A client is returned iff one is registered under the id, and it is the registered client. |
| Socket.UpgradeFailureIsInert | socket.go:54-58 | After a failed upgrade the handler adds no effect of its own. The result does not depend on the auth settings, what identify returns or the broker. The library's own error reply and the log line are not modelled. |
| Socket.UnauthenticatedStopsEarly | socket.go:61-75 | Without a session the outcome is Unauthorized, whatever the broker holds, and no pump starts. The only possible frame is a navigate op to baseURL + "_auth/logout". 401 is written iff the op encoded but the writer failed. |
| Socket.BranchChoice | socket.go:86-99 | After upgrade and authentication, a client found by the broker is reattached under its id. Otherwise a fresh client with the new id is created. |
| Socket.ReattachClosesOldConnection | socket.go:88-97 | Reattach first locks the client, sends a close frame on the old connection, closes it, then unlocks. It sends no hello, writes no status and writes no frame. |
| Socket.FreshHelloCarriesId | socket.go:99-109 | A fresh client's hello carries its own id and is handed to send iff it encoded. 500 is written iff encoding or send failed, and exactly when the pumps do not start. |
| Socket.PumpsStartExactlyAtEnd | socket.go:112-113 | When the handler reaches its end (a reattach, or a fresh client whose hello was sent), flush and listen start for that client as the last two effects. Otherwise neither is started. |
| Socket.Client.constructor | socket.go:99 | A fresh client holds the generated id, remote address, session, new connection, editable flag, base URL, header snapshot and timings it is given. |
| Socket.Client.Reattach | socket.go:89-96 | The effects are lock, close frame on the old connection, close of the old connection, unlock. After it, conn is the new connection, state is Reconnect, addr is the new address, and every other field is unchanged. |
| Socket.SocketServer.constructor | socket.go:38-51 | The server keeps the broker, whether auth is set, and the editable flag, base URL, forwarding policy and timings from the configuration. |
| Socket.SocketServer.ServeHTTP | socket.go:53-114 | The outcome and trace equal the handshake decision for what the broker held under client-id. On reattach, that client alone changes, as Reattach states. On the fresh path, a new client holds the new connection, GetRemoteAddr(r), the session and the forwarded snapshot. Otherwise no client changes. |

## Left out

- The gorilla websocket library is not modelled: `Upgrade`, `NextWriter`, `WriteMessage`, `Close`,
  and the read and write buffer sizes. Their results are inputs. Only some calls leave a trace
  event:
  - `Upgrade` leaves none, and the error reply the library itself sends on a failed upgrade is
    not modelled.
  - A failed `NextWriter` leaves only the 401 that follows it.
  - A successful `NextWriter`, `sw.Write` and `sw.Close` together make one `TextWritten` event.
  - `WriteMessage(CloseMessage)` and `Close` on the old connection are `CloseFrameSent` and
    `ConnClosed`.
- The `CheckOrigin` closure built from the allowed origins (socket.go:39-44) is left out. The
  upgrader applies it inside the library, and the model only sees whether `Upgrade` succeeded, so
  `ServerConf` carries no allowed origins.
- JSON encoding of the control ops is left out. Whether each encoding succeeds is an input, and a
  written frame records the op, not its bytes.
- `go client.flush()` and `go client.listen()` are recorded as events. The pumps run concurrently
  and are not modelled.
- The client mutex is recorded as lock and unlock events around the swap. The handler is
  sequential, so no interleaving with the pumps is modelled.
- `echo` logging is left out.
- `Broker.getClient`, `newClient`, `Client.send`, `Auth.identify` and the client state constants
  come from files that are not part of this model. `getClient` is modelled as a lookup in the
  broker's map. `newClient` is the `Client` constructor, and the model gives a fresh client the
  state `Connect`. Whether `newClient` registers the client with the broker is not modelled, so the
  model's broker map never changes. What `send` does with the message (the outbound queue) is not
  modelled, and only its answer is.
- Http.ToLower: lower-cases ASCII letters only, because `strings.ToLower` case mapping for other
  Unicode letters is not modelled.
- Http.CanonicalKey: does not model how Go treats a space in a header name or its table of common
  header names. Neither affects the name "X-FORWARDED-FOR" that the handler looks up.
- HTTP statuses are recorded by code only. The fact that `http.Error` writes to a connection that
  has already been taken over by the upgrade is not modelled.
