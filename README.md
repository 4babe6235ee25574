# dd-trace-go span transport, modelled in Dafny

This project models the span-submission transport of the Go tracing client
(`tracer/transport.go`). The transport POSTs an encoded batch of traces to the
local trace agent. Normally that is msgpack to `http://<host>:<port>/v0.3/traces`.
If the agent answers 404 or 415 and the transport is still on that current
API, it downgrades once, for good. After the downgrade it sends JSON to
`.../v0.2/traces`, and it re-sends the batch once.

Files:

- `wrappers.dfy`: `Option`, which stands in for Go's nil-able response and error.
- `encoders.dfy`: the two wire formats (`EncoderKind`) and their Content-Type.
  The outcome of encoding a batch is an `Encoding`. The `EncoderPool` class has
  a fixed format and size, plus a ghost ledger of encoders lent (`borrowed`)
  and given back (`returned`).
- `transport.dfy`: the `HttpTransport` class. Its fields are `url`, `legacyURL`,
  `pool`, `headers` and `compatibilityMode`, as in the Go struct. Its methods
  are the constructor (`newHTTPTransport`), `Send`, `SetHeader`,
  `ChangeEncoder` and `ApiDowngrade`. The module-level `NewTransport` and
  `NewDefaultTransport` build transports. `Config` is the transport's state as
  a value, and `Exchange` is the pure specification of one send. `Send` is
  proved to return what `Exchange` returns and to leave the state `Exchange`
  leaves.
- `transport_props.dfy`: properties of `Exchange` and of sequences of sends
  (`Session`).

The network is an argument. The function `agent: Request -> Reply` answers each
request with an HTTP status or a network error. The trace batch is also an
argument, `encoded: EncoderKind -> Encoding`: its serialisation in each format,
which can fail. Within one send the two possible requests always differ, because
their bodies use different formats. So a per-request `agent` can describe any
agent behaviour during one call.

## Model

| member | source | states |
|---|---|---|
| `Encoders.EncoderPool.constructor` | tracer/transport.go:60 | A new pool has the requested format and size and has lent nothing. |
| `Encoders.EncoderPool.Borrow` | tracer/transport.go:82 | The lent encoder has the pool's format and records this pool as its lender; the ledger records one more loan. |
| `Encoders.EncoderPool.Return` | tracer/transport.go:83 | An encoder goes back only to the pool that lent it (its ghost `lender`), and only while one is out; the ledger records one more return. |
| `Encoders.NewEncoderPool` | tracer/transport.go:60 | Gives a fresh pool of the format with nothing lent, and that format's Content-Type. |
| `Transport.EndpointsDiffer` | tracer/transport.go:65-66 | For every host and port, the v0.3 and v0.2 URLs are distinct and non-empty. |
| `Transport.DefaultEndpoints` | tracer/transport.go:12-13 | The default agent URLs are `http://localhost:7777/v0.3/traces` and `.../v0.2/traces`. |
| `Transport.NewRequest` | tracer/transport.go:92-95 | The request built by the header-copy loop carries the URL, format and body, and exactly the header table: every key with its value, and no other key. |
| `Transport.HttpTransport.constructor` | tracer/transport.go:58-74 | A new transport has the v0.3 URL, the v0.2 legacy URL, a fresh msgpack pool of size 5, headers holding only the msgpack Content-Type, and compatibility mode off. |
| `Transport.HttpTransport.Send` | tracer/transport.go:76-112 | Returns the response, error and requests that `Exchange` gives for the state at entry, and leaves its final state. The encoder borrowed from the entry pool goes back to that pool, even when a downgrade replaced it. Borrows and returns balance. A send that does not downgrade keeps its pool object, and the active pool always holds 5 encoders. Termination rests on the mode: only a call on the current API recurses. |
| `Transport.HttpTransport.SetHeader` | tracer/transport.go:115-117 | Headers become the old headers updated at `key`; nothing else changes. |
| `Transport.HttpTransport.ChangeEncoder` | tracer/transport.go:121-125 | A fresh pool of the requested format replaces the old one; only the Content-Type header changes, to that format's type. |
| `Transport.HttpTransport.ApiDowngrade` | tracer/transport.go:131-135 | In one step the mode turns on, the URL becomes the legacy URL, the pool becomes a fresh JSON pool of 5 encoders and the Content-Type becomes JSON's. The transport stays consistent. |
| `Transport.NewTransport` | tracer/transport.go:33-41 | An empty hostname becomes `localhost` and an empty port becomes `7777`; non-empty values are kept. The result is a fresh transport for that endpoint. |
| `Transport.NewDefaultTransport` | tracer/transport.go:44-46 | A fresh transport for `localhost:7777`, whose URLs are spelled out. |
| `TransportProps.NoRequestWithoutUrlOrBody` | tracer/transport.go:76-89 | With an empty URL, or a batch that fails to encode in the active format, no request is issued. The send returns no response with `EmptyURL` or `EncodeError`, and the state does not change. |
| `TransportProps.ResponseShape` | tracer/transport.go:96-101 | A send never returns (nil, nil). A missing response comes only with a configuration or encoding error. A network failure on the last request gives the status-0 placeholder response together with a transport error, and only it does. |
| `TransportProps.CallerSeesLastReply` | tracer/transport.go:96-111 | With no error, the caller gets the status of the agent's reply to the last request sent. A transport error is returned exactly when the last request met a network failure. So a 404/415 that triggered the downgrade is never what the caller sees. |
| `TransportProps.AtMostOneDowngrade` | tracer/transport.go:103-108 | A send issues at most two requests. It either leaves the state unchanged or, from the current API, ends downgraded. It keeps the legacy URL and stays consistent. In legacy mode it changes nothing and issues at most one request. |
| `TransportProps.DowngradeOnlyOnRejection` | tracer/transport.go:104 | The state changes if and only if the first request on the current API is answered 404 or 415. |
| `TransportProps.WireFormatFollowsURL` | tracer/transport.go:104-108 | Every request's body is the batch encoded in that request's format, and it goes to the legacy URL exactly when that format is the legacy one. The re-send announces the JSON Content-Type. |
| `TransportProps.RequestsCarryHeaders` | tracer/transport.go:92-95 | Each request carries the header table as it was when that request was built: the caller's table first, then that table with the JSON Content-Type. |
| `TransportProps.SetHeaderReachesRequests` | tracer/transport.go:115-117 | A header set before a send reaches every request of that send, unless it is the Content-Type, which a downgrade overwrites. |
| `TransportProps.RejectionSurfacedOnlyInLegacyMode` | tracer/transport.go:104-111 | A 404/415 reaches the caller only once the transport is in legacy mode. |
| `TransportProps.DowngradeIdempotent` | tracer/transport.go:131-135 | Downgrading twice is the same as downgrading once. The downgrade keeps the legacy URL and every other header. |
| `TransportProps.LegacyAgentTransparentRetry` | tracer/transport.go:104-108 | Take a fresh transport and an agent that answers 415 on v0.3 and 200 on v0.2. The first send returns 200 with no error after two requests, and the transport stays on the legacy URL. |
| `TransportProps.SessionDowngradesAtMostOnce` | tracer/transport.go:104-108 | Over any number of sends the transport downgrades at most once, and never from legacy mode. |
| `TransportProps.SessionStaysLegacy` | tracer/transport.go:131-133 | Once in legacy mode, every later request goes to the legacy URL in the legacy format. |
| `TransportProps.AlwaysRejectingAgent` | tracer/transport.go:104-111 | Take an agent that answers 404 to everything. Over any number of sends the transport downgrades exactly once, and every send reports 404 with no error. |

## Left out

- The `net/http` client, its one-second timeout (tracer/transport.go:16, 68-70) and request construction. The whole round trip is the `agent` argument, and a timeout is a `NetworkError` reply.
- The error of `http.NewRequest` is discarded at tracer/transport.go:92. For a host or port that does not form a valid URL, the request would be nil, and setting headers on it at line 94 would panic, since the table always holds Content-Type. `NewRequest` always builds a request, so the model does not capture this panic.
- Header key canonicalisation by `net/http`'s `Header.Set` is not modelled. Request headers are the transport's keys as written.
- `response.Body.Close()` (tracer/transport.go:110) is not modelled. In the source, the body of the 404/415 reply that triggers the downgrade is never closed before the retry (lines 104-108).
- The `log.Printf` diagnostic at tracer/transport.go:105.
- The encoders, the pool and the serialisers live in files that are not part of this model. An encoding attempt is the `encoded` argument. The pool's blocking or overflow behaviour when empty, and the encoder reset on return, are not modelled: the pool only records its size and a ghost ledger of loans. The Content-Type strings are the MIME types those encoders declare; the proofs do not depend on their values.
- `newEncoderPool` failing on an unknown encoder type cannot happen here, because `EncoderKind` has only the two formats.
- The `Transport` interface (tracer/transport.go:21-24). Its only implementation in tracer/transport.go is the class modelled here.
- Concurrency. The source takes no locks, so the model covers single-threaded use only. The atomic downgrade that a concurrent caller would need is not modelled.
- The traces argument: the batch enters only through its encodings, and no wire-format round trip is stated.
