/**
 * Properties of one send and of a sequence of sends, stated on the value-level
 * behaviour `Transport.Exchange` that `HttpTransport.Send` is proved to follow.
 */
module TransportProps {

  import opened Wrappers
  import opened Encoders
  import opened Transport

  /**
   * Nothing goes on the wire without a URL or without an encoded body: the
   * send fails with no response, and the state is left as it was.
   */
  lemma NoRequestWithoutUrlOrBody(c: Config, encoded: EncoderKind -> Encoding, agent: Request -> Reply)
    ensures var x := Exchange(c, encoded, agent);
            c.url == "" ==> x == SendOutcome(None, Some(EmptyURL), [], c)
    ensures var x := Exchange(c, encoded, agent);
            c.url != "" && encoded(c.format).EncodeFailed? ==>
              x == SendOutcome(None, Some(EncodeError(encoded(c.format).reason)), [], c)
  {
  }

  /**
   * The (response, error) pair is never (nil, nil); a missing response comes
   * only with a configuration or encoding error, and a network failure comes
   * with a placeholder response whose status is 0.
   */
  lemma ResponseShape(c: Config, encoded: EncoderKind -> Encoding, agent: Request -> Reply)
    ensures var x := Exchange(c, encoded, agent);
            x.response.None? <==> (x.err.Some? && (x.err.value.EmptyURL? || x.err.value.EncodeError?))
    ensures var x := Exchange(c, encoded, agent);
            x.err == Some(TransportError) ==> x.response == Some(Response(0))
    ensures var x := Exchange(c, encoded, agent);
            x.err.None? ==> x.response.Some? && |x.sent| > 0
    ensures var x := Exchange(c, encoded, agent);
            (|x.sent| > 0 && agent(x.sent[|x.sent| - 1]) == NetworkError) <==>
              (x.response == Some(Response(0)) && x.err == Some(TransportError))
  {
  }

  /**
   * The caller sees the agent's answer to the last request of the send: its
   * status when there is no error, and a network failure when the error is a
   * transport error. A 404/415 on the current API is therefore never what the
   * caller sees; the answer to the re-send is.
   */
  lemma CallerSeesLastReply(c: Config, encoded: EncoderKind -> Encoding, agent: Request -> Reply)
    ensures var x := Exchange(c, encoded, agent);
            x.err.None? ==>
              |x.sent| > 0 && x.response.Some? &&
              agent(x.sent[|x.sent| - 1]) == Status(x.response.value.statusCode)
    ensures var x := Exchange(c, encoded, agent);
            x.err == Some(TransportError) <==>
              |x.sent| > 0 && agent(x.sent[|x.sent| - 1]) == NetworkError
  {
  }

  /**
   * The downgrade happens at most once: a send issues at most two requests,
   * and it either leaves the state unchanged or, starting on the current API,
   * ends in the downgraded state. A send already in legacy mode never changes
   * the state. URL, format and mode stay consistent throughout.
   */
  lemma AtMostOneDowngrade(c: Config, encoded: EncoderKind -> Encoding, agent: Request -> Reply)
    requires Consistent(c)
    ensures var x := Exchange(c, encoded, agent);
            && |x.sent| <= 2
            && Consistent(x.final)
            && x.final.legacyURL == c.legacyURL
            && (x.final == c || (!c.compatibilityMode && x.final == Downgraded(c)))
            && (c.compatibilityMode ==> x.final == c && |x.sent| <= 1)
            && (|x.sent| == 2 ==> x.final == Downgraded(c))
  {
  }

  /**
   * The state changes exactly when the first request of a send on the current
   * API is answered with 404 or 415.
   */
  lemma DowngradeOnlyOnRejection(c: Config, encoded: EncoderKind -> Encoding, agent: Request -> Reply)
    requires Consistent(c)
    ensures var x := Exchange(c, encoded, agent);
            x.final != c <==>
              && !c.compatibilityMode && c.url != "" && encoded(c.format).Encoded?
              && var req := Request(c.url, c.headers, c.format, encoded(c.format).payload);
                 agent(req).Status? && IsDowngradeTrigger(agent(req).code)
  {
  }

  /**
   * URL and wire format always match: every request goes to the legacy URL
   * exactly when its body is the batch encoded in the legacy format, and the re-send after a
   * downgrade announces the legacy Content-Type.
   */
  lemma WireFormatFollowsURL(c: Config, encoded: EncoderKind -> Encoding, agent: Request -> Reply)
    requires Consistent(c)
    ensures var x := Exchange(c, encoded, agent);
            forall i :: 0 <= i < |x.sent| ==>
              && (x.sent[i].format == LegacyEncoder <==> x.sent[i].url == c.legacyURL)
              && encoded(x.sent[i].format) == Encoded(x.sent[i].body)
    ensures var x := Exchange(c, encoded, agent);
            |x.sent| == 2 ==>
              ContentTypeHeader in x.sent[1].headers &&
              x.sent[1].headers[ContentTypeHeader] == ContentType(LegacyEncoder)
  {
  }

  /**
   * Every request carries the header table as it stood when that request was
   * built: the caller's headers for the first, and the same with the legacy
   * Content-Type for the re-send.
   */
  lemma RequestsCarryHeaders(c: Config, encoded: EncoderKind -> Encoding, agent: Request -> Reply)
    ensures var x := Exchange(c, encoded, agent);
            forall i :: 0 <= i < |x.sent| ==>
              x.sent[i].headers == if i == 0 then c.headers else Downgraded(c).headers
  {
  }

  /**
   * A header set before a send reaches every request of that send, unless it
   * is the Content-Type, which a downgrade overwrites.
   */
  lemma SetHeaderReachesRequests(c: Config, key: string, value: string,
                                 encoded: EncoderKind -> Encoding, agent: Request -> Reply)
    requires key != ContentTypeHeader
    ensures var x := Exchange(c.(headers := c.headers[key := value]), encoded, agent);
            forall i :: 0 <= i < |x.sent| ==> key in x.sent[i].headers && x.sent[i].headers[key] == value
  {
  }

  /**
   * A 404/415 reaches the caller only once the transport is in legacy mode:
   * the agent's rejection of the legacy API is surfaced, not retried.
   */
  lemma RejectionSurfacedOnlyInLegacyMode(c: Config, encoded: EncoderKind -> Encoding, agent: Request -> Reply)
    ensures var x := Exchange(c, encoded, agent);
            x.err.None? && x.response.Some? && IsDowngradeTrigger(x.response.value.statusCode) ==>
              x.final.compatibilityMode
  {
  }

  /**
   * Downgrading twice is downgrading once; it keeps the legacy URL and every
   * header but the Content-Type, and it never leaves legacy mode.
   */
  lemma DowngradeIdempotent(c: Config)
    ensures Downgraded(Downgraded(c)) == Downgraded(c)
    ensures Downgraded(c).compatibilityMode && Downgraded(c).legacyURL == c.legacyURL
    ensures forall k :: k in c.headers && k != ContentTypeHeader ==>
              k in Downgraded(c).headers && Downgraded(c).headers[k] == c.headers[k]
    ensures Consistent(Downgraded(c))
  {
  }

  /**
   * An agent that knows only the legacy API (415 on v0.3, 200 on v0.2): the
   * first send from a fresh transport returns the 200 transparently after
   * two requests, and the transport stays on the legacy URL.
   */
  lemma LegacyAgentTransparentRetry(hostname: string, port: string,
                                    encoded: EncoderKind -> Encoding, agent: Request -> Reply)
    requires forall k :: encoded(k).Encoded?
    requires forall r :: agent(r) == if r.url == LegacyURL(hostname, port) then Status(200) else Status(415)
    ensures var x := Exchange(FreshConfig(hostname, port), encoded, agent);
            && x.response == Some(Response(200)) && x.err == None
            && |x.sent| == 2 && x.sent[1].url == LegacyURL(hostname, port)
            && x.final == Downgraded(FreshConfig(hostname, port))
            && x.final.url == LegacyURL(hostname, port)
  {
    EndpointsDiffer(hostname, port);
    var c := FreshConfig(hostname, port);
    var req := Request(c.url, c.headers, c.format, encoded(c.format).payload);
    assert agent(req) == Status(415);
    var d := Downgraded(c);
    var req2 := Request(d.url, d.headers, d.format, encoded(d.format).payload);
    assert agent(req2) == Status(200);
  }

  /** One call of Send: the batch's encodings and the agent's answers during it. */
  datatype Call = Call(encoded: EncoderKind -> Encoding, agent: Request -> Reply)

  /** The outcomes of successive sends on one transport starting from `c`. */
  function Session(c: Config, calls: seq<Call>): seq<SendOutcome>
    decreases |calls|
  {
    if calls == [] then []
    else
      var x := Exchange(c, calls[0].encoded, calls[0].agent);
      [x] + Session(x.final, calls[1..])
  }

  /** How many of the successive sends switched the transport to legacy mode. */
  function Downgrades(c: Config, calls: seq<Call>): nat
    decreases |calls|
  {
    if calls == [] then 0
    else
      var x := Exchange(c, calls[0].encoded, calls[0].agent);
      (if x.final.compatibilityMode && !c.compatibilityMode then 1 else 0) + Downgrades(x.final, calls[1..])
  }

  /** Over any number of sends the transport downgrades at most once, and never from legacy mode. */
  lemma {:induction false} SessionDowngradesAtMostOnce(c: Config, calls: seq<Call>)
    requires Consistent(c)
    ensures Downgrades(c, calls) <= if c.compatibilityMode then 0 else 1
    decreases |calls|
  {
    if calls != [] {
      var x := Exchange(c, calls[0].encoded, calls[0].agent);
      AtMostOneDowngrade(c, calls[0].encoded, calls[0].agent);
      SessionDowngradesAtMostOnce(x.final, calls[1..]);
    }
  }

  /** Every request of every outcome in `xs` went to `legacyURL` in the legacy format. */
  predicate AllOnLegacyAPI(xs: seq<SendOutcome>, legacyURL: string)
  {
    forall i, j :: 0 <= i < |xs| && 0 <= j < |xs[i].sent| ==>
      xs[i].sent[j].url == legacyURL && xs[i].sent[j].format == LegacyEncoder
  }

  /** Once in legacy mode, every later request goes to the legacy URL in the legacy format. */
  lemma {:induction false} SessionStaysLegacy(c: Config, calls: seq<Call>)
    requires Consistent(c) && c.compatibilityMode
    ensures AllOnLegacyAPI(Session(c, calls), c.legacyURL)
    decreases |calls|
  {
    if calls != [] {
      var x := Exchange(c, calls[0].encoded, calls[0].agent);
      AtMostOneDowngrade(c, calls[0].encoded, calls[0].agent);
      assert x.final == c;
      assert AllOnLegacyAPI([x], c.legacyURL);
      SessionStaysLegacy(c, calls[1..]);
      var xs, rest := Session(c, calls), Session(c, calls[1..]);
      assert xs == [x] + rest;
      forall i, j | 0 <= i < |xs| && 0 <= j < |xs[i].sent|
        ensures xs[i].sent[j].url == c.legacyURL && xs[i].sent[j].format == LegacyEncoder
      {
        if i > 0 {
          assert xs[i] == rest[i - 1];
        }
      }
    }
  }

  /** Every send in `xs` returned `code` with no error. */
  predicate AllReport(xs: seq<SendOutcome>, code: int)
  {
    forall i :: 0 <= i < |xs| ==> xs[i].response == Some(Response(code)) && xs[i].err == None
  }

  /**
   * An agent that answers 404 to everything: across any number of sends the
   * transport downgrades exactly once (on the first send from the current
   * API), and every send reports the 404 once in legacy mode.
   */
  lemma {:induction false} AlwaysRejectingAgent(c: Config, calls: seq<Call>)
    requires Consistent(c) && c.url != "" && c.legacyURL != ""
    requires forall i, k :: 0 <= i < |calls| ==> calls[i].encoded(k).Encoded?
    requires forall i, r :: 0 <= i < |calls| ==> calls[i].agent(r) == Status(404)
    ensures Downgrades(c, calls) == if c.compatibilityMode || calls == [] then 0 else 1
    ensures AllReport(Session(c, calls), 404)
    decreases |calls|
  {
    if calls != [] {
      var call := calls[0];
      var x := Exchange(c, call.encoded, call.agent);
      assert call.encoded(c.format).Encoded?;
      var req := Request(c.url, c.headers, c.format, call.encoded(c.format).payload);
      assert call.agent(req) == Status(404);
      if !c.compatibilityMode {
        var d := Downgraded(c);
        assert call.encoded(d.format).Encoded?;
        var req2 := Request(d.url, d.headers, d.format, call.encoded(d.format).payload);
        assert call.agent(req2) == Status(404);
      }
      AtMostOneDowngrade(c, call.encoded, call.agent);
      assert x.final.compatibilityMode;
      AlwaysRejectingAgent(x.final, calls[1..]);
      var xs, rest := Session(c, calls), Session(x.final, calls[1..]);
      assert xs == [x] + rest;
      forall i | 0 <= i < |xs|
        ensures xs[i].response == Some(Response(404)) && xs[i].err == None
      {
        if i > 0 {
          assert xs[i] == rest[i - 1];
        }
      }
    }
  }
}
