/**
 * The span-submission transport: one HTTP POST of an encoded trace batch to the
 * trace agent, with a one-way downgrade to the legacy API (v0.2, JSON) when the
 * agent rejects the current one (v0.3, msgpack) with 404 or 415.
 *
 * The network is the caller-supplied `agent`, which answers each request with a
 * status or a network error; the trace batch reaches the model only through
 * `encoded`, its serialisation in each wire format.
 */
module Transport {

  import opened Wrappers
  import opened Encoders

  const DefaultHostname := "localhost"
  const DefaultPort := "7777"
  const DefaultEncoder := Msgpack
  const LegacyEncoder := Json
  const EncoderPoolSize := 5
  const ContentTypeHeader := "Content-Type"

  function PrimaryURL(hostname: string, port: string): string
  {
    "http://" + hostname + ":" + port + "/v0.3/traces"
  }

  function LegacyURL(hostname: string, port: string): string
  {
    "http://" + hostname + ":" + port + "/v0.2/traces"
  }

  /** For any host and port the two endpoints are distinct, non-empty URLs. */
  lemma EndpointsDiffer(hostname: string, port: string)
    ensures PrimaryURL(hostname, port) != LegacyURL(hostname, port)
    ensures PrimaryURL(hostname, port) != "" && LegacyURL(hostname, port) != ""
  {
    var n := |"http://" + hostname + ":" + port|;
    assert PrimaryURL(hostname, port)[n + 4] == '3';
    assert LegacyURL(hostname, port)[n + 4] == '2';
  }

  /** One POST as it goes on the wire: target, headers and the encoded body. */
  datatype Request = Request(url: string, headers: map<string, string>, format: EncoderKind, body: seq<byte>)

  /** How the agent answers a request: an HTTP status, or no answer at all. */
  datatype Reply = NetworkError | Status(code: int)

  datatype Response = Response(statusCode: int)

  datatype SendError = EmptyURL | EncodeError(reason: string) | TransportError

  /** The statuses by which an agent says it does not know the current API. */
  predicate IsDowngradeTrigger(code: int)
  {
    code == 404 || code == 415
  }

  /** The state of a transport as a value: target URLs, active format, headers and mode. */
  datatype Config = Config(
    url: string,
    legacyURL: string,
    format: EncoderKind,
    headers: map<string, string>,
    compatibilityMode: bool)

  /**
   * URL and wire format move together: the legacy mode, the legacy URL and the
   * legacy format hold or fail together, and there is always a Content-Type.
   */
  predicate Consistent(c: Config)
  {
    && (c.compatibilityMode <==> c.format == LegacyEncoder)
    && (c.compatibilityMode <==> c.url == c.legacyURL)
    && ContentTypeHeader in c.headers
  }

  /** The state right after construction for `hostname` and `port`. */
  function FreshConfig(hostname: string, port: string): Config
  {
    Config(PrimaryURL(hostname, port), LegacyURL(hostname, port), DefaultEncoder,
           map[ContentTypeHeader := ContentType(DefaultEncoder)], false)
  }

  /** The state after the downgrade to the legacy API. */
  function Downgraded(c: Config): Config
  {
    c.(compatibilityMode := true, url := c.legacyURL, format := LegacyEncoder,
       headers := c.headers[ContentTypeHeader := ContentType(LegacyEncoder)])
  }

  /** What one send returns, the requests it issued in order, and the state it leaves. */
  datatype SendOutcome = SendOutcome(
    response: Option<Response>,
    err: Option<SendError>,
    sent: seq<Request>,
    final: Config)

  /** The observable behaviour of one send from state `c`. */
  function Exchange(c: Config, encoded: EncoderKind -> Encoding, agent: Request -> Reply): SendOutcome
    decreases if c.compatibilityMode then 0 else 1
  {
    if c.url == "" then SendOutcome(None, Some(EmptyURL), [], c)
    else match encoded(c.format)
      case EncodeFailed(reason) => SendOutcome(None, Some(EncodeError(reason)), [], c)
      case Encoded(body) =>
        var req := Request(c.url, c.headers, c.format, body);
        match agent(req)
        case NetworkError => SendOutcome(Some(Response(0)), Some(TransportError), [req], c)
        case Status(code) =>
          if IsDowngradeTrigger(code) && !c.compatibilityMode then
            var retry := Exchange(Downgraded(c), encoded, agent);
            retry.(sent := [req] + retry.sent)
          else
            SendOutcome(Some(Response(code)), None, [req], c)
  }

  /** Builds the POST for `url`, copying the header table entry by entry. */
  method NewRequest(url: string, headers: map<string, string>, format: EncoderKind, body: seq<byte>)
    returns (req: Request)
    ensures req.url == url && req.format == format && req.body == body
    ensures req.headers == headers
  {
    var copied: map<string, string> := map[];
    var pending := headers.Keys;
    while pending != {}
      invariant pending <= headers.Keys
      invariant copied.Keys == headers.Keys - pending
      invariant forall k :: k in copied ==> copied[k] == headers[k]
      decreases pending
    {
      var k :| k in pending;
      copied := copied[k := headers[k]];
      pending := pending - {k};
    }
    req := Request(url, copied, format, body);
  }

  class HttpTransport {
    var url: string
    var legacyURL: string
    var pool: EncoderPool
    var headers: map<string, string>
    var compatibilityMode: bool

    function State(): Config
      reads this
    {
      Config(url, legacyURL, pool.kind, headers, compatibilityMode)
    }

    /** Consistent state, and every encoder the active pool lent is back. */
    ghost predicate Valid()
      reads this, pool
    {
      Consistent(State()) && pool.size == EncoderPoolSize && pool.returned == pool.borrowed
    }

    /** A transport for the agent at `hostname`:`port`, on the current API. */
    constructor (hostname: string, port: string)
      ensures Valid() && fresh(pool)
      ensures State() == FreshConfig(hostname, port)
      ensures pool.size == EncoderPoolSize
    {
      var p, contentType := NewEncoderPool(DefaultEncoder, EncoderPoolSize);
      var defaultHeaders := map[ContentTypeHeader := contentType];
      url := PrimaryURL(hostname, port);
      legacyURL := LegacyURL(hostname, port);
      pool := p;
      headers := defaultHeaders;
      compatibilityMode := false;
      EndpointsDiffer(hostname, port);
    }

    /**
     * Sends one trace batch. The encoder is returned to the pool it was
     * borrowed from, which is the pool active at entry even when the send
     * downgrades and retries on the legacy pool.
     */
    method Send(encoded: EncoderKind -> Encoding, agent: Request -> Reply)
      returns (response: Option<Response>, err: Option<SendError>, sent: seq<Request>)
      requires Valid()
      modifies this, pool
      decreases if compatibilityMode then 0 else 1
      ensures Valid()
      ensures var x := Exchange(old(State()), encoded, agent);
              response == x.response && err == x.err && sent == x.sent && State() == x.final
      ensures old(pool).borrowed == old(pool.borrowed) + (if old(url) == "" then 0 else 1)
      ensures old(pool).returned == old(pool).borrowed
      ensures pool == old(pool) || (fresh(pool) && pool.borrowed <= 1)
      ensures compatibilityMode == old(compatibilityMode) ==> pool == old(pool)
    {
      if url == "" {
        return None, Some(EmptyURL), [];
      }
      var lender := pool;
      var encoder := lender.Borrow();
      match encoded(encoder.kind)
      case EncodeFailed(reason) =>
        lender.Return(encoder);
        return None, Some(EncodeError(reason)), [];
      case Encoded(body) =>
        var req := NewRequest(url, headers, encoder.kind, body);
        match agent(req)
        case NetworkError =>
          lender.Return(encoder);
          return Some(Response(0)), Some(TransportError), [req];
        case Status(code) =>
          if IsDowngradeTrigger(code) && !compatibilityMode {
            ApiDowngrade();
            var retryResponse, retryErr, retrySent := Send(encoded, agent);
            lender.Return(encoder);
            return retryResponse, retryErr, [req] + retrySent;
          }
          lender.Return(encoder);
          return Some(Response(code)), None, [req];
    }

    /** Sets one header for all later sends; nothing else changes. */
    method SetHeader(key: string, value: string)
      requires Valid()
      modifies this
      ensures Valid()
      ensures headers == old(headers)[key := value]
      ensures url == old(url) && legacyURL == old(legacyURL)
      ensures pool == old(pool) && compatibilityMode == old(compatibilityMode)
    {
      headers := headers[key := value];
    }

    /** Switches to a fresh pool of `kind` and announces its format in Content-Type. */
    method ChangeEncoder(kind: EncoderKind)
      modifies this
      ensures fresh(pool) && pool.kind == kind && pool.size == EncoderPoolSize
      ensures pool.borrowed == 0 && pool.returned == 0
      ensures headers == old(headers)[ContentTypeHeader := ContentType(kind)]
      ensures url == old(url) && legacyURL == old(legacyURL)
      ensures compatibilityMode == old(compatibilityMode)
    {
      var p, contentType := NewEncoderPool(kind, EncoderPoolSize);
      pool := p;
      headers := headers[ContentTypeHeader := contentType];
    }

    /** Moves to the legacy API: mode, URL, pool and Content-Type change in one step. */
    method ApiDowngrade()
      modifies this
      ensures Valid() && fresh(pool) && pool.borrowed == 0
      ensures State() == Downgraded(old(State()))
    {
      compatibilityMode := true;
      url := legacyURL;
      ChangeEncoder(LegacyEncoder);
    }
  }

  /** A transport for `hostname`:`port`, where an empty value selects the default. */
  method NewTransport(hostname: string, port: string) returns (t: HttpTransport)
    ensures fresh(t) && fresh(t.pool) && t.Valid()
    ensures t.State() == FreshConfig(if hostname == "" then DefaultHostname else hostname,
                                     if port == "" then DefaultPort else port)
  {
    var host, p := hostname, port;
    if host == "" {
      host := DefaultHostname;
    }
    if p == "" {
      p := DefaultPort;
    }
    t := new HttpTransport(host, p);
  }

  /** A transport for the agent at the default address. */
  method NewDefaultTransport() returns (t: HttpTransport)
    ensures fresh(t) && fresh(t.pool) && t.Valid()
    ensures t.State() == FreshConfig(DefaultHostname, DefaultPort)
    ensures t.url == "http://localhost:7777/v0.3/traces"
    ensures t.legacyURL == "http://localhost:7777/v0.2/traces"
  {
    t := new HttpTransport(DefaultHostname, DefaultPort);
    DefaultEndpoints();
  }

  /** The endpoints of the agent at the default address, spelled out. */
  lemma DefaultEndpoints()
    ensures PrimaryURL(DefaultHostname, DefaultPort) == "http://localhost:7777/v0.3/traces"
    ensures LegacyURL(DefaultHostname, DefaultPort) == "http://localhost:7777/v0.2/traces"
  {
  }
}
