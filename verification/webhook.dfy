/**
 * The request handler of api/webhook.js as a pure function.
 *
 * The handler checks the method, the shared secret and the signal, in that
 * order, then asks the quote service for the index price, builds a
 * single-leg `multi_leg_order` document for the broker and forwards it.
 * The two network calls are not performed here: their outcomes are
 * parameters, and the calls the handler would make are returned, in order,
 * with the status and body it answers with.
 */
module Webhook {
  import opened Wrappers
  import opened Strike
  import opened Decimal
  import opened Text
  import opened Expiry
  import opened Calendar

  /** The fields destructured from the request body; an absent field is `None`. */
  datatype Alert = Alert(
    secret: Option<string>,
    signal: Option<string>,
    symbol: Option<string>,
    quantity: Option<int>)

  /** An incoming request: its method and its body, `None` when there is none. */
  datatype Request = Request(httpMethod: string, body: Option<Alert>)

  /** The process environment: shared secret, forwarding URL and access token, each possibly unset. */
  datatype Config = Config(
    secret: Option<string>,
    webhookUrl: Option<string>,
    accessToken: Option<string>)

  /** A JavaScript number as `parseFloat` returns it, finite values taken as exact reals. */
  datatype Number = Finite(value: real) | NaN | Infinity | NegativeInfinity

  /** One option leg of the broker document; every value is text, as the broker expects. */
  datatype Leg = Leg(
    transactionType: string,
    orderType: string,
    quantity: string,
    exchange: string,
    symbol: string,
    instrument: string,
    productType: string,
    sortOrder: string,
    price: string,
    optionType: string,
    strikePrice: string,
    expiryDate: string)

  /** A target or stop-loss: distance in points and trailing step. */
  datatype Bracket = Bracket(points: int, trail: int)

  /** The document forwarded to the broker; an unset secret is left out of the JSON. */
  datatype Order = Order(
    secret: Option<string>,
    alertType: string,
    orderLegs: seq<Leg>,
    target: Bracket,
    stoploss: Bracket)

  /** An outbound call, with what it sends. */
  datatype Call =
    | QuoteRequest(accessToken: Option<string>, exchangeSegment: string, instrument: string)
    | PlaceOrder(url: Option<string>, accessToken: Option<string>, order: Order)

  /**
   * What the broker answered: its HTTP status, and its body read as JSON
   * (the parsed document, kept as its JSON text), or the parse error.
   */
  datatype BrokerReply = BrokerReply(httpStatus: int, json: Result<string>)

  /** Response bodies: plain text, `{ok:false, msg}`, `{ok:true, forwarded:true, dh}`, `{ok:false, error}`. */
  datatype Body = PlainText(text: string) | Refused(msg: string) | Relayed(dh: string) | Failed(error: string)

  /** The handler's answer and the outbound calls it made, in order. */
  datatype Response = Response(status: int, body: Body, calls: seq<Call>)

  const DEFAULT_SYMBOL: string := "NIFTY"
  const DEFAULT_QUANTITY: int := 1
  /** The quote request names the index itself, whatever the alert's symbol. */
  const QUOTE_INSTRUMENT: string := "NIFTY 50"
  const TARGET: Bracket := Bracket(45, 5)
  const STOPLOSS: Bracket := Bracket(15, 5)

  /** `req.body || {}`: a missing body has no fields. */
  function AlertOf(req: Request): Alert {
    req.body.GetOr(Alert(None, None, None, None))
  }

  /** The case-sensitive signal check `['BUY','SELL'].includes(signal)`. */
  predicate IsSignal(signal: Option<string>) {
    signal == Some("BUY") || signal == Some("SELL")
  }

  /** The signal check is exact: other spellings, surrounding blanks and a missing signal fail it. */
  lemma SignalCheckIsExact()
    ensures IsSignal(Some("BUY")) && IsSignal(Some("SELL"))
    ensures !IsSignal(Some("buy")) && !IsSignal(Some("Sell")) && !IsSignal(Some("BUY ")) && !IsSignal(None)
  {
  }

  /** `option_type`: a call for BUY, a put for anything else. */
  function OptionType(signal: string): (t: string)
    ensures t == "CE" || t == "PE"
    ensures t == "CE" <==> signal == "BUY"
  {
    if signal == "BUY" then "CE" else "PE"
  }

  /** `strike.toString()` for `strike = nearest50(spot)`; NaN and infinities pass through. */
  function StrikeText(spot: Number): (s: string)
    ensures spot.Finite? ==> Canonical(s) && ParseInt(s) == Some(Nearest50(spot.value))
    ensures spot.NaN? ==> s == "NaN"
    ensures spot.Infinity? ==> s == "Infinity"
    ensures spot.NegativeInfinity? ==> s == "-Infinity"
  {
    match spot
    case Finite(p) => IntToStringRoundTrip(Nearest50(p)); IntToString(Nearest50(p))
    case NaN => "NaN"
    case Infinity => "Infinity"
    case NegativeInfinity => "-Infinity"
  }

  /** The document for a validated alert, a spot price and an expiry day. */
  function BuildOrder(secret: Option<string>, signal: string, symbol: string, quantity: int,
                      spot: Number, expiry: int): (o: Order)
    ensures o.secret == secret && o.alertType == "multi_leg_order"
    ensures |o.orderLegs| == 1
    ensures var leg := o.orderLegs[0];
      && leg.transactionType == "B" && leg.orderType == "MKT" && leg.price == "0"
      && leg.exchange == "NSE" && leg.instrument == "OPT" && leg.productType == "I" && leg.sortOrder == "1"
      && (leg.optionType == "CE" <==> signal == "BUY")
      && (leg.optionType == "PE" <==> signal != "BUY")
      && Canonical(leg.quantity) && ParseInt(leg.quantity) == Some(quantity)
      && leg.strikePrice == StrikeText(spot)
      && (spot.Finite? ==> Canonical(leg.strikePrice) && ParseInt(leg.strikePrice) == Some(Nearest50(spot.value)))
      && leg.symbol == ToUpper(symbol)
      && leg.expiryDate == IsoDate(expiry)
    ensures o.target == TARGET && o.stoploss == STOPLOSS
  {
    IntToStringRoundTrip(quantity);
    Order(
      secret,
      "multi_leg_order",
      [Leg(
        "B",
        "MKT",
        IntToString(quantity),
        "NSE",
        ToUpper(symbol),
        "OPT",
        "I",
        "1",
        "0",
        OptionType(signal),
        StrikeText(spot),
        IsoDate(expiry))],
      TARGET,
      STOPLOSS)
  }

  /**
   * `handler`: `now` is the trading-zone clock when the expiry is computed,
   * `quote` the outcome of the quote fetch (its `parseFloat`ed `lastPrice`,
   * or what it threw), `reply` the outcome of the forward (what it threw if
   * the transport failed).
   */
  function Handle(req: Request, cfg: Config, now: LocalTime, quote: Result<Number>,
                  reply: Result<BrokerReply>): (r: Response)
    requires ValidTime(now)
    ensures r.status in {405, 401, 400, 500, 200}
    ensures r.status == 405 <==> req.httpMethod != "POST"
    ensures r.calls == [] <==> r.status in {405, 401, 400}
    ensures r.status == 200 <==> r.body.Relayed?
    ensures |r.calls| <= 2
  {
    if req.httpMethod != "POST" then
      Response(405, PlainText("POST only"), [])
    else
      var alert := AlertOf(req);
      if alert.secret != cfg.secret then
        Response(401, Refused("bad secret"), [])
      else if !IsSignal(alert.signal) then
        Response(400, Refused("signal must be BUY or SELL"), [])
      else
        var fetch := QuoteRequest(cfg.accessToken, "NSE_EQ", QUOTE_INSTRUMENT);
        match quote
        case Err(e) => Response(500, Failed(e), [fetch])
        case Ok(spot) =>
          var order := BuildOrder(cfg.secret, alert.signal.value, alert.symbol.GetOr(DEFAULT_SYMBOL),
                                  alert.quantity.GetOr(DEFAULT_QUANTITY), spot, ExpiryDay(now));
          var forward := PlaceOrder(cfg.webhookUrl, cfg.accessToken, order);
          match reply
          case Err(e) => Response(500, Failed(e), [fetch, forward])
          case Ok(answer) =>
            match answer.json
            case Err(e) => Response(500, Failed(e), [fetch, forward])
            case Ok(dh) => Response(200, Relayed(dh), [fetch, forward])
  }

  /** The request passes all three checks. */
  predicate Accepted(req: Request, cfg: Config) {
    req.httpMethod == "POST" && AlertOf(req).secret == cfg.secret && IsSignal(AlertOf(req).signal)
  }

  /** A method other than POST is refused with 405 before the body is looked at. */
  lemma NonPostIs405(req: Request, cfg: Config, now: LocalTime, quote: Result<Number>, reply: Result<BrokerReply>)
    requires ValidTime(now) && req.httpMethod != "POST"
    ensures Handle(req, cfg, now, quote, reply) == Response(405, PlainText("POST only"), [])
  {
  }

  /** A POST whose secret differs from the configured one gets 401, whatever its signal. */
  lemma BadSecretIs401(req: Request, cfg: Config, now: LocalTime, quote: Result<Number>, reply: Result<BrokerReply>)
    requires ValidTime(now) && req.httpMethod == "POST" && AlertOf(req).secret != cfg.secret
    ensures Handle(req, cfg, now, quote, reply) == Response(401, Refused("bad secret"), [])
  {
  }

  /** With the right secret, a signal other than exactly BUY or SELL gets 400. */
  lemma BadSignalIs400(req: Request, cfg: Config, now: LocalTime, quote: Result<Number>, reply: Result<BrokerReply>)
    requires ValidTime(now) && req.httpMethod == "POST" && AlertOf(req).secret == cfg.secret
    requires !IsSignal(AlertOf(req).signal)
    ensures Handle(req, cfg, now, quote, reply) == Response(400, Refused("signal must be BUY or SELL"), [])
  {
  }

  /** Every status, and exactly when it is given. */
  lemma StatusDecision(req: Request, cfg: Config, now: LocalTime, quote: Result<Number>, reply: Result<BrokerReply>)
    requires ValidTime(now)
    ensures var r := Handle(req, cfg, now, quote, reply);
      && (r.status == 401 <==> req.httpMethod == "POST" && AlertOf(req).secret != cfg.secret)
      && (r.status == 400 <==> req.httpMethod == "POST" && AlertOf(req).secret == cfg.secret
                               && !IsSignal(AlertOf(req).signal))
      && (r.status == 200 <==> Accepted(req, cfg) && quote.Ok? && reply.Ok? && reply.value.json.Ok?)
      && (r.status == 500 <==> Accepted(req, cfg) && (quote.Err? || reply.Err? || reply.value.json.Err?))
  {
  }

  /**
   * The calls made: none for a refused request, the quote fetch alone when
   * it fails, otherwise the quote fetch and then the forward. The quote
   * always names the index, whatever the alert's symbol, and both calls
   * carry the configured access token.
   */
  lemma CallsMade(req: Request, cfg: Config, now: LocalTime, quote: Result<Number>, reply: Result<BrokerReply>)
    requires ValidTime(now)
    ensures var r := Handle(req, cfg, now, quote, reply);
      && (r.calls != [] <==> Accepted(req, cfg))
      && (|r.calls| == 2 <==> Accepted(req, cfg) && quote.Ok?)
      && (r.calls != [] ==> r.calls[0] == QuoteRequest(cfg.accessToken, "NSE_EQ", "NIFTY 50"))
      && (|r.calls| == 2 ==> r.calls[1].PlaceOrder? && r.calls[1].url == cfg.webhookUrl)
      && (|r.calls| == 2 ==> r.calls[1].accessToken == cfg.accessToken)
  {
  }

  /** Every failure inside the forwarding step surfaces as 500 with the thrown error's text. */
  lemma FailuresAre500(req: Request, cfg: Config, now: LocalTime, quote: Result<Number>, reply: Result<BrokerReply>)
    requires ValidTime(now) && Accepted(req, cfg)
    ensures quote.Err? ==> Handle(req, cfg, now, quote, reply).body == Failed(quote.message)
    ensures quote.Ok? && reply.Err? ==> Handle(req, cfg, now, quote, reply).body == Failed(reply.message)
    ensures quote.Ok? && reply.Ok? && reply.value.json.Err? ==>
              Handle(req, cfg, now, quote, reply).body == Failed(reply.value.json.message)
  {
  }

  /** Success relays the broker's parsed answer verbatim, and the broker's own status never matters. */
  lemma BrokerStatusIgnored(req: Request, cfg: Config, now: LocalTime, quote: Result<Number>,
                            s1: int, s2: int, json: Result<string>)
    requires ValidTime(now)
    ensures Handle(req, cfg, now, quote, Ok(BrokerReply(s1, json)))
         == Handle(req, cfg, now, quote, Ok(BrokerReply(s2, json)))
    ensures Accepted(req, cfg) && quote.Ok? && json.Ok? ==>
              Handle(req, cfg, now, quote, Ok(BrokerReply(s1, json))) == Response(200, Relayed(json.value),
                Handle(req, cfg, now, quote, Ok(BrokerReply(s1, json))).calls)
  {
  }

  /** The document forwarded for an accepted alert. */
  lemma ForwardedOrder(req: Request, cfg: Config, now: LocalTime, quote: Result<Number>, reply: Result<BrokerReply>)
    requires ValidTime(now) && Accepted(req, cfg) && quote.Ok?
    ensures var r := Handle(req, cfg, now, quote, reply);
      var alert := AlertOf(req);
      var o := r.calls[1].order;
      var leg := o.orderLegs[0];
      && |r.calls| == 2 && r.calls[1].PlaceOrder?
      && o.secret == cfg.secret && o.alertType == "multi_leg_order"
      && |o.orderLegs| == 1
      && (leg.optionType == "CE" <==> alert.signal == Some("BUY"))
      && (leg.optionType == "PE" <==> alert.signal == Some("SELL"))
      && leg.transactionType == "B" && leg.orderType == "MKT" && leg.price == "0"
      && leg.exchange == "NSE" && leg.instrument == "OPT" && leg.productType == "I" && leg.sortOrder == "1"
      && Canonical(leg.quantity) && ParseInt(leg.quantity) == Some(alert.quantity.GetOr(1))
      && leg.symbol == ToUpper(alert.symbol.GetOr("NIFTY"))
      && (quote.value.Finite? ==> Canonical(leg.strikePrice)
                                  && ParseInt(leg.strikePrice) == Some(Nearest50(quote.value.value)))
      && leg.expiryDate == IsoDate(ExpiryDay(now))
      && o.target == Bracket(45, 5) && o.stoploss == Bracket(15, 5)
  {
  }

  /** The strike in a forwarded order is a multiple of 50 within 25 points of the spot. */
  lemma ForwardedStrike(req: Request, cfg: Config, now: LocalTime, p: real, reply: Result<BrokerReply>)
    requires ValidTime(now) && Accepted(req, cfg)
    ensures var leg := Handle(req, cfg, now, Ok(Finite(p)), reply).calls[1].order.orderLegs[0];
      exists k :: ParseInt(leg.strikePrice) == Some(k) && k % 50 == 0 && (k - 25) as real <= p < (k + 25) as real
  {
    var leg := Handle(req, cfg, now, Ok(Finite(p)), reply).calls[1].order.orderLegs[0];
    assert ParseInt(leg.strikePrice) == Some(Nearest50(p));
  }

  /**
   * A spot price that is not a finite number is not rejected: the order
   * still goes out, with the strike text "NaN", "Infinity" or "-Infinity".
   */
  lemma NonFiniteSpotStillForwarded(req: Request, cfg: Config, now: LocalTime, spot: Number,
                                    reply: Result<BrokerReply>)
    requires ValidTime(now) && Accepted(req, cfg) && !spot.Finite?
    ensures var r := Handle(req, cfg, now, Ok(spot), reply);
      var text := r.calls[1].order.orderLegs[0].strikePrice;
      && |r.calls| == 2
      && text == StrikeText(spot)
      && text in {"NaN", "Infinity", "-Infinity"}
      && ParseInt(text) == None
  {
  }

  /**
   * A POST without a body has no fields: it makes no call, and is refused
   * with 401 when a secret is configured, else with 400 for the missing signal.
   */
  lemma MissingBodyRefused(cfg: Config, now: LocalTime, quote: Result<Number>, reply: Result<BrokerReply>)
    requires ValidTime(now)
    ensures var r := Handle(Request("POST", None), cfg, now, quote, reply);
      && r.calls == []
      && r.status == (if cfg.secret.Some? then 401 else 400)
  {
  }

  /**
   * When no secret is configured, a body without a secret passes the check:
   * both sides are undefined.
   */
  lemma UnsetSecretAdmitsMissingSecret(alert: Alert, now: LocalTime, quote: Result<Number>,
                                       reply: Result<BrokerReply>, url: Option<string>, token: Option<string>)
    requires ValidTime(now) && alert.secret == None && IsSignal(alert.signal)
    ensures Handle(Request("POST", Some(alert)), Config(None, url, token), now, quote, reply).status !in {401, 400, 405}
  {
  }

  /**
   * The end-to-end example: a BUY for 2 lots at a quote of 17485 on
   * Tuesday 2026-10-13 at 10:00 goes out as an at-the-money call at 17500
   * expiring on Thursday 2026-10-15, and the broker's answer is relayed.
   */
  lemma EndToEndExample(dh: string, brokerStatus: int)
    ensures var cfg := Config(Some("VALID"), Some("https://broker.example/orders"), Some("token"));
      var req := Request("POST", Some(Alert(Some("VALID"), Some("BUY"), Some("NIFTY"), Some(2))));
      var r := Handle(req, cfg, LocalTime(20739, 10 * 3600), Ok(Finite(17485.0)),
                      Ok(BrokerReply(brokerStatus, Ok(dh))));
      && r.status == 200 && r.body == Relayed(dh) && |r.calls| == 2
      && r.calls[1].order.orderLegs[0].strikePrice == "17500"
      && r.calls[1].order.orderLegs[0].optionType == "CE"
      && r.calls[1].order.orderLegs[0].quantity == "2"
      && r.calls[1].order.orderLegs[0].expiryDate == "2026-10-15"
  {
    var now := LocalTime(20739, 10 * 3600);
    OtherWeekday(now);
    assert ExpiryDay(now) == 20741;
    IsoDateExamples();
    Nearest50Examples();
    IntToStringExamples();
    var cfg := Config(Some("VALID"), Some("https://broker.example/orders"), Some("token"));
    var req := Request("POST", Some(Alert(Some("VALID"), Some("BUY"), Some("NIFTY"), Some(2))));
    var order := BuildOrder(Some("VALID"), "BUY", "NIFTY", 2, Finite(17485.0), 20741);
    var leg := order.orderLegs[0];
    assert leg.strikePrice == StrikeText(Finite(17485.0)) == "17500";
    assert leg.quantity == IntToString(2) == "2";
    assert leg.expiryDate == IsoDate(20741) == "2026-10-15";
    assert leg.optionType == "CE";
    var r := Handle(req, cfg, now, Ok(Finite(17485.0)), Ok(BrokerReply(brokerStatus, Ok(dh))));
    assert r.calls[1].order == order;
  }
}
