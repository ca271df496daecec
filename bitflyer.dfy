/** The bitFlyer client: request checking, child-order requests, the API-call
    counters kept against the venue's rate limits, the position aggregate and
    the shutdown protocol (cancel all, wait, cancel all, wait, fetch the
    position, flatten it when at or above the minimum order quantity). */
module Bitflyer {
  import opened Wrappers
  import opened Text
  import opened Http
  import opened Liquidation
  import opened Base

  /** One entry of `getpositions`' list. */
  datatype PositionEntry = PositionEntry(side: string, size: real)

  /** The aggregate `fetch_my_position` reports. */
  datatype Position = Position(side: string, size: real)

  /** The accepted-order reply of `sendchildorder`. */
  datatype OrderAck = OrderAck(childOrderAcceptanceId: string)

  /** A request the client sends: its path and its JSON body. */
  datatype Request = Request(url: string, body: map<string, Json>)

  /** Expiry (in minutes) and time-in-force of a child order unless given. */
  const DefaultMinuteToExpire: int := 43200
  const DefaultTimeInForce: string := "GTC"
  /** The endpoint every order of this exchange is posted to. */
  const SendChildOrderPath: string := "/v1/me/sendchildorder"

  /** The status test of `_replace_order` and `_fetch_position`: a non-2xx
      status raises, with the body for a 4xx and "Internal Server Error" for
      anything else. */
  function CheckResponse<T>(r: HttpResponse<T>): (res: Result<T, Error>)
    ensures res.Success? <==> IsSuccessStatus(r.status)
    ensures res.Success? ==> res.value == r.json
    ensures !IsSuccessStatus(r.status) && IsClientErrorStatus(r.status) ==>
      res == Failure(RequestException(IntToString(r.status) + " Error " + r.text))
    ensures !IsSuccessStatus(r.status) && !IsClientErrorStatus(r.status) ==>
      res == Failure(RequestException(IntToString(r.status) + " Internal Server Error"))
  {
    if IsSuccessStatus(r.status) then Success(r.json)
    else if IsClientErrorStatus(r.status) then Failure(RequestException(IntToString(r.status) + " Error " + r.text))
    else Failure(RequestException(IntToString(r.status) + " Internal Server Error"))
  }

  /** On real HTTP status codes: 2xx is accepted, 4xx reports the body, and
      1xx, 3xx and 5xx report an internal server error. */
  lemma CheckOnHttpStatuses<T>(r: HttpResponse<T>)
    requires 100 <= r.status <= 999
    ensures CheckResponse(r).Success? <==> 200 <= r.status <= 299
    ensures 400 <= r.status <= 499 ==>
      CheckResponse(r) == Failure(RequestException(IntToString(r.status) + " Error " + r.text))
    ensures !(200 <= r.status <= 299) && !(400 <= r.status <= 499) ==>
      CheckResponse(r) == Failure(RequestException(IntToString(r.status) + " Internal Server Error"))
  {
    SuccessStatusRange(r.status);
  }

  /** The sum of the entries' sizes, left to right. */
  function SumSizes(entries: seq<PositionEntry>): (r: real)
    ensures (forall i :: 0 <= i < |entries| ==> entries[i].size >= 0.0) ==> r >= 0.0
  {
    if entries == [] then 0.0 else SumSizes(entries[..|entries| - 1]) + entries[|entries| - 1].size
  }

  /** Summing is additive over concatenation. */
  lemma {:induction false} SumSizesAppend(a: seq<PositionEntry>, b: seq<PositionEntry>)
    decreases |b|
    ensures SumSizes(a + b) == SumSizes(a) + SumSizes(b)
  {
    if b == [] {
      assert a + b == a;
    } else {
      var c := a + b;
      assert c[..|c| - 1] == a + b[..|b| - 1];
      SumSizesAppend(a, b[..|b| - 1]);
    }
  }

  /** Entries that all have non-negative sizes sum to at least each of them. */
  lemma {:induction false} SumSizesBounds(entries: seq<PositionEntry>)
    requires forall i :: 0 <= i < |entries| ==> entries[i].size >= 0.0
    ensures SumSizes(entries) >= 0.0
    ensures forall i :: 0 <= i < |entries| ==> SumSizes(entries) >= entries[i].size
  {
    if entries != [] {
      var init := entries[..|entries| - 1];
      SumSizesBounds(init);
      forall i | 0 <= i < |entries|
        ensures SumSizes(entries) >= entries[i].size
      {
        if i < |entries| - 1 {
          assert entries[i] == init[i];
        }
      }
    }
  }

  /** `fetch_my_position`: nothing (`{}`) for an empty list, otherwise the
      first entry's side with the sum of all sizes. */
  function FetchMyPosition(entries: seq<PositionEntry>): (r: Option<Position>)
    ensures r.None? <==> entries == []
    ensures r.Some? ==> r.value.side == entries[0].side && r.value.size == SumSizes(entries)
  {
    if entries == [] then None else Some(Position(entries[0].side, SumSizes(entries)))
  }

  /** A single entry is reported as it is, and a further entry adds its size
      while keeping the first entry's side. */
  lemma FetchMyPositionGrows(entries: seq<PositionEntry>, e: PositionEntry)
    ensures FetchMyPosition([e]) == Some(Position(e.side, e.size))
    ensures entries != [] ==>
      FetchMyPosition(entries + [e]) == Some(Position(entries[0].side, FetchMyPosition(entries).value.size + e.size))
  {
    assert [e][..0] == [];
    assert SumSizes([e]) == SumSizes([]) + e.size;
    var c := entries + [e];
    assert c[..|c| - 1] == entries;
  }

  /** The absolute value Python's `abs` computes. */
  function Abs(x: real): (r: real)
    ensures r >= 0.0 && (r == x || r == -x)
  {
    if x < 0.0 then -x else x
  }

  /** The body of a child order: product, type, side, size, expiry and
      time in force, with the price exactly for LIMIT orders. */
  function ChildOrder(symbol: string, side: string, size: real, orderType: string, price: Option<real>,
                      minuteToExpire: int, timeInForce: string): (body: map<string, Json>)
    ensures body.Keys == {"product_code", "child_order_type", "side", "size", "minute_to_expire", "time_in_force"}
      + (if orderType == "LIMIT" then {"price"} else {})
    ensures body["product_code"] == JStr(symbol) && body["child_order_type"] == JStr(orderType)
    ensures body["side"] == JStr(side) && body["size"] == JNum(size)
    ensures body["minute_to_expire"] == JNum(minuteToExpire as real) && body["time_in_force"] == JStr(timeInForce)
    ensures "price" in body ==> body["price"] == (if price.Some? then JNum(price.value) else JNull)
  {
    var base := map[
      "product_code" := JStr(symbol),
      "child_order_type" := JStr(orderType),
      "side" := JStr(side),
      "size" := JNum(size),
      "minute_to_expire" := JNum(minuteToExpire as real),
      "time_in_force" := JStr(timeInForce)
    ];
    if orderType == "LIMIT" then base["price" := if price.Some? then JNum(price.value) else JNull] else base
  }

  /** Calls that count against the private-API limit (500 per 5 minutes). */
  function PrivateCalls(actions: seq<Action>): (n: nat)
    ensures n <= |actions|
  {
    if actions == [] then 0
    else (if actions[0].CancelAllOrders? || actions[0].CancelOrder? || actions[0].FetchPosition? || actions[0].PlaceOrder?
          then 1 else 0) + PrivateCalls(actions[1..])
  }

  /** Calls that count against the order limit (300 per 5 minutes). */
  function OrderCalls(actions: seq<Action>): (n: nat)
    ensures n <= PrivateCalls(actions)
  {
    if actions == [] then 0
    else (if actions[0].CancelAllOrders? || actions[0].PlaceOrder? then 1 else 0) + OrderCalls(actions[1..])
  }

  lemma {:induction false} CallsAppend(a: seq<Action>, b: seq<Action>)
    ensures PrivateCalls(a + b) == PrivateCalls(a) + PrivateCalls(b)
    ensures OrderCalls(a + b) == OrderCalls(a) + OrderCalls(b)
  {
    if a == [] {
      assert a + b == b;
    } else {
      assert (a + b)[1..] == a[1..] + b;
      CallsAppend(a[1..], b);
    }
  }

  /** What the gateway answers during one shutdown: the position list, the
      flatten order's reply, and the clock reading taken before ordering. */
  datatype Replies = Replies(positions: HttpResponse<seq<PositionEntry>>, order: HttpResponse<OrderAck>, clock: real)

  /** The calls made before any flattening: cancel, wait 5 s, cancel, wait 5 s, fetch. */
  const ShutdownPrefix: seq<Action> := [CancelAllOrders, Sleep(5.0), CancelAllOrders, Sleep(5.0), FetchPosition]

  /** Flattening a fetched position `p`: below moq (in absolute size) nothing
      happens; otherwise a market order on the other side for its size, then a
      record — which carries the side under "size" and the size under
      "current_position", as the client writes it. */
  function FlattenPosition(p: Position, moq: real, g: Replies): (r: Run)
    ensures forall a :: a in r.actions ==> a.PlaceOrder? || a.WriteOrderHistory?
  {
    if Abs(p.size) >= moq then
      var order := PlaceOrder(SendChildOrderPath, "MARKET", Opposite(p.side), p.size);
      match CheckResponse(g.order)
      case Failure(e) => Run([order], Fail(e))
      case Success(ack) =>
        Run([order, WriteOrderHistory(StopRecord(ack.childOrderAcceptanceId, g.clock, JStr(p.side), JNum(p.size)))], Pass)
    else Run([], Pass)
  }

  /** `_cancel_and_liquidate` as written: an empty position list is reported
      as `{}`, whose missing "size" raises a KeyError. */
  function CancelAndLiquidateRunAsWritten(moq: real, g: Replies): (r: Run)
    ensures CheckResponse(g.positions) == Success([]) ==> r == Run(ShutdownPrefix, Fail(KeyError("size")))
  {
    match CheckResponse(g.positions)
    case Failure(e) => Run(ShutdownPrefix, Fail(e))
    case Success(entries) =>
      match FetchMyPosition(entries)
      case None => Run(ShutdownPrefix, Fail(KeyError("size")))
      case Some(p) => Then(ShutdownPrefix, FlattenPosition(p, moq, g))
  }

  /** `_cancel_and_liquidate` with the empty position read as "nothing to flatten". */
  function CancelAndLiquidateRun(moq: real, g: Replies): (r: Run)
    ensures CheckResponse(g.positions) == Success([]) ==> r == Run(ShutdownPrefix, Pass)
  {
    match CheckResponse(g.positions)
    case Failure(e) => Run(ShutdownPrefix, Fail(e))
    case Success(entries) =>
      match FetchMyPosition(entries)
      case None => Run(ShutdownPrefix, Pass)
      case Some(p) => Then(ShutdownPrefix, FlattenPosition(p, moq, g))
  }

  /** `stop` as written: liquidation, then closing the history files. */
  function StopRunAsWritten(g: Replies): (r: Run)
    ensures r.outcome == CancelAndLiquidateRunAsWritten(DefaultMoq, g).outcome
    ensures r.outcome.Pass? ==> |r.actions| > 0 && r.actions[|r.actions| - 1] == CloseOrderHistoryFiles
  {
    var r := CancelAndLiquidateRunAsWritten(DefaultMoq, g);
    if r.outcome.Pass? then Run(r.actions + [CloseOrderHistoryFiles], Pass) else r
  }

  /** `stop` with the corrected liquidation. */
  function StopRun(g: Replies): (r: Run)
    ensures r.outcome == CancelAndLiquidateRun(DefaultMoq, g).outcome
    ensures r.outcome.Pass? ==> |r.actions| > 0 && r.actions[|r.actions| - 1] == CloseOrderHistoryFiles
  {
    var r := CancelAndLiquidateRun(DefaultMoq, g);
    if r.outcome.Pass? then Run(r.actions + [CloseOrderHistoryFiles], Pass) else r
  }

  /** As written, a stop with no open position raises before closing the
      history files; corrected, it completes and closes them. */
  lemma FlatStopNeverCloses(g: Replies)
    requires g.positions.status == 200 && g.positions.json == []
    ensures StopRunAsWritten(g) == Run(ShutdownPrefix, Fail(KeyError("size")))
    ensures CloseOrderHistoryFiles !in StopRunAsWritten(g).actions
    ensures StopRun(g) == Run(ShutdownPrefix + [CloseOrderHistoryFiles], Pass)
  {
    SuccessStatusRange(200);
  }

  /** Both liquidations open with cancel, wait, cancel, wait, fetch and never
      close the history files; a stop closes them exactly when its
      liquidation completed, as its last step. */
  lemma StopClosesAfterLiquidation(moq: real, g: Replies)
    ensures var r := CancelAndLiquidateRun(moq, g);
      && |r.actions| >= 5 && r.actions[..5] == ShutdownPrefix
      && CloseOrderHistoryFiles !in r.actions
    ensures var w := CancelAndLiquidateRunAsWritten(moq, g);
      && |w.actions| >= 5 && w.actions[..5] == ShutdownPrefix
      && CloseOrderHistoryFiles !in w.actions
    ensures var s, r := StopRun(g), CancelAndLiquidateRun(DefaultMoq, g);
      && (CloseOrderHistoryFiles in s.actions <==> r.outcome.Pass?)
      && (r.outcome.Pass? ==> s.actions == r.actions + [CloseOrderHistoryFiles])
    ensures var s, w := StopRunAsWritten(g), CancelAndLiquidateRunAsWritten(DefaultMoq, g);
      && (CloseOrderHistoryFiles in s.actions <==> w.outcome.Pass?)
      && (w.outcome.Pass? ==> s.actions == w.actions + [CloseOrderHistoryFiles])
  {
    ShutdownTail(moq, g);
    ShutdownTail(DefaultMoq, g);
  }

  /** After the fetch, a shutdown only places an order and writes its record. */
  lemma ShutdownTail(moq: real, g: Replies)
    ensures var r := CancelAndLiquidateRun(moq, g);
      && |r.actions| >= 5 && r.actions[..5] == ShutdownPrefix
      && forall a :: a in r.actions[5..] ==> a.PlaceOrder? || a.WriteOrderHistory?
    ensures var w := CancelAndLiquidateRunAsWritten(moq, g);
      && |w.actions| >= 5 && w.actions[..5] == ShutdownPrefix
      && forall a :: a in w.actions[5..] ==> a.PlaceOrder? || a.WriteOrderHistory?
  {
    if CheckResponse(g.positions).Success? && FetchMyPosition(g.positions.json).Some? {
      var f := FlattenPosition(FetchMyPosition(g.positions.json).value, moq, g);
      assert CancelAndLiquidateRun(moq, g).actions == ShutdownPrefix + f.actions;
      assert CancelAndLiquidateRunAsWritten(moq, g).actions == ShutdownPrefix + f.actions;
      assert (ShutdownPrefix + f.actions)[5..] == f.actions;
    }
  }

  /** The two liquidations differ only when the position list is empty. */
  lemma CorrectionOnlyForFlat(moq: real, g: Replies)
    ensures CancelAndLiquidateRun(moq, g) != CancelAndLiquidateRunAsWritten(moq, g) <==>
      CheckResponse(g.positions) == Success([])
  {
  }

  /** The shutdown always opens with cancel, wait, cancel, wait, fetch; it
      then places at most one order — the opposite side of the fetched
      position, for its size, exactly when that size is at least moq in
      absolute value — and writes a record right after it when accepted, the
      record naming the accepted order's id, the clock reading, the position's
      side and its size. */
  lemma FlattenDecision(moq: real, g: Replies)
    ensures var r := CancelAndLiquidateRun(moq, g);
      && r.actions[..5] == ShutdownPrefix
      && |Orders(r.actions)| <= 1
      && (|Orders(r.actions)| == 1 <==>
            CheckResponse(g.positions).Success? && FetchMyPosition(g.positions.json).Some?
            && Abs(FetchMyPosition(g.positions.json).value.size) >= moq)
      && (|Orders(r.actions)| == 1 ==>
            var p := FetchMyPosition(g.positions.json).value;
            Orders(r.actions) == [PlaceOrder(SendChildOrderPath, "MARKET", Opposite(p.side), p.size)]
            && r.actions[5] == PlaceOrder(SendChildOrderPath, "MARKET", Opposite(p.side), p.size))
      && (|Writes(r.actions)| == 1 <==> |Orders(r.actions)| == 1 && r.outcome.Pass?)
      && (|Writes(r.actions)| == 1 ==>
            var p := FetchMyPosition(g.positions.json).value;
            && CheckResponse(g.order).Success?
            && Writes(r.actions) == [StopRecord(CheckResponse(g.order).value.childOrderAcceptanceId, g.clock, JStr(p.side), JNum(p.size))])
      && (r.outcome.Fail? ==> CheckResponse(g.positions).Failure? || !IsSuccessStatus(g.order.status))
  {
    var r := CancelAndLiquidateRun(moq, g);
    assert Orders(ShutdownPrefix) == [] && Writes(ShutdownPrefix) == [];
    if CheckResponse(g.positions).Success? && FetchMyPosition(g.positions.json).Some? {
      var p := FetchMyPosition(g.positions.json).value;
      var f := FlattenPosition(p, moq, g);
      FlattenPositionEffects(p, moq, g);
      OrdersAppend(ShutdownPrefix, f.actions);
      WritesAppend(ShutdownPrefix, f.actions);
      assert r == Run(ShutdownPrefix + f.actions, f.outcome);
    } else {
      assert r.actions == ShutdownPrefix;
    }
  }

  /** Flattening one position places its closing order first, when it is at
      least moq in absolute size, and records it only when the order is accepted. */
  lemma FlattenPositionEffects(p: Position, moq: real, g: Replies)
    ensures var f := FlattenPosition(p, moq, g);
      && Orders(f.actions) == (if Abs(p.size) >= moq then [PlaceOrder(SendChildOrderPath, "MARKET", Opposite(p.side), p.size)] else [])
      && (f.actions != [] ==> f.actions[0] == PlaceOrder(SendChildOrderPath, "MARKET", Opposite(p.side), p.size))
      && |Writes(f.actions)| == (if Abs(p.size) >= moq && f.outcome.Pass? then 1 else 0)
      && (|Writes(f.actions)| == 1 ==>
            && CheckResponse(g.order).Success?
            && Writes(f.actions) == [StopRecord(CheckResponse(g.order).value.childOrderAcceptanceId, g.clock, JStr(p.side), JNum(p.size))])
      && (f.outcome.Fail? ==> !IsSuccessStatus(g.order.status))
  {
    var f := FlattenPosition(p, moq, g);
    if |f.actions| == 2 {
      assert Orders(f.actions) == [f.actions[0]] && Writes(f.actions) == [f.actions[1].record];
    } else if |f.actions| == 1 {
      assert Orders(f.actions) == [f.actions[0]] && Writes(f.actions) == [];
    }
  }

  /** One shutdown spends three private calls plus one per order placed, and
      two order calls plus one per order placed. */
  lemma ShutdownCallBudget(moq: real, g: Replies)
    ensures var r := CancelAndLiquidateRun(moq, g);
      && PrivateCalls(r.actions) == 3 + |Orders(r.actions)|
      && OrderCalls(r.actions) == 2 + |Orders(r.actions)|
  {
    var r := CancelAndLiquidateRun(moq, g);
    ShutdownTail(moq, g);
    var f := r.actions[5..];
    assert r.actions == ShutdownPrefix + f;
    CallsAppend(ShutdownPrefix, f);
    OrdersAppend(ShutdownPrefix, f);
    PrefixCalls();
    OrderOrRecordCalls(f);
  }

  /** The cancels and the fetch before flattening: three private calls, two of them order calls. */
  lemma PrefixCalls()
    ensures Orders(ShutdownPrefix) == []
    ensures PrivateCalls(ShutdownPrefix) == 3 && OrderCalls(ShutdownPrefix) == 2
  {
    var p := ShutdownPrefix;
    assert p[1..] == [Sleep(5.0), CancelAllOrders, Sleep(5.0), FetchPosition];
    assert p[1..][1..] == [CancelAllOrders, Sleep(5.0), FetchPosition];
    assert p[1..][1..][1..] == [Sleep(5.0), FetchPosition];
    assert p[1..][1..][1..][1..] == [FetchPosition];
    assert p[1..][1..][1..][1..][1..] == [];
  }

  /** In a run of orders and records, every order is one private and one order call. */
  lemma {:induction false} OrderOrRecordCalls(f: seq<Action>)
    requires forall a :: a in f ==> a.PlaceOrder? || a.WriteOrderHistory?
    ensures PrivateCalls(f) == |Orders(f)| && OrderCalls(f) == |Orders(f)|
  {
    if f != [] {
      assert forall a :: a in f[1..] ==> a in f;
      OrderOrRecordCalls(f[1..]);
    }
  }

  /** The bitFlyer client. */
  class BitflyerClient {
    const bot: BotBase
    const symbol: string
    /** The gateway calls, sleeps and audit writes made so far. */
    var trace: seq<Action>
    var apiCallCountFromPrivate: nat
    var apiCallCountFromOrder: nat

    /** The counters count exactly the private and order calls made so far. */
    ghost predicate Valid()
      reads this
    {
      apiCallCountFromPrivate == PrivateCalls(trace) && apiCallCountFromOrder == OrderCalls(trace)
    }

    constructor (bot: BotBase, symbol: string)
      modifies bot
      ensures Valid()
      ensures this.bot == bot && this.symbol == symbol && trace == []
      ensures apiCallCountFromPrivate == 0 && apiCallCountFromOrder == 0
      ensures bot.columns == OrderHistoryColumns && bot.stopFlag == old(bot.stopFlag)
      ensures bot.infoLog == old(bot.infoLog)
    {
      this.bot := bot;
      this.symbol := symbol;
      trace := [];
      apiCallCountFromPrivate := 0;
      apiCallCountFromOrder := 0;
      new;
      bot.columns := OrderHistoryColumns;
    }

    /** Appends `a` to the trace and keeps the counters in step with it. */
    method Record(a: Action)
      requires Valid()
      modifies this
      ensures Valid() && trace == old(trace) + [a]
      ensures apiCallCountFromPrivate == old(apiCallCountFromPrivate) + PrivateCalls([a])
      ensures apiCallCountFromOrder == old(apiCallCountFromOrder) + OrderCalls([a])
    {
      CallsAppend(trace, [a]);
      trace := trace + [a];
      apiCallCountFromPrivate := apiCallCountFromPrivate + PrivateCalls([a]);
      apiCallCountFromOrder := apiCallCountFromOrder + OrderCalls([a]);
    }

    /** `_replace_order`: posts a child order, counts it against both limits
        whatever the answer, then checks the status. */
    method ReplaceOrder(side: string, size: real, orderType: string, price: Option<real>,
                        minuteToExpire: int, timeInForce: string, response: HttpResponse<OrderAck>)
      returns (req: Request, r: Result<OrderAck, Error>)
      requires Valid()
      modifies this
      ensures Valid() && trace == old(trace) + [PlaceOrder(SendChildOrderPath, orderType, side, size)]
      ensures apiCallCountFromPrivate == old(apiCallCountFromPrivate) + 1
      ensures apiCallCountFromOrder == old(apiCallCountFromOrder) + 1
      ensures req == Request("/v1/me/sendchildorder", ChildOrder(symbol, side, size, orderType, price, minuteToExpire, timeInForce))
      ensures r == CheckResponse(response)
    {
      req := Request("/v1/me/sendchildorder", ChildOrder(symbol, side, size, orderType, price, minuteToExpire, timeInForce));
      Record(PlaceOrder(SendChildOrderPath, orderType, side, size));
      r := CheckResponse(response);
    }

    /** `market_order`: a MARKET child order with the default expiry and time in force. */
    method MarketOrder(side: string, size: real, response: HttpResponse<OrderAck>)
      returns (req: Request, r: Result<OrderAck, Error>)
      requires Valid()
      modifies this
      ensures Valid() && trace == old(trace) + [PlaceOrder(SendChildOrderPath, "MARKET", side, size)]
      ensures apiCallCountFromPrivate == old(apiCallCountFromPrivate) + 1
      ensures apiCallCountFromOrder == old(apiCallCountFromOrder) + 1
      ensures req == Request("/v1/me/sendchildorder", ChildOrder(symbol, side, size, "MARKET", None, 43200, "GTC"))
      ensures "price" !in req.body
      ensures r == CheckResponse(response)
    {
      req, r := ReplaceOrder(side, size, "MARKET", None, DefaultMinuteToExpire, DefaultTimeInForce, response);
    }

    /** `limit_order`: a LIMIT child order at `price`. */
    method LimitOrder(side: string, size: real, price: real, minuteToExpire: int, timeInForce: string,
                      response: HttpResponse<OrderAck>)
      returns (req: Request, r: Result<OrderAck, Error>)
      requires Valid()
      modifies this
      ensures Valid() && trace == old(trace) + [PlaceOrder(SendChildOrderPath, "LIMIT", side, size)]
      ensures apiCallCountFromPrivate == old(apiCallCountFromPrivate) + 1
      ensures apiCallCountFromOrder == old(apiCallCountFromOrder) + 1
      ensures req == Request("/v1/me/sendchildorder", ChildOrder(symbol, side, size, "LIMIT", Some(price), minuteToExpire, timeInForce))
      ensures "price" in req.body && req.body["price"] == JNum(price)
      ensures r == CheckResponse(response)
    {
      req, r := ReplaceOrder(side, size, "LIMIT", Some(price), minuteToExpire, timeInForce, response);
    }

    /** `cancel_order`: the answer is not inspected; counts one private call. */
    method CancelOrderById(childOrderAcceptanceId: string) returns (req: Request)
      requires Valid()
      modifies this
      ensures Valid() && trace == old(trace) + [CancelOrder]
      ensures apiCallCountFromPrivate == old(apiCallCountFromPrivate) + 1
      ensures apiCallCountFromOrder == old(apiCallCountFromOrder)
      ensures req == Request("/v1/me/cancelchildorder",
        map["product_code" := JStr(symbol), "child_order_acceptance_id" := JStr(childOrderAcceptanceId)])
    {
      req := Request("/v1/me/cancelchildorder",
        map["product_code" := JStr(symbol), "child_order_acceptance_id" := JStr(childOrderAcceptanceId)]);
      Record(CancelOrder);
    }

    /** `cancel_all_orders`: the answer is not inspected; counts against both limits. */
    method CancelAll() returns (req: Request)
      requires Valid()
      modifies this
      ensures Valid() && trace == old(trace) + [CancelAllOrders]
      ensures apiCallCountFromPrivate == old(apiCallCountFromPrivate) + 1
      ensures apiCallCountFromOrder == old(apiCallCountFromOrder) + 1
      ensures req == Request("/v1/me/cancelallchildorders", map["product_code" := JStr(symbol)])
    {
      req := Request("/v1/me/cancelallchildorders", map["product_code" := JStr(symbol)]);
      Record(CancelAllOrders);
    }

    /** `_fetch_position`: counts one private call whatever the answer, then checks the status. */
    method FetchPositions(response: HttpResponse<seq<PositionEntry>>) returns (r: Result<seq<PositionEntry>, Error>)
      requires Valid()
      modifies this
      ensures Valid() && trace == old(trace) + [FetchPosition]
      ensures apiCallCountFromPrivate == old(apiCallCountFromPrivate) + 1
      ensures apiCallCountFromOrder == old(apiCallCountFromOrder)
      ensures r == CheckResponse(response)
    {
      Record(FetchPosition);
      r := CheckResponse(response);
    }

    /** The flatten step of `_cancel_and_liquidate` for a fetched position `p`. */
    method Liquidate(p: Position, moq: real, g: Replies) returns (o: Outcome<Error>)
      requires Valid()
      modifies this
      ensures Valid()
      ensures trace == old(trace) + FlattenPosition(p, moq, g).actions
      ensures o == FlattenPosition(p, moq, g).outcome
    {
      if Abs(p.size) >= moq {
        var _, order := MarketOrder(Opposite(p.side), p.size, g.order);
        if order.Failure? {
          return Fail(order.error);
        }
        var orderHistory := StopRecord(order.value.childOrderAcceptanceId, g.clock, JStr(p.side), JNum(p.size));
        Record(WriteOrderHistory(orderHistory));
      }
      o := Pass;
    }

    /** The opening of `_cancel_and_liquidate`: cancel, wait 5 s, cancel, wait 5 s,
        then fetch the positions. */
    method CancelTwiceAndFetch(positions: HttpResponse<seq<PositionEntry>>) returns (r: Result<seq<PositionEntry>, Error>)
      requires Valid()
      modifies this
      ensures Valid() && trace == old(trace) + ShutdownPrefix
      ensures r == CheckResponse(positions)
    {
      var _ := CancelAll();
      Record(Sleep(5.0));
      var _ := CancelAll();
      Record(Sleep(5.0));
      r := FetchPositions(positions);
    }

    /** `_cancel_and_liquidate`, with the empty position read as "nothing to flatten". */
    method CancelAndLiquidate(moq: real, g: Replies) returns (o: Outcome<Error>)
      requires Valid()
      modifies this
      ensures Valid()
      ensures trace == old(trace) + CancelAndLiquidateRun(moq, g).actions
      ensures o == CancelAndLiquidateRun(moq, g).outcome
    {
      var response := CancelTwiceAndFetch(g.positions);
      if response.Failure? {
        assert CancelAndLiquidateRun(moq, g) == Run(ShutdownPrefix, Fail(response.error));
        return Fail(response.error);
      }
      var position := FetchMyPosition(response.value);
      if position.None? {
        assert CancelAndLiquidateRun(moq, g) == Run(ShutdownPrefix, Pass);
        return Pass;
      }
      o := Liquidate(position.value, moq, g);
      assert CancelAndLiquidateRun(moq, g) == Then(ShutdownPrefix, FlattenPosition(position.value, moq, g));
    }

    /** `stop`: raises the stop flag, liquidates with the default moq, and closes
        the history files once liquidation has completed. */
    method Stop(g: Replies) returns (o: Outcome<Error>)
      requires Valid()
      modifies this, bot
      ensures Valid()
      ensures bot.stopFlag && bot.infoLog == old(bot.infoLog) + ["Logic has been stopped."]
      ensures trace == old(trace) + StopRun(g).actions
      ensures o == StopRun(g).outcome
    {
      bot.Stop();
      o := CancelAndLiquidate(DefaultMoq, g);
      if o.Fail? {
        return;
      }
      Record(CloseOrderHistoryFiles);
    }
  }
}
