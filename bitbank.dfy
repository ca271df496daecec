/** The bitbank client: response classification (with its 1 s pause after a
    429), spot-order requests, open-order ids, the position estimate, and the
    cancel paths with their error-to-None mappings. */
module Bitbank {
  import opened Wrappers
  import opened Text
  import opened Http
  import opened Liquidation
  import opened Base

  /** A response body: `success` 1 with its `data`, or `success` 0 with an error code. */
  datatype BitbankBody<T> = Accepted(data: T) | Refused(code: int)

  /** One entry of the balance's `assets`. */
  datatype Asset = Asset(asset: string, freeAmount: real)

  /** One entry of the active orders' `orders`. */
  datatype SpotOrder = SpotOrder(orderId: int, side: string, status: string, remainingAmount: real)

  /** A request the client sends: its path and its JSON body. */
  datatype Request = Request(url: string, body: map<string, Json>)

  /** The number of failures a handler tolerates. Each handler counts failures
      in a local variable that starts at 0 on every call, so one failure makes
      it 1, which never exceeds this: the handler pauses 0.2 s and returns
      None instead of retrying or re-raising. */
  const RetryCount: nat := 3
  /** The endpoint every order of this exchange is posted to. */
  const OrderPath: string := "/user/spot/order"

  /** `_requests`: a non-2xx status raises an APIException carrying the status;
      a body with `success` 0 raises "<code> error"; otherwise its `data`. */
  function Classify<T>(r: HttpResponse<BitbankBody<T>>): (res: Result<T, Error>)
    ensures res.Success? <==> IsSuccessStatus(r.status) && r.json.Accepted?
    ensures !IsSuccessStatus(r.status) ==> res == Failure(ApiException(r.status))
    ensures IsSuccessStatus(r.status) && r.json.Refused? ==>
      res == Failure(RequestException(IntToString(r.json.code) + " error"))
    ensures res.Success? ==> res.value == r.json.data
  {
    if !IsSuccessStatus(r.status) then Failure(ApiException(r.status))
    else match r.json
      case Refused(code) => Failure(RequestException(IntToString(code) + " error"))
      case Accepted(data) => Success(data)
  }

  /** The pause `_requests` takes before raising on a status starting "429". */
  function Backoff(status: int): seq<Action> {
    if !IsSuccessStatus(status) && StartsWith(IntToString(status), "429") then [Sleep(1.0)] else []
  }

  /** One request as the client sees it: the call, then its backoff. */
  function CallActions(a: Action, status: int): (r: seq<Action>)
    ensures |r| > 0 && r[0] == a
    ensures forall x :: x in r ==> x == a || x == Sleep(1.0)
  {
    [a] + Backoff(status)
  }

  /** On real HTTP status codes, only a 429 pauses — and it still raises, with
      no retry; 2xx replies are classified by their body alone. */
  lemma TooManyRequestsStillRaises<T>(r: HttpResponse<BitbankBody<T>>)
    requires 100 <= r.status <= 999
    ensures Backoff(r.status) == (if r.status == 429 then [Sleep(1.0)] else [])
    ensures r.status == 429 ==> Classify(r) == Failure(ApiException(429))
    ensures Classify(r).Success? <==> 200 <= r.status <= 299 && r.json.Accepted?
  {
    SuccessStatusRange(r.status);
    ThreeDigits(429);
    ThreeDigitPrefix(r.status, 429);
    SuccessStatusRange(429);
  }

  /** The order ids of the open (UNFILLED or PARTIALLY_FILLED) orders, in order. */
  function OpenOrderIds(orders: seq<SpotOrder>): (r: seq<int>)
    ensures |r| <= |orders|
  {
    if orders == [] then [] else OpenId(orders[0]) + OpenOrderIds(orders[1..])
  }

  /** The id of one order when it is open. */
  function OpenId(o: SpotOrder): seq<int> {
    if o.status == "UNFILLED" || o.status == "PARTIALLY_FILLED" then [o.orderId] else []
  }

  /** The selection keeps list order: it distributes over concatenation. */
  lemma {:induction false} OpenOrderIdsAppend(a: seq<SpotOrder>, b: seq<SpotOrder>)
    ensures OpenOrderIds(a + b) == OpenOrderIds(a) + OpenOrderIds(b)
  {
    if a == [] {
      assert a + b == b;
    } else {
      assert (a + b)[0] == a[0] && (a + b)[1..] == a[1..] + b;
      OpenOrderIdsAppend(a[1..], b);
      assert OpenOrderIds(a + b) == OpenId(a[0]) + (OpenOrderIds(a[1..]) + OpenOrderIds(b));
    }
  }

  /** An id is selected exactly when some open order carries it. */
  lemma {:induction false} OpenOrderIdsMembers(orders: seq<SpotOrder>, id: int)
    ensures id in OpenOrderIds(orders) <==>
      exists o :: o in orders && o.orderId == id && (o.status == "UNFILLED" || o.status == "PARTIALLY_FILLED")
  {
    if orders != [] {
      OpenOrderIdsMembers(orders[1..], id);
      assert orders == [orders[0]] + orders[1..];
      if exists o :: o in orders && o.orderId == id && (o.status == "UNFILLED" || o.status == "PARTIALLY_FILLED") {
        var o :| o in orders && o.orderId == id && (o.status == "UNFILLED" || o.status == "PARTIALLY_FILLED");
        if o != orders[0] {
          assert o in orders[1..];
        }
      }
    }
  }

  /** The remaining amount of the open sell orders. */
  function SellRemaining(orders: seq<SpotOrder>): (r: real)
    ensures (forall o :: o in orders ==> o.remainingAmount >= 0.0) ==> r >= 0.0
  {
    if orders == [] then 0.0
    else
      assert forall o :: o in orders[1..] ==> o in orders;
      (if orders[0].side == "sell" then orders[0].remainingAmount else 0.0) + SellRemaining(orders[1..])
  }

  /** Buy orders add nothing to the sell remainder, which sums over concatenation. */
  lemma {:induction false} SellRemainingAppend(a: seq<SpotOrder>, b: seq<SpotOrder>)
    ensures SellRemaining(a + b) == SellRemaining(a) + SellRemaining(b)
    ensures (forall o :: o in a ==> o.side != "sell") ==> SellRemaining(a) == 0.0
  {
    if a == [] {
      assert a + b == b;
    } else {
      assert (a + b)[1..] == a[1..] + b;
      assert forall o :: o in a[1..] ==> o in a;
      SellRemainingAppend(a[1..], b);
    }
  }

  /** The asset name prefix for a pair: the symbol with every "_jpy" removed. */
  function BaseSymbol(symbol: string): string {
    RemoveAll(symbol, "_jpy")
  }

  /** The first index from `i` on whose asset name starts with `prefix`. */
  function AssetIndexFrom(assets: seq<Asset>, prefix: string, i: nat): (r: Option<nat>)
    decreases |assets| - i
    ensures r.Some? ==> i <= r.value < |assets| && StartsWith(assets[r.value].asset, prefix)
  {
    if i >= |assets| then None
    else if StartsWith(assets[i].asset, prefix) then Some(i)
    else AssetIndexFrom(assets, prefix, i + 1)
  }

  /** The scan of the balance: it starts at index 1, skipping the first asset. */
  function AssetIndex(assets: seq<Asset>, prefix: string): (r: Option<nat>)
    ensures r.Some? ==> 1 <= r.value < |assets|
  {
    AssetIndexFrom(assets, prefix, 1)
  }

  lemma {:induction false} AssetIndexFromIsFirst(assets: seq<Asset>, prefix: string, i: nat)
    decreases |assets| - i
    ensures var r := AssetIndexFrom(assets, prefix, i);
      && (r.Some? ==> forall j :: i <= j < r.value ==> !StartsWith(assets[j].asset, prefix))
      && (r.None? ==> forall j :: i <= j < |assets| ==> !StartsWith(assets[j].asset, prefix))
  {
    if i < |assets| && !StartsWith(assets[i].asset, prefix) {
      AssetIndexFromIsFirst(assets, prefix, i + 1);
    }
  }

  /** The scan finds the first matching asset at index 1 or later, and finds
      nothing exactly when no asset from index 1 on matches. */
  lemma AssetIndexIsFirstMatch(assets: seq<Asset>, prefix: string)
    ensures var r := AssetIndex(assets, prefix);
      && (r.Some? ==> 1 <= r.value < |assets| && StartsWith(assets[r.value].asset, prefix)
                      && forall j :: 1 <= j < r.value ==> !StartsWith(assets[j].asset, prefix))
      && (r.None? <==> forall j :: 1 <= j < |assets| ==> !StartsWith(assets[j].asset, prefix))
  {
    AssetIndexFromIsFirst(assets, prefix, 1);
  }

  /** The index loop of `fetch_my_position` and `cancel_and_fetch_position`:
      from index 1, stop at the first asset whose name starts with `prefix`. */
  method ScanAssets(assets: seq<Asset>, prefix: string) returns (idx: Option<nat>)
    ensures idx == AssetIndex(assets, prefix)
  {
    idx := None;
    var i := 1;
    while i < |assets|
      invariant 1 <= i
      invariant AssetIndexFrom(assets, prefix, i) == AssetIndex(assets, prefix)
      decreases |assets| - i
    {
      if StartsWith(assets[i].asset, prefix) {
        idx := Some(i);
        break;
      }
      i := i + 1;
    }
  }

  /** `fetch_my_position` as written: when no asset matches, the position
      stays the string "0", and adding the sell remainder to it raises a
      TypeError. */
  function PositionAsWritten(assets: seq<Asset>, orders: seq<SpotOrder>, symbol: string): (r: Result<real, Error>)
    ensures r.Success? <==> AssetIndex(assets, BaseSymbol(symbol)).Some?
    ensures r.Failure? ==> r.error == TypeError
  {
    var idx := AssetIndex(assets, BaseSymbol(symbol));
    if idx.Some? then Success(assets[idx.value].freeAmount + SellRemaining(orders)) else Failure(TypeError)
  }

  /** The position with the default read as the number 0: the matching
      asset's free amount (0 without one) plus the open sell remainder. */
  function PositionOf(assets: seq<Asset>, orders: seq<SpotOrder>, symbol: string): (r: real)
    ensures (forall a :: a in assets ==> a.freeAmount >= 0.0) ==> r >= SellRemaining(orders)
    ensures AssetIndex(assets, BaseSymbol(symbol)).None? ==> r == SellRemaining(orders)
  {
    var idx := AssetIndex(assets, BaseSymbol(symbol));
    (if idx.Some? then assets[idx.value].freeAmount else 0.0) + SellRemaining(orders)
  }

  /** The two agree whenever an asset matches; when none does — a balance
      holding only yen, say — the written code raises where the position is
      just the sell remainder. */
  lemma PositionWithoutAssetRaises(assets: seq<Asset>, orders: seq<SpotOrder>, symbol: string)
    ensures AssetIndex(assets, BaseSymbol(symbol)).Some? ==>
      PositionAsWritten(assets, orders, symbol) == Success(PositionOf(assets, orders, symbol))
    ensures AssetIndex(assets, BaseSymbol(symbol)).None? ==>
      && PositionAsWritten(assets, orders, symbol) == Failure(TypeError)
      && PositionOf(assets, orders, symbol) == SellRemaining(orders)
    ensures PositionAsWritten([Asset("jpy", 1000.0)], orders, symbol) == Failure(TypeError)
  {
  }

  /** The result of `_cancel_order`: an APIException with status 404 becomes
      None; every other error is re-raised. */
  function CancelOrderResult(r: HttpResponse<BitbankBody<Json>>): (res: Result<Option<Json>, Error>)
    ensures res.Failure? <==> Classify(r).Failure? && Classify(r) != Failure(ApiException(404))
    ensures res.Failure? ==> res.error == Classify(r).error
    ensures res.Success? ==> res.value == (if Classify(r).Success? then Some(Classify(r).value) else None)
  {
    match Classify(r)
    case Success(d) => Success(Some(d))
    case Failure(e) => if e == ApiException(404) then Success(None) else Failure(e)
  }

  /** Whether `_cancel_any_orders` swallows an error: an APIException whose
      status reads as text starting with "404". */
  predicate IsNotFound(e: Error) {
    e.ApiException? && StartsWith(IntToString(e.status), "404")
  }

  /** The result of `_cancel_any_orders`: an APIException whose status starts
      with "404" becomes None; every other error is re-raised. */
  function CancelAnyOrdersResult(r: HttpResponse<BitbankBody<Json>>): (res: Result<Option<Json>, Error>)
    ensures res.Failure? <==> Classify(r).Failure? && !IsNotFound(Classify(r).error)
    ensures res.Failure? ==> res.error == Classify(r).error
    ensures res.Success? ==> res.value == (if Classify(r).Success? then Some(Classify(r).value) else None)
  {
    match Classify(r)
    case Success(d) => Success(Some(d))
    case Failure(e) => if IsNotFound(e) then Success(None) else Failure(e)
  }

  /** On real HTTP status codes the equality test of `_cancel_order` and the
      prefix test of `_cancel_any_orders` swallow the same responses. */
  lemma NotFoundTestsAgree(r: HttpResponse<BitbankBody<Json>>)
    requires 100 <= r.status <= 999
    ensures CancelOrderResult(r) == CancelAnyOrdersResult(r)
  {
    ThreeDigits(404);
    ThreeDigitPrefix(r.status, 404);
    SuccessStatusRange(r.status);
    SuccessStatusRange(404);
  }

  /** What `cancel_all_orders` returns: the cancel's result, None for a 404, a
      refusal (starting "40014" or not) or any other error. */
  function CancelAllResult(c: Result<Option<Json>, Error>): (v: Option<Json>)
    ensures v.Some? <==> c.Success? && c.value.Some?
    ensures v.Some? ==> v.value == c.value.value
  {
    if c.Success? then c.value
    else if c.error.RequestException? then (if StartsWith(c.error.message, "40014") then None else None)
    else None
  }

  /** The pause `cancel_all_orders` takes: only after an error other than a
      refusal (a refusal falls through without pausing). */
  function CancelAllPause(c: Result<Option<Json>, Error>): (r: seq<Action>)
    ensures r != [] <==> c.Failure? && !c.error.RequestException?
    ensures forall x :: x in r ==> x == Sleep(0.2)
  {
    if c.Failure? && !c.error.RequestException? then [Sleep(0.2)] else []
  }

  /** The actions of `fetch_open_orders`: the request, and a 0.2 s pause after a failure. */
  function FetchOpenOrdersActions(r: HttpResponse<BitbankBody<seq<SpotOrder>>>): (acts: seq<Action>)
    ensures |acts| > 0 && acts[0] == FetchActiveOrders
    ensures forall x :: x in acts ==> x == FetchActiveOrders || x.Sleep?
  {
    CallActions(FetchActiveOrders, r.status) + (if Classify(r).Failure? then [Sleep(0.2)] else [])
  }

  /** What `fetch_open_orders` returns: the open order ids, or None after a failure. */
  function OpenOrdersResult(r: HttpResponse<BitbankBody<seq<SpotOrder>>>): (ids: Option<seq<int>>)
    ensures ids.Some? <==> Classify(r).Success?
    ensures ids.Some? ==> ids.value == OpenOrderIds(r.json.data)
  {
    match Classify(r)
    case Success(orders) => Some(OpenOrderIds(orders))
    case Failure(_) => None
  }

  /** The actions of `cancel_all_orders`: fetch the open ids, cancel them, and
      pause after an unexpected error. */
  function CancelAllActions(openResp: HttpResponse<BitbankBody<seq<SpotOrder>>>,
                            cancelResp: HttpResponse<BitbankBody<Json>>): (r: seq<Action>)
    ensures |r| > 0 && r[0] == FetchActiveOrders
    ensures forall a :: a in r ==> a == FetchActiveOrders || a == CancelOrders(OpenOrdersResult(openResp)) || a.Sleep?
  {
    FetchOpenOrdersActions(openResp)
      + CallActions(CancelOrders(OpenOrdersResult(openResp)), cancelResp.status)
      + CancelAllPause(CancelAnyOrdersResult(cancelResp))
  }

  /** `cancel_all_orders` cancels exactly the orders `fetch_open_orders` found
      open (or sends no list after a failed fetch), and its result carries a
      value only when that cancel went through with one. */
  lemma CancelAllCancelsOpenOrders(openResp: HttpResponse<BitbankBody<seq<SpotOrder>>>,
                                   cancelResp: HttpResponse<BitbankBody<Json>>)
    ensures var ids := OpenOrdersResult(openResp);
      && CancelOrders(ids) in CancelAllActions(openResp, cancelResp)
      && (ids.Some? ==> forall id :: id in ids.value ==>
            exists o :: (o in Classify(openResp).value && o.orderId == id
                         && (o.status == "UNFILLED" || o.status == "PARTIALLY_FILLED")))
      && (CancelAllResult(CancelAnyOrdersResult(cancelResp)).Some? ==> Classify(cancelResp).Success?)
  {
    var ids := OpenOrdersResult(openResp);
    var acts := CancelAllActions(openResp, cancelResp);
    assert acts[|FetchOpenOrdersActions(openResp)|] == CancelOrders(ids);
    if ids.Some? {
      forall id | id in ids.value
        ensures exists o :: (o in Classify(openResp).value && o.orderId == id
                               && (o.status == "UNFILLED" || o.status == "PARTIALLY_FILLED"))
      {
        OpenOrderIdsMembers(Classify(openResp).value, id);
      }
    }
  }

  /** The bitbank client. */
  class BitbankClient {
    const bot: BotBase
    const symbol: string
    /** The gateway calls and sleeps made so far. */
    var trace: seq<Action>

    constructor (bot: BotBase, symbol: string)
      ensures this.bot == bot && this.symbol == symbol && trace == []
    {
      this.bot := bot;
      this.symbol := symbol;
      trace := [];
    }

    /** `_requests`: one call, classified. */
    method Call<T>(a: Action, r: HttpResponse<BitbankBody<T>>) returns (res: Result<T, Error>)
      modifies this
      ensures trace == old(trace) + CallActions(a, r.status)
      ensures res == Classify(r)
    {
      trace := trace + [a];
      if !IsSuccessStatus(r.status) && StartsWith(IntToString(r.status), "429") {
        trace := trace + [Sleep(1.0)];
      }
      res := Classify(r);
    }

    /** `_replace_order`: pair, amount, side, type and post_only, plus the price
        exactly for "limit" orders. */
    method ReplaceOrder(side: string, size: real, orderType: string, price: Option<real>, postOnly: bool,
                        response: HttpResponse<BitbankBody<Json>>)
      returns (req: Request, res: Result<Json, Error>)
      modifies this
      ensures req.url == "/user/spot/order"
      ensures req.body.Keys == {"pair", "amount", "side", "type", "post_only"} + (if orderType == "limit" then {"price"} else {})
      ensures req.body["pair"] == JStr(symbol) && req.body["amount"] == JNum(size) && req.body["side"] == JStr(side)
      ensures req.body["type"] == JStr(orderType) && req.body["post_only"] == JBool(postOnly)
      ensures "price" in req.body ==> req.body["price"] == (if price.Some? then JNum(price.value) else JNull)
      ensures trace == old(trace) + CallActions(PlaceOrder(OrderPath, orderType, side, size), response.status)
      ensures res == Classify(response)
    {
      var request := map[
        "pair" := JStr(symbol),
        "amount" := JNum(size),
        "side" := JStr(side),
        "type" := JStr(orderType),
        "post_only" := JBool(postOnly)
      ];
      if orderType == "limit" {
        request := request["price" := if price.Some? then JNum(price.value) else JNull];
      }
      req := Request("/user/spot/order", request);
      res := Call(PlaceOrder(OrderPath, orderType, side, size), response);
    }

    /** `market_order`: a "market" order, without a price. */
    method MarketOrder(side: string, size: real, response: HttpResponse<BitbankBody<Json>>)
      returns (req: Request, res: Result<Json, Error>)
      modifies this
      ensures req.url == "/user/spot/order" && req.body.Keys == {"pair", "amount", "side", "type", "post_only"}
      ensures req.body["type"] == JStr("market") && req.body["post_only"] == JBool(false)
      ensures req.body["pair"] == JStr(symbol) && req.body["amount"] == JNum(size) && req.body["side"] == JStr(side)
      ensures trace == old(trace) + CallActions(PlaceOrder(OrderPath, "market", side, size), response.status)
      ensures res == Classify(response)
    {
      req, res := ReplaceOrder(side, size, "market", None, false, response);
    }

    /** `limit_order`: a "limit" order at `price`. */
    method LimitOrder(side: string, size: real, price: real, postOnly: bool, response: HttpResponse<BitbankBody<Json>>)
      returns (req: Request, res: Result<Json, Error>)
      modifies this
      ensures req.url == "/user/spot/order" && req.body.Keys == {"pair", "amount", "side", "type", "post_only", "price"}
      ensures req.body["price"] == JNum(price) && req.body["type"] == JStr("limit") && req.body["post_only"] == JBool(postOnly)
      ensures req.body["pair"] == JStr(symbol) && req.body["amount"] == JNum(size) && req.body["side"] == JStr(side)
      ensures trace == old(trace) + CallActions(PlaceOrder(OrderPath, "limit", side, size), response.status)
      ensures res == Classify(response)
    {
      req, res := ReplaceOrder(side, size, "limit", Some(price), postOnly, response);
    }

    /** `fetch_open_orders`: the open order ids, or None after a 0.2 s pause
        when the request fails (it is not retried). */
    method FetchOpenOrders(response: HttpResponse<BitbankBody<seq<SpotOrder>>>) returns (ids: Option<seq<int>>)
      modifies this
      ensures ids == OpenOrdersResult(response)
      ensures ids.Some? ==> ids.value == OpenOrderIds(Classify(response).value)
      ensures trace == old(trace) + FetchOpenOrdersActions(response)
    {
      var openOrders := Call(FetchActiveOrders, response);
      if openOrders.Success? {
        return Some(OpenOrderIds(openOrders.value));
      }
      trace := trace + [Sleep(0.2)];
      ids := None;
    }

    /** `_cancel_any_orders` for the ids `orderIds`. */
    method CancelAnyOrders(orderIds: Option<seq<int>>, response: HttpResponse<BitbankBody<Json>>)
      returns (res: Result<Option<Json>, Error>)
      modifies this
      ensures trace == old(trace) + CallActions(CancelOrders(orderIds), response.status)
      ensures res == CancelAnyOrdersResult(response)
    {
      var r := Call(CancelOrders(orderIds), response);
      res := CancelAnyOrdersResult(response);
    }

    /** `_cancel_order` for one order id. */
    method CancelOrderById(orderId: int, response: HttpResponse<BitbankBody<Json>>)
      returns (res: Result<Option<Json>, Error>)
      modifies this
      ensures trace == old(trace) + CallActions(CancelOrder, response.status)
      ensures res == CancelOrderResult(response)
    {
      var r := Call(CancelOrder, response);
      res := CancelOrderResult(response);
    }

    /** `cancel_all_orders`: never raises. */
    method CancelAllOrders(openResp: HttpResponse<BitbankBody<seq<SpotOrder>>>,
                           cancelResp: HttpResponse<BitbankBody<Json>>)
      returns (v: Option<Json>)
      modifies this
      ensures trace == old(trace) + CancelAllActions(openResp, cancelResp)
      ensures v == CancelAllResult(CancelAnyOrdersResult(cancelResp))
    {
      var openOrders := FetchOpenOrders(openResp);
      var c := CancelAnyOrders(openOrders, cancelResp);
      assert CancelAllActions(openResp, cancelResp) ==
        FetchOpenOrdersActions(openResp) + CallActions(CancelOrders(openOrders), cancelResp.status) + CancelAllPause(c);
      if c.Success? {
        v := c.value;
      } else if c.error.RequestException? {
        if StartsWith(c.error.message, "40014") {
          return None;
        }
        v := None;
      } else {
        trace := trace + [Sleep(0.2)];
        v := None;
      }
    }

    /** `fetch_balance`. */
    method FetchBalanceCall(response: HttpResponse<BitbankBody<seq<Asset>>>) returns (res: Result<seq<Asset>, Error>)
      modifies this
      ensures trace == old(trace) + CallActions(FetchBalance, response.status)
      ensures res == Classify(response)
    {
      res := Call(FetchBalance, response);
    }

    /** `fetch_my_position`, with the default position read as the number 0:
        the balance, then the active orders; a refusal of either gives None
        after a 0.2 s pause, and any other error propagates. */
    method FetchMyPosition(balance: HttpResponse<BitbankBody<seq<Asset>>>,
                           active: HttpResponse<BitbankBody<seq<SpotOrder>>>)
      returns (r: Result<Option<real>, Error>)
      modifies this
      ensures var b := Classify(balance);
        var o := Classify(active);
        var e := if b.Failure? then Some(b.error) else if o.Failure? then Some(o.error) else None;
        var calls := CallActions(FetchBalance, balance.status)
          + (if b.Success? then CallActions(FetchActiveOrders, active.status) else []);
        && (e.None? ==> r == Success(Some(PositionOf(b.value, o.value, symbol))) && trace == old(trace) + calls)
        && (e.Some? && e.value.RequestException? ==> r == Success(None) && trace == old(trace) + calls + [Sleep(0.2)])
        && (e.Some? && !e.value.RequestException? ==> r == Failure(e.value) && trace == old(trace) + calls)
    {
      var assets := FetchBalanceCall(balance);
      if assets.Failure? {
        if assets.error.RequestException? {
          trace := trace + [Sleep(0.2)];
          return Success(None);
        }
        return Failure(assets.error);
      }
      var openOrders := Call(FetchActiveOrders, active);
      if openOrders.Failure? {
        if openOrders.error.RequestException? {
          trace := trace + [Sleep(0.2)];
          return Success(None);
        }
        return Failure(openOrders.error);
      }
      var idx := ScanAssets(assets.value, BaseSymbol(symbol));
      var position := if idx.Some? then assets.value[idx.value].freeAmount else 0.0;
      r := Success(Some(position + SellRemaining(openOrders.value)));
      assert r == Success(Some(PositionOf(assets.value, openOrders.value, symbol)));
    }

    /** `cancel_and_fetch_position`: cancels all orders (which never raises),
        then returns the first matching asset's free amount from index 1 on,
        or None when none matches; a refused balance gives None after a 0.2 s
        pause, and any other error propagates. */
    method CancelAndFetchPosition(openResp: HttpResponse<BitbankBody<seq<SpotOrder>>>,
                                  cancelResp: HttpResponse<BitbankBody<Json>>,
                                  balance: HttpResponse<BitbankBody<seq<Asset>>>)
      returns (r: Result<Option<real>, Error>)
      modifies this
      ensures var b := Classify(balance);
        var calls := old(trace) + CancelAllActions(openResp, cancelResp) + CallActions(FetchBalance, balance.status);
        && (b.Success? ==>
              && trace == calls
              && r == Success(var idx := AssetIndex(b.value, BaseSymbol(symbol));
                              if idx.Some? then Some(b.value[idx.value].freeAmount) else None))
        && (b.Failure? && b.error.RequestException? ==> r == Success(None) && trace == calls + [Sleep(0.2)])
        && (b.Failure? && !b.error.RequestException? ==> r == Failure(b.error) && trace == calls)
    {
      var _ := CancelAllOrders(openResp, cancelResp);
      r := FetchFreeAmount(balance);
    }

    /** The balance half of `cancel_and_fetch_position`: the free amount of the
        first asset from index 1 on whose name starts with the base symbol,
        None when there is none or after a 0.2 s pause on a RequestException;
        any other error propagates. */
    method FetchFreeAmount(balance: HttpResponse<BitbankBody<seq<Asset>>>) returns (r: Result<Option<real>, Error>)
      modifies this
      ensures var b := Classify(balance);
        var calls := CallActions(FetchBalance, balance.status);
        && (b.Success? ==>
              && trace == old(trace) + calls
              && r == Success(var idx := AssetIndex(b.value, BaseSymbol(symbol));
                              if idx.Some? then Some(b.value[idx.value].freeAmount) else None))
        && (b.Failure? && b.error.RequestException? ==> r == Success(None) && trace == old(trace) + calls + [Sleep(0.2)])
        && (b.Failure? && !b.error.RequestException? ==> r == Failure(b.error) && trace == old(trace) + calls)
    {
      var assets := FetchBalanceCall(balance);
      if assets.Failure? {
        if assets.error.RequestException? {
          trace := trace + [Sleep(0.2)];
          return Success(None);
        }
        return Failure(assets.error);
      }
      var idx := ScanAssets(assets.value, BaseSymbol(symbol));
      if idx.Some? {
        return Success(Some(assets.value[idx.value].freeAmount));
      }
      r := Success(None);
    }
  }
}
