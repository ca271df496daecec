/** The vocabulary shared by the venue clients' shutdown protocol: the trace of
    gateway calls, sleeps and audit writes a client records, the run of a
    protocol (its actions and how it ended), and the flattening side. */
module Liquidation {
  import opened Wrappers
  import opened Http

  /** Smallest size the shutdown protocol will flatten (the `moq` default). */
  const DefaultMoq: real := 0.01

  /** The `order_kind` written to the order history for a shutdown flatten. */
  const StopLiquidationKind: string := "Bot Stop Liquidation"

  /** One observable step of a client. */
  datatype Action =
    | Sleep(seconds: real)                                  // `asyncio.sleep`
    | CancelAllOrders                                       // the venue's cancel-all request
    | CancelOrder                                           // a single-order cancel request
    | CancelOrders(orderIds: Option<seq<int>>)              // a multi-order cancel request
    | FetchPosition                                         // the venue's position request
    | FetchBalance                                          // the venue's balance request
    | FetchActiveOrders                                     // the venue's open-order request
    | PlaceOrder(path: string, orderType: string, side: string, size: real)  // an order request sent to `path`
    | WriteOrderHistory(record: map<string, Json>)          // one audit record
    | CloseOrderHistoryFiles

  /** How a protocol run went: the actions it took, then whether it completed. */
  datatype Run = Run(actions: seq<Action>, outcome: Outcome<Error>)

  /** `prefix` followed by `r`. */
  function Then(prefix: seq<Action>, r: Run): Run {
    Run(prefix + r.actions, r.outcome)
  }

  /** The side that closes a position held on `side`: "BUY" closes with "SELL",
      anything else with "BUY". */
  function Opposite(side: string): (r: string)
    ensures r == "BUY" || r == "SELL"
    ensures r == "SELL" <==> side == "BUY"
  {
    if side == "BUY" then "SELL" else "BUY"
  }

  /** The audit record written for a shutdown flatten. */
  function StopRecord(orderId: string, timestamp: real, size: Json, currentPosition: Json): (r: map<string, Json>)
    ensures r.Keys == {"order_no", "order_id", "timestamp", "order_kind", "size", "price", "current_position"}
    ensures r["order_kind"] == JStr(StopLiquidationKind) && r["price"] == JNum(0.0)
    ensures r["order_id"] == JStr(orderId) && r["size"] == size && r["current_position"] == currentPosition
  {
    map[
      "order_no" := JStr(""),
      "order_id" := JStr(orderId),
      "timestamp" := JNum(timestamp),
      "order_kind" := JStr(StopLiquidationKind),
      "size" := size,
      "price" := JNum(0.0),
      "current_position" := currentPosition
    ]
  }

  /** The orders placed in a trace, in order. */
  function Orders(actions: seq<Action>): (r: seq<Action>)
    ensures |r| <= |actions|
    ensures forall a :: a in r ==> a.PlaceOrder? && a in actions
  {
    if actions == [] then []
    else (if actions[0].PlaceOrder? then [actions[0]] else []) + Orders(actions[1..])
  }

  /** The audit records written in a trace, in order. */
  function Writes(actions: seq<Action>): (r: seq<map<string, Json>>)
    ensures |r| <= |actions|
    ensures forall rec :: rec in r ==> WriteOrderHistory(rec) in actions
  {
    if actions == [] then []
    else (if actions[0].WriteOrderHistory? then [actions[0].record] else []) + Writes(actions[1..])
  }

  lemma {:induction false} OrdersAppend(a: seq<Action>, b: seq<Action>)
    ensures Orders(a + b) == Orders(a) + Orders(b)
  {
    if a != [] {
      assert (a + b)[1..] == a[1..] + b;
      OrdersAppend(a[1..], b);
    } else {
      assert a + b == b;
    }
  }

  lemma {:induction false} WritesAppend(a: seq<Action>, b: seq<Action>)
    ensures Writes(a + b) == Writes(a) + Writes(b)
  {
    if a != [] {
      assert (a + b)[1..] == a[1..] + b;
      WritesAppend(a[1..], b);
    } else {
      assert a + b == b;
    }
  }
}
