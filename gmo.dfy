/** The GMO Coin client: response classification, order-request routing, the
    position and open-order projections, and the shutdown protocol
    (wait, cancel all, wait, cancel all, fetch the position summary, flatten
    every side at or above the minimum order quantity). */
module Gmo {
  import opened Wrappers
  import opened Text
  import opened Http
  import opened Liquidation
  import opened Base

  /** One side of the position summary (`position_summary`'s list). */
  datatype SummaryEntry = SummaryEntry(side: string, sumPositionQuantity: real)

  /** One message of a refused request. */
  datatype GmoMessage = GmoMessage(messageCode: string, messageString: string)

  /** A response body: its `status`, its `messages`, and its `data` when present. */
  datatype GmoBody = GmoBody(status: int, messages: seq<GmoMessage>, data: Option<Json>)

  /** What `_requests` returns: the `data` member, or the whole body when it has none. */
  datatype GmoReply = Data(payload: Json) | WholeBody(body: GmoBody)

  /** A request the client sends: its path and its JSON body. */
  datatype Request = Request(url: string, body: map<string, Json>)

  /** One entry of `active_orders`' list. */
  datatype ActiveOrder = ActiveOrder(orderId: int, side: string, size: real)

  /** The `data` of `active_orders`: a falsy (empty) payload, or one with a list. */
  datatype ActiveOrders = Falsy | Listing(list: seq<ActiveOrder>)

  /** A position as `fetch_my_position` reports it. */
  datatype Position = Position(side: string, size: real)

  /** The error message of a refused request: the first message's code and text. */
  function RefusalMessage(m: GmoMessage): string {
    "[Error code] " + m.messageCode + " [Error msg] " + m.messageString
  }

  /** `_requests`: a non-2xx status raises; a body whose status is not 0 raises with
      its first message (and an IndexError when there is none); otherwise the
      `data` member is returned, or the whole body when it has none. */
  function ClassifyResponse(r: HttpResponse<GmoBody>): (res: Result<GmoReply, Error>)
    ensures res.Success? <==> IsSuccessStatus(r.status) && r.json.status == 0
    ensures !IsSuccessStatus(r.status) ==>
      res == Failure(RequestException("[" + IntToString(r.status) + "] server error"))
    ensures IsSuccessStatus(r.status) && r.json.status != 0 ==>
      res == Failure(if r.json.messages == [] then IndexError else RequestException(RefusalMessage(r.json.messages[0])))
    ensures res.Success? ==> (res.value.Data? <==> r.json.data.Some?)
    ensures res.Success? && res.value.Data? ==> res.value.payload == r.json.data.value
    ensures res.Success? && res.value.WholeBody? ==> res.value.body == r.json
  {
    if !IsSuccessStatus(r.status) then
      Failure(RequestException("[" + IntToString(r.status) + "] server error"))
    else if r.json.status != 0 then
      if r.json.messages == [] then Failure(IndexError)
      else Failure(RequestException(RefusalMessage(r.json.messages[0])))
    else if r.json.data.Some? then Success(Data(r.json.data.value))
    else Success(WholeBody(r.json))
  }

  /** On real HTTP status codes a reply is accepted exactly when the status is
      2xx and the body's status is 0; every other reply is a RequestException,
      except a refusal without messages. */
  lemma ClassifyOnHttpStatuses(r: HttpResponse<GmoBody>)
    requires 100 <= r.status <= 999
    ensures ClassifyResponse(r).Success? <==> 200 <= r.status <= 299 && r.json.status == 0
    ensures ClassifyResponse(r).Failure? && !(200 <= r.status <= 299 && r.json.messages == []) ==>
      ClassifyResponse(r).error.RequestException?
  {
    SuccessStatusRange(r.status);
  }

  /** `fetch_my_position`: the first summary entry's side and size, or nothing
      (`{}`) for an empty summary; a failed request propagates. */
  function FetchMyPosition(summary: Result<seq<SummaryEntry>, Error>): (r: Result<Option<Position>, Error>)
    ensures summary.Failure? <==> r.Failure?
    ensures r.Failure? ==> r.error == summary.error
    ensures r.Success? ==> (r.value.Some? <==> summary.value != [])
    ensures r.Success? && r.value.Some? ==>
      r.value.value == Position(summary.value[0].side, summary.value[0].sumPositionQuantity)
  {
    match summary
    case Failure(e) => Failure(e)
    case Success(entries) =>
      if entries != [] then Success(Some(Position(entries[0].side, entries[0].sumPositionQuantity)))
      else Success(None)
  }

  /** `fetch_all_order_id`: the listed order ids in list order; a falsy payload is
      handed back as is (None here); a refused request or a timeout gives `[]`,
      and any other error propagates. */
  function FetchAllOrderId(reply: Result<ActiveOrders, Error>): (r: Result<Option<seq<int>>, Error>)
    ensures r.Failure? <==> reply.Failure? && !reply.error.RequestException? && !reply.error.TimeoutError?
    ensures r.Failure? ==> r.error == reply.error
    ensures reply.Failure? && r.Success? ==> r.value == Some([])
    ensures reply == Success(Falsy) ==> r == Success(None)
    ensures reply.Success? && reply.value.Listing? ==>
      && r.Success? && r.value.Some?
      && |r.value.value| == |reply.value.list|
      && forall i :: 0 <= i < |reply.value.list| ==> r.value.value[i] == reply.value.list[i].orderId
  {
    match reply
    case Failure(e) =>
      if e.RequestException? || e.TimeoutError? then Success(Some([])) else Failure(e)
    case Success(Falsy) => Success(None)
    case Success(Listing(list)) =>
      Success(Some(seq(|list|, i requires 0 <= i < |list| => list[i].orderId)))
  }

  function OptNum(x: Option<real>): Json {
    if x.Some? then JNum(x.value) else JNull
  }

  function OptInt(x: Option<int>): Json {
    if x.Some? then JNum(x.value as real) else JNull
  }

  function OptStr(x: Option<string>): Json {
    if x.Some? then JStr(x.value) else JNull
  }

  /** The keys of an order request: the common ones, the size under `sizeKey`,
      and a price when `priced`. */
  function OrderKeys(sizeKey: string, priced: bool): set<string> {
    {"symbol", "side", "executionType", "timeInForce", "cancelBefore", sizeKey} + (if priced then {"price"} else {})
  }

  /** What the gateway answers during one shutdown: the two cancel-all calls,
      the position summary, the id (or error) for the k-th flatten order, and
      the clock reading taken for the k-th audit record. */
  datatype Replies = Replies(
    firstCancel: Outcome<Error>,
    secondCancel: Outcome<Error>,
    summary: Result<seq<SummaryEntry>, Error>,
    orderIds: nat -> Result<string, Error>,
    clock: nat -> real)

  /** The endpoint GMO closes open positions through. */
  const CloseBulkOrderPath: string := "/private/v1/closeBulkOrder"
  /** The calls made before any flattening: wait 1 s, cancel, wait 5 s, cancel, fetch. */
  const ShutdownPrefix: seq<Action> := [Sleep(1.0), CancelAllOrders, Sleep(5.0), CancelAllOrders, FetchPosition]

  /** The order that flattens one summary entry: a market order on the other side, of its size. */
  function FlattenOrder(e: SummaryEntry): (a: Action)
    ensures a.PlaceOrder? && a.path == CloseBulkOrderPath && a.orderType == "MARKET"
    ensures a.side == Opposite(e.side) && a.size == e.sumPositionQuantity
  {
    PlaceOrder(CloseBulkOrderPath, "MARKET", Opposite(e.side), e.sumPositionQuantity)
  }

  /** The audit record of a flatten of `size` under order id `id`. */
  predicate IsFlattenRecord(rec: map<string, Json>, size: real) {
    && rec.Keys == {"order_no", "order_id", "timestamp", "order_kind", "size", "price", "current_position"}
    && rec["order_kind"] == JStr(StopLiquidationKind)
    && rec["price"] == JNum(0.0)
    && rec["current_position"] == JNum(0.0)
    && rec["size"] == JNum(size)
  }

  /** Every audit record directly follows the order it describes. */
  predicate AuditsFollowOrders(actions: seq<Action>) {
    forall j :: 0 <= j < |actions| && actions[j].WriteOrderHistory? ==>
      0 < j && actions[j - 1].PlaceOrder? && IsFlattenRecord(actions[j].record, actions[j - 1].size)
  }

  /** The flatten loop from entry `i` on, `k` orders having been placed so far:
      an entry at or above `moq` is flattened and then recorded; an order the
      gateway refuses ends the run with its error. */
  function Flatten(entries: seq<SummaryEntry>, i: nat, k: nat, moq: real, g: Replies): (r: Run)
    requires i <= |entries|
    decreases |entries| - i
    ensures r.outcome.Fail? ==> r.actions != [] && r.actions[|r.actions| - 1].PlaceOrder?
  {
    if i == |entries| then Run([], Pass)
    else if entries[i].sumPositionQuantity >= moq then
      match g.orderIds(k)
      case Failure(e) => Run([FlattenOrder(entries[i])], Fail(e))
      case Success(id) =>
        var rec := StopRecord(id, g.clock(k), JNum(entries[i].sumPositionQuantity), JNum(0.0));
        Then([FlattenOrder(entries[i]), WriteOrderHistory(rec)], Flatten(entries, i + 1, k + 1, moq, g))
    else Flatten(entries, i + 1, k, moq, g)
  }

  /** `_cancel_and_liquidate` as a run: a cancel that raises ends it, as does a
      failed summary fetch; otherwise the summary is flattened entry by entry. */
  function CancelAndLiquidateRun(moq: real, g: Replies): (r: Run)
    ensures r.outcome.Pass? ==> g.firstCancel.Pass? && g.secondCancel.Pass? && g.summary.Success?
  {
    if g.firstCancel.Fail? then Run([Sleep(1.0), CancelAllOrders], g.firstCancel)
    else if g.secondCancel.Fail? then Run([Sleep(1.0), CancelAllOrders, Sleep(5.0), CancelAllOrders], g.secondCancel)
    else match g.summary
      case Failure(e) => Run(ShutdownPrefix, Fail(e))
      case Success(entries) => Then(ShutdownPrefix, Flatten(entries, 0, 0, moq, g))
  }

  /** `stop` as a run: liquidation with the default moq, then closing the history
      files, which a failed liquidation never reaches. */
  function StopRun(g: Replies): (r: Run)
    ensures r.outcome == CancelAndLiquidateRun(DefaultMoq, g).outcome
    ensures r.outcome.Pass? ==> |r.actions| > 0 && r.actions[|r.actions| - 1] == CloseOrderHistoryFiles
  {
    var r := CancelAndLiquidateRun(DefaultMoq, g);
    if r.outcome.Pass? then Run(r.actions + [CloseOrderHistoryFiles], Pass) else r
  }

  /** The flatten orders the summary calls for, in summary order. */
  function Plan(entries: seq<SummaryEntry>, moq: real): (p: seq<Action>)
    ensures |p| <= |entries|
    ensures forall a :: a in p ==> a.PlaceOrder? && a.path == CloseBulkOrderPath && a.orderType == "MARKET"
  {
    if entries == [] then []
    else (if entries[0].sumPositionQuantity >= moq then [FlattenOrder(entries[0])] else []) + Plan(entries[1..], moq)
  }

  /** An order is planned exactly when some entry at or above `moq` calls for it. */
  lemma {:induction false} PlanMembers(entries: seq<SummaryEntry>, moq: real, a: Action)
    ensures a in Plan(entries, moq) <==>
      exists e :: e in entries && e.sumPositionQuantity >= moq && a == FlattenOrder(e)
  {
    if entries != [] {
      PlanMembers(entries[1..], moq, a);
      assert entries == [entries[0]] + entries[1..];
      if a in Plan(entries, moq) && a !in Plan(entries[1..], moq) {
        assert entries[0] in entries;
      }
      if exists e :: e in entries && e.sumPositionQuantity >= moq && a == FlattenOrder(e) {
        var e :| e in entries && e.sumPositionQuantity >= moq && a == FlattenOrder(e);
        if e != entries[0] {
          assert e in entries[1..];
        }
      }
    }
  }

  /** The flatten loop only places orders and writes records, opens with an
      order, and writes each record directly after the order it describes. */
  lemma {:induction false} FlattenShape(entries: seq<SummaryEntry>, i: nat, k: nat, moq: real, g: Replies)
    requires i <= |entries|
    decreases |entries| - i
    ensures var r := Flatten(entries, i, k, moq, g);
      && (forall a :: a in r.actions ==> a.PlaceOrder? || a.WriteOrderHistory?)
      && (|r.actions| > 0 ==> r.actions[0].PlaceOrder?)
      && AuditsFollowOrders(r.actions)
  {
    if i < |entries| && entries[i].sumPositionQuantity >= moq && g.orderIds(k).Success? {
      var e := entries[i];
      FlattenShape(entries, i + 1, k + 1, moq, g);
      var rest := Flatten(entries, i + 1, k + 1, moq, g);
      var rec := StopRecord(g.orderIds(k).value, g.clock(k), JNum(e.sumPositionQuantity), JNum(0.0));
      var acts := [FlattenOrder(e), WriteOrderHistory(rec)] + rest.actions;
      assert Flatten(entries, i, k, moq, g).actions == acts;
      forall j | 0 <= j < |acts| && acts[j].WriteOrderHistory?
        ensures 0 < j && acts[j - 1].PlaceOrder? && IsFlattenRecord(acts[j].record, acts[j - 1].size)
      {
        if j >= 2 {
          assert acts[j] == rest.actions[j - 2];
          if j == 2 {
            assert false;
          }
        }
      }
    } else if i < |entries| && entries[i].sumPositionQuantity < moq {
      FlattenShape(entries, i + 1, k, moq, g);
    }
  }

  /** A run's orders follow `plan`: a prefix of it, all of it when the run
      completes, with one record per order that went through. */
  predicate FollowsPlan(r: Run, plan: seq<Action>) {
    && Orders(r.actions) <= plan
    && (r.outcome.Pass? ==> Orders(r.actions) == plan)
    && |Orders(r.actions)| == |Writes(r.actions)| + (if r.outcome.Pass? then 0 else 1)
  }

  /** An accepted order and its record, put in front of a run that follows
      `plan`, follow the plan with that order in front. */
  lemma FollowsPlanCons(order: Action, rec: map<string, Json>, rest: Run, plan: seq<Action>)
    requires order.PlaceOrder? && FollowsPlan(rest, plan)
    ensures FollowsPlan(Then([order, WriteOrderHistory(rec)], rest), [order] + plan)
  {
    var head := [order, WriteOrderHistory(rec)];
    OrdersAppend(head, rest.actions);
    WritesAppend(head, rest.actions);
    assert Orders(head) == [order];
    assert Writes(head) == [rec];
  }

  /** The flatten loop's orders follow the plan, all of it when the loop
      completes, and it writes one record per order that went through. */
  lemma {:induction false} FlattenFollowsPlan(entries: seq<SummaryEntry>, i: nat, k: nat, moq: real, g: Replies)
    requires i <= |entries|
    decreases |entries| - i
    ensures FollowsPlan(Flatten(entries, i, k, moq, g), Plan(entries[i..], moq))
  {
    if i < |entries| {
      var e := entries[i];
      assert entries[i..][0] == e && entries[i..][1..] == entries[i + 1..];
      if e.sumPositionQuantity >= moq {
        assert Plan(entries[i..], moq) == [FlattenOrder(e)] + Plan(entries[i + 1..], moq);
        if g.orderIds(k).Failure? {
          assert Flatten(entries, i, k, moq, g) == Run([FlattenOrder(e)], Fail(g.orderIds(k).error));
          assert Orders([FlattenOrder(e)]) == [FlattenOrder(e)];
          assert Writes([FlattenOrder(e)]) == [];
        } else {
          FlattenFollowsPlan(entries, i + 1, k + 1, moq, g);
          var rest := Flatten(entries, i + 1, k + 1, moq, g);
          var rec := StopRecord(g.orderIds(k).value, g.clock(k), JNum(e.sumPositionQuantity), JNum(0.0));
          assert Flatten(entries, i, k, moq, g) == Then([FlattenOrder(e), WriteOrderHistory(rec)], rest);
          FollowsPlanCons(FlattenOrder(e), rec, rest, Plan(entries[i + 1..], moq));
        }
      } else {
        FlattenFollowsPlan(entries, i + 1, k, moq, g);
        assert Plan(entries[i..], moq) == [] + Plan(entries[i + 1..], moq);
        assert Flatten(entries, i, k, moq, g) == Flatten(entries, i + 1, k, moq, g);
      }
    } else {
      assert Orders([]) == [] && Writes([]) == [];
    }
  }

  /** The n-th record names the id the gateway gave the n-th order (counting
      from `k`), the clock read for it, and that order's size; its order_no is
      empty and its current_position 0. */
  predicate RecordsNameOrders(records: seq<map<string, Json>>, orders: seq<Action>, k: nat, g: Replies) {
    && |records| <= |orders|
    && forall n :: 0 <= n < |records| ==>
         && orders[n].PlaceOrder?
         && g.orderIds(k + n).Success?
         && records[n] == StopRecord(g.orderIds(k + n).value, g.clock(k + n), JNum(orders[n].size), JNum(0.0))
  }

  lemma RecordsNameOrdersCons(rec: map<string, Json>, records: seq<map<string, Json>>,
                              order: Action, orders: seq<Action>, k: nat, g: Replies)
    requires RecordsNameOrders(records, orders, k + 1, g)
    requires order.PlaceOrder? && g.orderIds(k).Success?
    requires rec == StopRecord(g.orderIds(k).value, g.clock(k), JNum(order.size), JNum(0.0))
    ensures RecordsNameOrders([rec] + records, [order] + orders, k, g)
  {
    var rs, os := [rec] + records, [order] + orders;
    forall n | 0 <= n < |rs|
      ensures && os[n].PlaceOrder?
              && g.orderIds(k + n).Success?
              && rs[n] == StopRecord(g.orderIds(k + n).value, g.clock(k + n), JNum(os[n].size), JNum(0.0))
    {
      if n > 0 {
        assert rs[n] == records[n - 1] && os[n] == orders[n - 1];
        assert k + n == (k + 1) + (n - 1);
      }
    }
  }

  /** The records of the flatten loop name the orders it placed, in order. */
  lemma {:induction false} FlattenRecords(entries: seq<SummaryEntry>, i: nat, k: nat, moq: real, g: Replies)
    requires i <= |entries|
    decreases |entries| - i
    ensures var r := Flatten(entries, i, k, moq, g);
      RecordsNameOrders(Writes(r.actions), Orders(r.actions), k, g)
  {
    if i < |entries| {
      var e := entries[i];
      if e.sumPositionQuantity >= moq {
        if g.orderIds(k).Failure? {
          assert Flatten(entries, i, k, moq, g) == Run([FlattenOrder(e)], Fail(g.orderIds(k).error));
          assert Writes([FlattenOrder(e)]) == [];
        } else {
          FlattenRecords(entries, i + 1, k + 1, moq, g);
          var rest := Flatten(entries, i + 1, k + 1, moq, g);
          var rec := StopRecord(g.orderIds(k).value, g.clock(k), JNum(e.sumPositionQuantity), JNum(0.0));
          var head := [FlattenOrder(e), WriteOrderHistory(rec)];
          OrdersAppend(head, rest.actions);
          WritesAppend(head, rest.actions);
          assert Flatten(entries, i, k, moq, g) == Then(head, rest);
          assert Orders(head) == [FlattenOrder(e)];
          assert Writes(head) == [rec];
          RecordsNameOrdersCons(rec, Writes(rest.actions), FlattenOrder(e), Orders(rest.actions), k, g);
        }
      } else {
        FlattenRecords(entries, i + 1, k, moq, g);
        assert Flatten(entries, i, k, moq, g) == Flatten(entries, i + 1, k, moq, g);
      }
    } else {
      assert Writes([]) == [];
    }
  }

  /** The flatten loop completes when every order from the k-th on goes through. */
  lemma {:induction false} FlattenCompletes(entries: seq<SummaryEntry>, i: nat, k: nat, moq: real, g: Replies)
    requires i <= |entries|
    requires forall j :: k <= j ==> g.orderIds(j).Success?
    decreases |entries| - i
    ensures Flatten(entries, i, k, moq, g).outcome == Pass
  {
    if i < |entries| {
      if entries[i].sumPositionQuantity >= moq {
        FlattenCompletes(entries, i + 1, k + 1, moq, g);
      } else {
        FlattenCompletes(entries, i + 1, k, moq, g);
      }
    }
  }

  /** Exactly two cancels precede the position fetch: the fetch happens only
      when both cancels went through, the run opens with wait 1 s, cancel,
      wait 5 s, cancel, fetch, and nothing after the fetch cancels, fetches
      again or waits. */
  lemma CancelsPrecedeFetch(moq: real, g: Replies)
    ensures var r := CancelAndLiquidateRun(moq, g);
      && (FetchPosition in r.actions <==> g.firstCancel.Pass? && g.secondCancel.Pass?)
      && (FetchPosition in r.actions ==>
            && r.actions[..5] == ShutdownPrefix
            && forall a :: a in r.actions[5..] ==> a.PlaceOrder? || a.WriteOrderHistory?)
      && r.actions[0] == Sleep(1.0) && r.actions[1] == CancelAllOrders
  {
    var r := CancelAndLiquidateRun(moq, g);
    if g.firstCancel.Pass? && g.secondCancel.Pass? && g.summary.Success? {
      FlattenShape(g.summary.value, 0, 0, moq, g);
      assert r.actions[5..] == Flatten(g.summary.value, 0, 0, moq, g).actions;
    }
    if g.firstCancel.Pass? && g.secondCancel.Pass? {
      assert r.actions[4] == FetchPosition;
    }
  }

  /** When both cancels and the summary went through, the orders placed follow
      the plan — every entry at or above moq, on the opposite side, at its
      size, in summary order — and cover all of it when the run completes,
      with one audit record per order; the run completes whenever every order
      goes through; and every order placed is a MARKET bulk close. */
  lemma FlattenDecisions(moq: real, g: Replies)
    requires g.firstCancel.Pass? && g.secondCancel.Pass? && g.summary.Success?
    ensures var r := CancelAndLiquidateRun(moq, g);
      var plan := Plan(g.summary.value, moq);
      && Orders(r.actions) <= plan
      && (r.outcome.Pass? ==> Orders(r.actions) == plan && |Writes(r.actions)| == |plan|)
      && ((forall j :: g.orderIds(j).Success?) ==> r.outcome.Pass?)
      && (forall a :: a in Orders(r.actions) ==> a.path == CloseBulkOrderPath && a.orderType == "MARKET")
  {
    var f := Flatten(g.summary.value, 0, 0, moq, g);
    assert CancelAndLiquidateRun(moq, g) == Then(ShutdownPrefix, f);
    FlattenFollowsPlan(g.summary.value, 0, 0, moq, g);
    if forall j :: g.orderIds(j).Success? {
      FlattenCompletes(g.summary.value, 0, 0, moq, g);
    }
    assert g.summary.value[0..] == g.summary.value;
    OrdersAppend(ShutdownPrefix, f.actions);
    WritesAppend(ShutdownPrefix, f.actions);
    PrefixMembers(Orders(f.actions), Plan(g.summary.value, moq));
  }

  /** What a prefix holds, the whole sequence holds. */
  lemma PrefixMembers(xs: seq<Action>, ys: seq<Action>)
    requires xs <= ys
    ensures forall a :: a in xs ==> a in ys
  {
    forall a | a in xs
      ensures a in ys
    {
      var n :| 0 <= n < |xs| && xs[n] == a;
      assert ys[n] == a;
    }
  }

  /** Every audit record of a shutdown directly follows its order and carries
      kind "Bot Stop Liquidation", price 0, position 0 and the order's size;
      the n-th record holds the id the gateway returned for the n-th order;
      the orders outnumber the records only by one refused order. */
  lemma AuditsFollowTheirOrders(moq: real, g: Replies)
    ensures var r := CancelAndLiquidateRun(moq, g);
      && AuditsFollowOrders(r.actions)
      && |Writes(r.actions)| <= |Orders(r.actions)| <= |Writes(r.actions)| + 1
      && (r.outcome.Pass? ==> |Orders(r.actions)| == |Writes(r.actions)|)
      && RecordsNameOrders(Writes(r.actions), Orders(r.actions), 0, g)
  {
    AuditsInPlace(moq, g);
    AuditsNameTheirOrders(moq, g);
  }

  /** Every audit record of a shutdown directly follows its order, and the
      orders outnumber the records only by one refused order. */
  lemma AuditsInPlace(moq: real, g: Replies)
    ensures var r := CancelAndLiquidateRun(moq, g);
      && AuditsFollowOrders(r.actions)
      && |Writes(r.actions)| <= |Orders(r.actions)| <= |Writes(r.actions)| + 1
      && (r.outcome.Pass? ==> |Orders(r.actions)| == |Writes(r.actions)|)
  {
    var r := CancelAndLiquidateRun(moq, g);
    if g.firstCancel.Fail? {
      assert r.actions == [Sleep(1.0), CancelAllOrders];
      NoAudits(r.actions);
    } else if g.secondCancel.Fail? {
      assert r.actions == [Sleep(1.0), CancelAllOrders, Sleep(5.0), CancelAllOrders];
      NoAudits(r.actions);
    } else if g.summary.Failure? {
      assert r.actions == ShutdownPrefix;
      NoAudits(ShutdownPrefix);
    } else {
      var f := Flatten(g.summary.value, 0, 0, moq, g);
      assert r == Then(ShutdownPrefix, f);
      FlattenShape(g.summary.value, 0, 0, moq, g);
      FlattenFollowsPlan(g.summary.value, 0, 0, moq, g);
      NoAudits(ShutdownPrefix);
      OrdersAppend(ShutdownPrefix, f.actions);
      WritesAppend(ShutdownPrefix, f.actions);
      AuditsAfterPrefix(ShutdownPrefix, f.actions);
    }
  }

  /** The n-th audit record of a shutdown names the id the gateway gave its
      n-th order, the clock read when writing it, and that order's size. */
  lemma AuditsNameTheirOrders(moq: real, g: Replies)
    ensures var r := CancelAndLiquidateRun(moq, g);
      RecordsNameOrders(Writes(r.actions), Orders(r.actions), 0, g)
  {
    var r := CancelAndLiquidateRun(moq, g);
    if g.firstCancel.Fail? {
      assert r.actions == [Sleep(1.0), CancelAllOrders];
      NoAudits(r.actions);
    } else if g.secondCancel.Fail? {
      assert r.actions == [Sleep(1.0), CancelAllOrders, Sleep(5.0), CancelAllOrders];
      NoAudits(r.actions);
    } else if g.summary.Failure? {
      assert r.actions == ShutdownPrefix;
      NoAudits(ShutdownPrefix);
    } else {
      var f := Flatten(g.summary.value, 0, 0, moq, g);
      assert r == Then(ShutdownPrefix, f);
      FlattenRecords(g.summary.value, 0, 0, moq, g);
      NoAudits(ShutdownPrefix);
      OrdersAppend(ShutdownPrefix, f.actions);
      WritesAppend(ShutdownPrefix, f.actions);
      assert Orders(r.actions) == Orders(f.actions) && Writes(r.actions) == Writes(f.actions);
    }
  }

  /** Actions without orders or records have no audits out of place. */
  lemma {:induction false} NoAudits(actions: seq<Action>)
    requires forall a :: a in actions ==> !a.WriteOrderHistory? && !a.PlaceOrder?
    ensures AuditsFollowOrders(actions) && Orders(actions) == [] && Writes(actions) == []
  {
    if actions != [] {
      assert forall a :: a in actions[1..] ==> a in actions;
      NoAudits(actions[1..]);
    }
  }

  /** A prefix without records keeps the records of what follows it in place,
      provided what follows does not open with a record. */
  lemma AuditsAfterPrefix(p: seq<Action>, f: seq<Action>)
    requires forall a :: a in p ==> !a.WriteOrderHistory?
    requires |f| > 0 ==> !f[0].WriteOrderHistory?
    requires AuditsFollowOrders(f)
    ensures AuditsFollowOrders(p + f)
  {
    var acts := p + f;
    forall j | 0 <= j < |acts| && acts[j].WriteOrderHistory?
      ensures 0 < j && acts[j - 1].PlaceOrder? && IsFlattenRecord(acts[j].record, acts[j - 1].size)
    {
      if j < |p| {
        assert false;
      }
      assert acts[j] == f[j - |p|];
      if j == |p| {
        assert false;
      }
      assert acts[j - 1] == f[j - |p| - 1];
    }
  }

  /** An empty summary, or one whose entries are all below moq, places no order
      and writes no record: the run is just the cancels and the fetch. */
  lemma NothingToFlatten(moq: real, g: Replies)
    requires g.firstCancel.Pass? && g.secondCancel.Pass? && g.summary.Success?
    requires forall e :: e in g.summary.value ==> e.sumPositionQuantity < moq
    ensures CancelAndLiquidateRun(moq, g) == Run(ShutdownPrefix, Pass)
  {
    var entries := g.summary.value;
    SkipAllBelow(entries, 0, 0, moq, g);
    assert ShutdownPrefix + [] == ShutdownPrefix;
  }

  lemma {:induction false} SkipAllBelow(entries: seq<SummaryEntry>, i: nat, k: nat, moq: real, g: Replies)
    requires i <= |entries|
    requires forall e :: e in entries ==> e.sumPositionQuantity < moq
    decreases |entries| - i
    ensures Flatten(entries, i, k, moq, g) == Run([], Pass)
  {
    if i < |entries| {
      assert entries[i] in entries;
      SkipAllBelow(entries, i + 1, k, moq, g);
    }
  }

  /** The position `fetch_my_position` reports is the first one the shutdown
      flattens when it is at or above moq and the order goes through. */
  lemma FetchedPositionIsFlattenedFirst(moq: real, g: Replies)
    requires g.firstCancel.Pass? && g.secondCancel.Pass?
    requires FetchMyPosition(g.summary).Success? && FetchMyPosition(g.summary).value.Some?
    requires FetchMyPosition(g.summary).value.value.size >= moq
    requires g.orderIds(0).Success?
    ensures var p := FetchMyPosition(g.summary).value.value;
      CancelAndLiquidateRun(moq, g).actions[5] == PlaceOrder(CloseBulkOrderPath, "MARKET", Opposite(p.side), p.size)
  {
  }

  /** A stop closes the history files exactly when liquidation completed, and
      only as its last step. */
  lemma StopClosesAfterLiquidation(g: Replies)
    ensures var s := StopRun(g);
      var r := CancelAndLiquidateRun(DefaultMoq, g);
      && s.outcome == r.outcome
      && (CloseOrderHistoryFiles in s.actions <==> r.outcome.Pass?)
      && (r.outcome.Pass? ==> s.actions == r.actions + [CloseOrderHistoryFiles])
  {
    var r := CancelAndLiquidateRun(DefaultMoq, g);
    if g.firstCancel.Pass? && g.secondCancel.Pass? && g.summary.Success? {
      FlattenShape(g.summary.value, 0, 0, DefaultMoq, g);
      assert r.actions == ShutdownPrefix + Flatten(g.summary.value, 0, 0, DefaultMoq, g).actions;
    }
  }

  /** A long of 0.5 with moq 0.01 is closed by one market SELL of 0.5 and one record. */
  lemma LongIsSold(g: Replies)
    requires g.firstCancel.Pass? && g.secondCancel.Pass?
    requires g.summary == Success([SummaryEntry("BUY", 0.5)]) && g.orderIds(0).Success?
    ensures var r := CancelAndLiquidateRun(DefaultMoq, g);
      && r.outcome == Pass
      && Orders(r.actions) == [PlaceOrder(CloseBulkOrderPath, "MARKET", "SELL", 0.5)]
      && |Writes(r.actions)| == 1
  {
    FlattenDecisions(DefaultMoq, g);
    var r := CancelAndLiquidateRun(DefaultMoq, g);
    assert Plan([SummaryEntry("BUY", 0.5)], DefaultMoq) == [PlaceOrder(CloseBulkOrderPath, "MARKET", "SELL", 0.5)];
    assert Flatten([SummaryEntry("BUY", 0.5)], 1, 1, DefaultMoq, g) == Run([], Pass);
  }

  /** The GMO Coin client. */
  class GmoClient {
    const bot: BotBase
    const symbol: string
    /** The gateway calls, sleeps and audit writes made so far. */
    var trace: seq<Action>

    constructor (bot: BotBase, symbol: string)
      modifies bot
      ensures this.bot == bot && this.symbol == symbol && trace == []
      ensures bot.columns == OrderHistoryColumns && bot.stopFlag == old(bot.stopFlag)
      ensures bot.infoLog == old(bot.infoLog)
    {
      this.bot := bot;
      this.symbol := symbol;
      trace := [];
      new;
      bot.columns := OrderHistoryColumns;
    }

    /** `_replace_order`: "create" posts to /private/v1/order with a size,
        "liquidate" to /private/v1/closeOrder with one settle position, any
        other mode to /private/v1/closeBulkOrder with a size; a price is added
        exactly for LIMIT and STOP orders. */
    method ReplaceOrder(side: string, size: real, orderType: string, price: Option<real>,
                        createOrLiquidate: Option<string>, positionId: Option<int>,
                        timeInForce: Option<string>, cancelBefore: bool)
      returns (req: Request)
      ensures createOrLiquidate == Some("create") ==> req.url == "/private/v1/order"
      ensures createOrLiquidate == Some("liquidate") ==> req.url == "/private/v1/closeOrder"
      ensures createOrLiquidate != Some("create") && createOrLiquidate != Some("liquidate") ==>
        req.url == "/private/v1/closeBulkOrder"
      ensures req.body.Keys == OrderKeys(if createOrLiquidate == Some("liquidate") then "settlePosition" else "size",
                                         orderType == "LIMIT" || orderType == "STOP")
      ensures req.body["symbol"] == JStr(symbol) && req.body["side"] == JStr(side)
      ensures req.body["executionType"] == JStr(orderType) && req.body["timeInForce"] == OptStr(timeInForce)
      ensures req.body["cancelBefore"] == JBool(cancelBefore)
      ensures createOrLiquidate == Some("liquidate") ==>
        req.body["settlePosition"] == JList([JObject(map["positionId" := OptInt(positionId), "size" := JNum(size)])])
      ensures createOrLiquidate != Some("liquidate") ==> req.body["size"] == JNum(size)
      ensures "price" in req.body <==> orderType == "LIMIT" || orderType == "STOP"
      ensures "price" in req.body ==> req.body["price"] == OptNum(price)
    {
      var data := map[
        "symbol" := JStr(symbol),
        "side" := JStr(side),
        "executionType" := JStr(orderType),
        "timeInForce" := OptStr(timeInForce),
        "cancelBefore" := JBool(cancelBefore)
      ];
      var url;
      if createOrLiquidate == Some("create") {
        url := "/private/v1/order";
        data := data["size" := JNum(size)];
      } else if createOrLiquidate == Some("liquidate") {
        url := "/private/v1/closeOrder";
        data := data["settlePosition" := JList([JObject(map["positionId" := OptInt(positionId), "size" := JNum(size)])])];
      } else {
        url := "/private/v1/closeBulkOrder";
        data := data["size" := JNum(size)];
      }
      if orderType == "LIMIT" || orderType == "STOP" {
        data := data["price" := OptNum(price)];
      }
      req := Request(url, data);
    }

    /** `market_order`: a new market order, without a price. */
    method MarketOrder(side: string, size: real, timeInForce: Option<string>, cancelBefore: bool)
      returns (req: Request)
      ensures req.body.Keys == OrderKeys("size", false)
      ensures req.url == "/private/v1/order" && "price" !in req.body
      ensures req.body["executionType"] == JStr("MARKET") && req.body["side"] == JStr(side)
      ensures req.body["size"] == JNum(size)
      ensures req.body["symbol"] == JStr(symbol) && req.body["timeInForce"] == OptStr(timeInForce)
      ensures req.body["cancelBefore"] == JBool(cancelBefore)
    {
      req := ReplaceOrder(side, size, "MARKET", None, Some("create"), None, timeInForce, cancelBefore);
    }

    /** `limit_order`: a new limit order at `price`. */
    method LimitOrder(side: string, size: real, price: real, timeInForce: Option<string>, cancelBefore: bool)
      returns (req: Request)
      ensures req.body.Keys == OrderKeys("size", true)
      ensures req.url == "/private/v1/order" && req.body["price"] == JNum(price)
      ensures req.body["executionType"] == JStr("LIMIT") && req.body["side"] == JStr(side)
      ensures req.body["size"] == JNum(size)
      ensures req.body["symbol"] == JStr(symbol) && req.body["timeInForce"] == OptStr(timeInForce)
      ensures req.body["cancelBefore"] == JBool(cancelBefore)
    {
      req := ReplaceOrder(side, size, "LIMIT", Some(price), Some("create"), None, timeInForce, cancelBefore);
    }

    /** `settle_market`: closes one position at market, without a price. */
    method SettleMarket(side: string, size: real, positionId: int, timeInForce: Option<string>, cancelBefore: bool)
      returns (req: Request)
      ensures req.body.Keys == OrderKeys("settlePosition", false)
      ensures req.url == "/private/v1/closeOrder" && "price" !in req.body && "size" !in req.body
      ensures req.body["executionType"] == JStr("MARKET") && req.body["side"] == JStr(side)
      ensures req.body["settlePosition"] == JList([JObject(map["positionId" := JNum(positionId as real), "size" := JNum(size)])])
      ensures req.body["symbol"] == JStr(symbol) && req.body["timeInForce"] == OptStr(timeInForce)
      ensures req.body["cancelBefore"] == JBool(cancelBefore)
    {
      req := ReplaceOrder(side, size, "MARKET", None, Some("liquidate"), Some(positionId), timeInForce, cancelBefore);
    }

    /** `settle_limit`: closes one position at `price`. */
    method SettleLimit(side: string, size: real, price: real, positionId: int, timeInForce: Option<string>,
                       cancelBefore: bool)
      returns (req: Request)
      ensures req.body.Keys == OrderKeys("settlePosition", true)
      ensures req.url == "/private/v1/closeOrder" && req.body["price"] == JNum(price)
      ensures req.body["executionType"] == JStr("LIMIT") && req.body["side"] == JStr(side)
      ensures req.body["settlePosition"] == JList([JObject(map["positionId" := JNum(positionId as real), "size" := JNum(size)])])
      ensures req.body["symbol"] == JStr(symbol) && req.body["timeInForce"] == OptStr(timeInForce)
      ensures req.body["cancelBefore"] == JBool(cancelBefore)
    {
      req := ReplaceOrder(side, size, "LIMIT", Some(price), Some("liquidate"), Some(positionId), timeInForce, cancelBefore);
    }

    /** `liquidate_order_market`: closes positions in bulk at market, without a price. */
    method LiquidateOrderMarket(side: string, size: real, timeInForce: Option<string>, cancelBefore: bool)
      returns (req: Request)
      ensures req.body.Keys == OrderKeys("size", false)
      ensures req.url == "/private/v1/closeBulkOrder" && "price" !in req.body
      ensures req.body["executionType"] == JStr("MARKET") && req.body["side"] == JStr(side)
      ensures req.body["size"] == JNum(size)
      ensures req.body["symbol"] == JStr(symbol) && req.body["timeInForce"] == OptStr(timeInForce)
      ensures req.body["cancelBefore"] == JBool(cancelBefore)
    {
      req := ReplaceOrder(side, size, "MARKET", None, Some("liquidate_all"), None, timeInForce, cancelBefore);
    }

    /** `liquidate_order_limit`: closes positions in bulk at `price`. */
    method LiquidateOrderLimit(side: string, size: real, price: real, timeInForce: Option<string>, cancelBefore: bool)
      returns (req: Request)
      ensures req.body.Keys == OrderKeys("size", true)
      ensures req.url == "/private/v1/closeBulkOrder" && req.body["price"] == JNum(price)
      ensures req.body["executionType"] == JStr("LIMIT") && req.body["side"] == JStr(side)
      ensures req.body["size"] == JNum(size)
      ensures req.body["symbol"] == JStr(symbol) && req.body["timeInForce"] == OptStr(timeInForce)
      ensures req.body["cancelBefore"] == JBool(cancelBefore)
    {
      req := ReplaceOrder(side, size, "LIMIT", Some(price), Some("liquidate_all"), None, timeInForce, cancelBefore);
    }

    /** `cancel_all_orders`, whose classified reply is `reply`. */
    method CancelAll(reply: Outcome<Error>) returns (o: Outcome<Error>)
      modifies this
      ensures trace == old(trace) + [CancelAllOrders] && o == reply
    {
      trace := trace + [CancelAllOrders];
      o := reply;
    }

    /** `position_summary`, whose classified reply is `reply`. */
    method PositionSummary(reply: Result<seq<SummaryEntry>, Error>) returns (r: Result<seq<SummaryEntry>, Error>)
      modifies this
      ensures trace == old(trace) + [FetchPosition] && r == reply
    {
      trace := trace + [FetchPosition];
      r := reply;
    }

    /** One pass of the flatten loop for an entry at or above moq: the market
        close on the other side, then its record once the order has an id. */
    method FlattenEntry(e: SummaryEntry, k: nat, g: Replies) returns (err: Option<Error>)
      modifies this
      ensures g.orderIds(k).Failure? ==> err == Some(g.orderIds(k).error) && trace == old(trace) + [FlattenOrder(e)]
      ensures g.orderIds(k).Success? ==> err == None && trace == old(trace) + [FlattenOrder(e),
        WriteOrderHistory(StopRecord(g.orderIds(k).value, g.clock(k), JNum(e.sumPositionQuantity), JNum(0.0)))]
    {
      var size := e.sumPositionQuantity;
      var side := Opposite(e.side);
      var req := LiquidateOrderMarket(side, size, None, false);
      trace := trace + [PlaceOrder(req.url, "MARKET", side, size)];
      var reply := g.orderIds(k);
      if reply.Failure? {
        return Some(reply.error);
      }
      var orderHistory := StopRecord(reply.value, g.clock(k), JNum(size), JNum(0.0));
      trace := trace + [WriteOrderHistory(orderHistory)];
      err := None;
    }

    /** The flatten loop of `_cancel_and_liquidate` over the summary's entries. */
    method FlattenAll(entries: seq<SummaryEntry>, moq: real, g: Replies) returns (o: Outcome<Error>)
      modifies this
      ensures trace == old(trace) + Flatten(entries, 0, 0, moq, g).actions
      ensures o == Flatten(entries, 0, 0, moq, g).outcome
    {
      var i, k := 0, 0;
      while i < |entries|
        invariant 0 <= i <= |entries|
        invariant trace + Flatten(entries, i, k, moq, g).actions == old(trace) + Flatten(entries, 0, 0, moq, g).actions
        invariant Flatten(entries, i, k, moq, g).outcome == Flatten(entries, 0, 0, moq, g).outcome
      {
        if entries[i].sumPositionQuantity >= moq {
          var err := FlattenEntry(entries[i], k, g);
          if err.Some? {
            return Fail(err.value);
          }
          k := k + 1;
        }
        i := i + 1;
      }
      o := Pass;
    }

    /** The two cancels of `_cancel_and_liquidate`: wait 1 s, cancel, and, when
        that went through, wait 5 s and cancel again. */
    method CancelTwice(g: Replies) returns (o: Outcome<Error>)
      modifies this
      ensures g.firstCancel.Fail? ==> o == g.firstCancel && trace == old(trace) + [Sleep(1.0), CancelAllOrders]
      ensures g.firstCancel.Pass? ==>
        o == g.secondCancel && trace == old(trace) + [Sleep(1.0), CancelAllOrders, Sleep(5.0), CancelAllOrders]
    {
      trace := trace + [Sleep(1.0)];
      o := CancelAll(g.firstCancel);
      if o.Fail? {
        return;
      }
      trace := trace + [Sleep(5.0)];
      o := CancelAll(g.secondCancel);
    }

    /** `_cancel_and_liquidate`. */
    method CancelAndLiquidate(moq: real, g: Replies) returns (o: Outcome<Error>)
      modifies this
      ensures trace == old(trace) + CancelAndLiquidateRun(moq, g).actions
      ensures o == CancelAndLiquidateRun(moq, g).outcome
    {
      o := CancelTwice(g);
      if o.Fail? {
        if g.firstCancel.Fail? {
          assert CancelAndLiquidateRun(moq, g) == Run([Sleep(1.0), CancelAllOrders], g.firstCancel);
        } else {
          assert CancelAndLiquidateRun(moq, g) == Run([Sleep(1.0), CancelAllOrders, Sleep(5.0), CancelAllOrders], g.secondCancel);
        }
        return;
      }
      var summary := PositionSummary(g.summary);
      assert summary == g.summary;
      if summary.Failure? {
        assert CancelAndLiquidateRun(moq, g) == Run(ShutdownPrefix, Fail(summary.error));
        return Fail(summary.error);
      }
      assert trace == old(trace) + ShutdownPrefix;
      o := FlattenAll(summary.value, moq, g);
      assert CancelAndLiquidateRun(moq, g) == Then(ShutdownPrefix, Flatten(summary.value, 0, 0, moq, g));
    }

    /** `stop`: raises the stop flag, liquidates with the default moq, and closes
        the history files once liquidation has completed. */
    method Stop(g: Replies) returns (o: Outcome<Error>)
      modifies this, bot
      ensures bot.stopFlag && bot.infoLog == old(bot.infoLog) + ["Logic has been stopped."]
      ensures trace == old(trace) + StopRun(g).actions
      ensures o == StopRun(g).outcome
    {
      bot.Stop();
      o := CancelAndLiquidate(DefaultMoq, g);
      if o.Fail? {
        return;
      }
      trace := trace + [CloseOrderHistoryFiles];
    }
  }
}
