/** What proves that an order was placed, and what it did (cn_futures_bridge/terminal/verification.py,
    terminal/tracking.py:82-119).

    Rows arrive parsed.  How a message is worded and whether a price prints as a plain number is the parameter `Texts`.
 */
module Verification {
  import opened Base

  datatype Side = Buy | Sell

  datatype Offset = Open | Close | CloseToday | CloseYesterday | UnknownOffset

  datatype Status = Pending | Opened | PartiallyFilled | Filled | Cancelled | Rejected | UnknownStatus

  datatype Order = Order(orderId: Option<string>, exchange: nat, instrument: string, side: Side, offset: Offset,
                         volume: nat, filled: nat, remaining: nat, price: Option<real>, status: Status,
                         message: string, time: string)

  datatype Trade = Trade(tradeId: string, orderId: Option<string>, exchange: nat, instrument: string, side: Side,
                         offset: Offset, volume: nat, price: real, time: string)

  datatype Position = Position(exchange: nat, instrument: string, long: bool, hedge: nat, volume: nat,
                               today: Option<int>, yesterday: Option<int>, available: Option<int>,
                               averagePrice: Option<real>, margin: Option<real>, profit: Option<real>)

  datatype Problem = DataInvalid | IdentityAmbiguous | Other(code: nat)

  datatype Place = Place(exchange: nat, instrument: string)

  datatype Identity = Identity(exchange: nat, instrument: string, front: int, session: int, orderRef: string) {
    function At(): Place { Place(exchange, instrument) }
  }

  /** An order as the terminal's memory shows it; an empty id is an order without one. */
  datatype NativeOrder = NativeOrder(front: int, session: int, exchange: nat, instrument: string, orderRef: string,
                                     side: int, offset: int, orderId: string, volume: nat, filled: nat, remaining: nat,
                                     price: real, message: string, time: string)

  datatype TradeLink = TradeLink(tradeId: string, orderId: Option<string>)

  datatype Tracked = Tracked(orders: seq<NativeOrder>, trades: seq<TradeLink>)

  datatype Texts = Texts(refuses: string -> bool, withdrawn: string -> bool, submitted: string -> bool,
                         prints: real -> bool)

  // ----- One order, from two sources -----

  function NativeStatus(t: Texts, n: NativeOrder): Status {
    if t.refuses(n.message) then Rejected
    else if t.withdrawn(n.message) then Cancelled
    else if n.volume > 0 && n.filled == n.volume then Filled
    else if n.filled > 0 && n.remaining > 0 then PartiallyFilled
    else if t.submitted(n.message) then Opened
    else Pending
  }

  predicate Refers(n: NativeOrder, id: Identity) {
    n.front == id.front && n.session == id.session && n.exchange == id.exchange && n.instrument == id.instrument
    && n.orderRef == id.orderRef
  }

  function AsOrder(t: Texts, n: NativeOrder, id: Identity): Result<Order, Problem> {
    if !Refers(n, id) || (n.side != 0 && n.side != 1) then Err(DataInvalid)
    else if n.filled + n.remaining > n.volume || !t.prints(n.price) then Err(DataInvalid)
    else Ok(Order(if n.orderId == "" then None else Some(n.orderId), id.exchange, id.instrument,
                  if n.side == 0 then Buy else Sell,
                  if n.offset == 0 then Open else if n.offset == 3 then Close else UnknownOffset,
                  n.volume, n.filled, n.remaining, Some(n.price), NativeStatus(t, n), n.message, n.time))
  }

  predicate Names(row: Order, at: Place, orderId: Option<string>) {
    row.exchange == at.exchange && row.instrument == at.instrument && row.orderId == orderId
  }

  function Named(rows: seq<Order>, at: Place, orderId: Option<string>): seq<Order> {
    if rows == [] then []
    else (if Names(rows[0], at, orderId) then [rows[0]] else []) + Named(rows[1..], at, orderId)
  }

  predicate Agrees(row: Order, native: Order) {
    row.volume == native.volume && row.side == native.side && row.price == native.price
    && (native.offset != UnknownOffset ==> row.offset == native.offset)
  }

  /** The order of this identity, and whether both sources have settled it. */
  function ExactOrder(t: Texts, id: Identity, tracked: Tracked, rows: seq<Order>): Result<(seq<Order>, bool), Problem> {
    if |tracked.orders| > 1 then Err(IdentityAmbiguous)
    else if tracked.orders == [] then Ok(([], false))
    else
      match AsOrder(t, tracked.orders[0], id)
      case Err(e) => Err(e)
      case Ok(native) =>
        if native.orderId.None? then Ok(([native], native.status == Rejected))
        else
          var selected := Named(rows, id.At(), native.orderId);
          if |selected| > 1 then Err(IdentityAmbiguous)
          else if selected == [] then Ok(([native], false))
          else if !Agrees(selected[0], native) then Err(DataInvalid)
          else Ok((selected, true))
  }

  /** The exported row is the only one of its name, and nothing in it contradicts the terminal's memory. */
  ghost predicate OnlyRow(rows: seq<Order>, at: Place, order: Order) {
    exists i :: 0 <= i < |rows| && rows[i] == order
                && forall j :: 0 <= j < |rows| ==> (Names(rows[j], at, order.orderId) <==> i == j)
  }

  ghost predicate Settled(t: Texts, id: Identity, tracked: Tracked, rows: seq<Order>, order: Order) {
    && |tracked.orders| == 1 && Refers(tracked.orders[0], id) && AsOrder(t, tracked.orders[0], id).Ok?
    && var native := AsOrder(t, tracked.orders[0], id).value;
       if native.orderId.None? then order == native && order.status == Rejected
       else order.orderId == native.orderId && OnlyRow(rows, id.At(), order) && Agrees(order, native)
  }

  lemma {:induction false} NamedIsOne(rows: seq<Order>, at: Place, orderId: Option<string>, i: nat)
    requires i < |rows| && Names(rows[i], at, orderId)
    ensures |Named(rows, at, orderId)| >= 1
    ensures |Named(rows, at, orderId)| == 1 <==>
              forall j :: 0 <= j < |rows| ==> (Names(rows[j], at, orderId) <==> i == j)
    ensures |Named(rows, at, orderId)| == 1 ==> Named(rows, at, orderId) == [rows[i]]
  {
    var rest := rows[1..];
    if i > 0 {
      assert rest[i - 1] == rows[i];
      NamedIsOne(rest, at, orderId, i - 1);
      assert forall j :: 0 < j < |rows| ==> rows[j] == rest[j - 1];
      assert forall j :: 0 <= j < |rest| ==> rest[j] == rows[j + 1];
    } else {
      NamedIsNone(rest, at, orderId);
      assert forall j :: 0 < j < |rows| ==> rows[j] == rest[j - 1];
      assert forall j :: 0 <= j < |rest| ==> rest[j] == rows[j + 1];
    }
  }

  lemma {:induction false} NamedIsNone(rows: seq<Order>, at: Place, orderId: Option<string>)
    ensures Named(rows, at, orderId) == [] <==> forall j :: 0 <= j < |rows| ==> !Names(rows[j], at, orderId)
  {
    if rows != [] {
      NamedIsNone(rows[1..], at, orderId);
      assert forall j :: 0 < j < |rows| ==> rows[j] == rows[1..][j - 1];
      assert forall j :: 0 <= j < |rows| - 1 ==> rows[1..][j] == rows[j + 1];
    }
  }

  lemma SelectedIsOnlyRow(rows: seq<Order>, at: Place, orderId: Option<string>, order: Order)
    ensures Named(rows, at, orderId) == [order] <==> order.orderId == orderId && OnlyRow(rows, at, order)
  {
    NamedIsNone(rows, at, orderId);
    if i :| 0 <= i < |rows| && Names(rows[i], at, orderId) {
      NamedIsOne(rows, at, orderId, i);
    }
  }

  /** The status the terminal's own words and counts amount to: a refusal before a withdrawal before the volume. */
  lemma NativeStatusIsExact(t: Texts, n: NativeOrder)
    ensures var refused, withdrawn := t.refuses(n.message), t.withdrawn(n.message);
            var full := n.volume > 0 && n.filled == n.volume; var partly := n.filled > 0 && n.remaining > 0;
            var left := !refused && !withdrawn;
            && (NativeStatus(t, n) == Rejected <==> refused)
            && (NativeStatus(t, n) == Cancelled <==> !refused && withdrawn)
            && (NativeStatus(t, n) == Filled <==> left && full)
            && (NativeStatus(t, n) == PartiallyFilled <==> left && !full && partly)
            && (NativeStatus(t, n) == Opened <==> left && !full && !partly && t.submitted(n.message))
            && (NativeStatus(t, n) == Pending <==> left && !full && !partly && !t.submitted(n.message))
  {
  }

  /** When the terminal's memory of an order can be used, and what it says. */
  lemma NativeOrderIsExact(t: Texts, n: NativeOrder, id: Identity)
    ensures AsOrder(t, n, id).Ok? <==>
              && n.front == id.front && n.session == id.session && n.exchange == id.exchange
              && n.instrument == id.instrument && n.orderRef == id.orderRef && n.side in {0, 1}
              && n.filled + n.remaining <= n.volume && t.prints(n.price)
    ensures AsOrder(t, n, id).Ok? ==>
              var order := AsOrder(t, n, id).value;
              && (order.orderId.None? <==> n.orderId == "")
              && (order.orderId.Some? ==> order.orderId == Some(n.orderId))
              && order.exchange == id.exchange && order.instrument == id.instrument
              && (order.side == Buy <==> n.side == 0) && (order.offset == Open <==> n.offset == 0)
              && (order.offset == Close <==> n.offset == 3)
              && order.volume == n.volume && order.filled == n.filled && order.remaining == n.remaining
              && order.price == Some(n.price) && order.status == NativeStatus(t, n)
  {
  }

  /** An order is settled by both sources exactly when it is the only native one and carries the whole identity, can be
      used, and either was refused before it had an id, or is the only exported row of its id at that place and agrees
      with the terminal's memory in volume, side, price and, where known, offset. */
  lemma SettledIsExact(t: Texts, id: Identity, tracked: Tracked, rows: seq<Order>, order: Order)
    requires |tracked.orders| == 1
    ensures Settled(t, id, tracked, rows, order) <==>
              var n := tracked.orders[0];
              && n.front == id.front && n.session == id.session && n.exchange == id.exchange
              && n.instrument == id.instrument && n.orderRef == id.orderRef && n.side in {0, 1}
              && n.filled + n.remaining <= n.volume && t.prints(n.price)
              && if n.orderId == "" then t.refuses(n.message) && order == AsOrder(t, n, id).value
                 else
                   && order.orderId == Some(n.orderId)
                   && (exists i :: 0 <= i < |rows| && rows[i] == order
                                   && forall j :: 0 <= j < |rows| ==>
                                        (i == j <==>
                                           rows[j].orderId == order.orderId && rows[j].exchange == id.exchange
                                           && rows[j].instrument == id.instrument))
                   && order.volume == n.volume && order.price == Some(n.price)
                   && order.side == (if n.side == 0 then Buy else Sell)
                   && (n.offset == 0 ==> order.offset == Open) && (n.offset == 3 ==> order.offset == Close)
  {
    var n := tracked.orders[0];
    NativeOrderIsExact(t, n, id);
    var at := id.At();
    if i :| 0 <= i < |rows| && rows[i] == order
            && forall j :: 0 <= j < |rows| ==>
                 (i == j <==>
                    rows[j].orderId == order.orderId && rows[j].exchange == id.exchange
                    && rows[j].instrument == id.instrument) {
      assert forall j :: 0 <= j < |rows| ==> (Names(rows[j], at, order.orderId) <==> i == j);
    }
    if OnlyRow(rows, at, order) {
      var i :| 0 <= i < |rows| && rows[i] == order
               && forall j :: 0 <= j < |rows| ==> (Names(rows[j], at, order.orderId) <==> i == j);
    }
  }

  /** "Complete" means settled by both sources, and at most one order is ever named. */
  lemma ExactOrderIsSettled(t: Texts, id: Identity, tracked: Tracked, rows: seq<Order>, order: Order)
    ensures ExactOrder(t, id, tracked, rows) == Ok(([order], true)) <==> Settled(t, id, tracked, rows, order)
    ensures var r := ExactOrder(t, id, tracked, rows);
            r.Ok? ==> |r.value.0| == |tracked.orders| <= 1 && (r.value.1 ==> |r.value.0| == 1)
  {
    if |tracked.orders| == 1 && AsOrder(t, tracked.orders[0], id).Ok? {
      var native := AsOrder(t, tracked.orders[0], id).value;
      SelectedIsOnlyRow(rows, id.At(), native.orderId, order);
      var selected := Named(rows, id.At(), native.orderId);
      if |selected| == 1 { assert selected == [selected[0]]; }
      assert ExactOrder(t, id, tracked, rows) == Ok(([order], true)) && native.orderId.Some? ==> selected == [order];
    }
  }
}
