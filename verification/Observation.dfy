/** Confirming an execution round by round (cn_futures_bridge/terminal/verification.py:100-174). */
module Observation {
  import opened Base
  import opened Verification

  datatype MarketOrder = MarketOrder(exchange: nat, instrument: string, side: Side, offset: Offset, volume: nat)

  /** What was actually submitted. */
  datatype Execution = Execution(price: Option<real>, goodForDay: bool)

  datatype Verdict = Observed | Unsettled | Ambiguous | Unavailable

  datatype Finding = Finding(verdict: Verdict, attempts: nat, orders: seq<Order>, trades: seq<Trade>,
                             error: Option<Problem>)

  // ----- One comparison -----

  predicate SameOffset(request: MarketOrder, offset: Offset) {
    offset == request.offset || (request.offset == Close && (offset == CloseToday || offset == CloseYesterday))
  }

  predicate Fits(order: Order, request: MarketOrder, execution: Execution) {
    order.volume == request.volume && order.price == execution.price && order.side == request.side
    && (order.offset != UnknownOffset ==> SameOffset(request, order.offset))
  }

  function Links(links: seq<TradeLink>): map<string, Option<string>> {
    if links == [] then map[]
    else var last := links[|links| - 1]; Links(links[..|links| - 1])[last.tradeId := last.orderId]
  }

  function Linked(rows: seq<Trade>, links: map<string, Option<string>>): seq<Trade> {
    if rows == [] then []
    else
      (if rows[0].tradeId in links then [rows[0].(orderId := links[rows[0].tradeId])] else [])
      + Linked(rows[1..], links)
  }

  function Volume(trades: seq<Trade>): nat {
    if trades == [] then 0 else trades[0].volume + Volume(trades[1..])
  }

  function Ids(trades: seq<Trade>): seq<string> {
    seq(|trades|, i requires 0 <= i < |trades| => trades[i].tradeId)
  }

  function LinkIds(links: seq<TradeLink>): seq<string> {
    seq(|links|, i requires 0 <= i < |links| => links[i].tradeId)
  }

  function Elements(s: seq<string>): set<string> {
    set x | x in s
  }

  predicate Belongs(trade: Trade, order: Order, request: MarketOrder) {
    trade.orderId == order.orderId && trade.side == request.side && SameOffset(request, trade.offset)
  }

  predicate Final(order: Order, execution: Execution) {
    order.status == Filled || order.status == Cancelled || order.status == Rejected
    || (execution.goodForDay && (order.status == Opened || order.status == PartiallyFilled))
  }

  predicate AllBelong(trades: seq<Trade>, order: Order, request: MarketOrder) {
    forall k :: 0 <= k < |trades| ==> Belongs(trades[k], order, request)
  }

  function Compare(t: Texts, request: MarketOrder, execution: Execution, id: Identity, tracked: Tracked,
                   orders: seq<Order>, trades: seq<Trade>, attempt: nat): Result<Finding, Problem> {
    match ExactOrder(t, id, tracked, orders)
    case Err(e) => Err(e)
    case Ok((found, complete)) =>
      if found == [] then Ok(Finding(Unsettled, attempt, [], [], None))
      else if !Fits(found[0], request, execution) then Err(DataInvalid)
      else
        var links := Links(tracked.trades);
        var own := Linked(trades, links);
        if |links| != |tracked.trades| || |Elements(Ids(own))| != |own| || !AllBelong(own, found[0], request)
        then Err(DataInvalid)
        else
          var ready := |own| == |links| && Volume(own) == found[0].filled;
          Ok(Finding(if complete && Final(found[0], execution) && ready then Observed else Unsettled, attempt, found,
                     own, None))
  }

  /** Cancelling one's own order claims nothing but that order, by its id. */
  function CompareCancel(orders: seq<Order>, at: Place, orderId: string, attempt: nat): Finding {
    var found := Named(orders, at, Some(orderId));
    Finding(if |found| == 1 && (found[0].status == Cancelled || found[0].status == Filled) then Observed else Unsettled,
            attempt, found, [], None)
  }

  /** A cancel is observed exactly when the table shows one order of this id, in its final state. */
  lemma CancelIsObservedExactly(orders: seq<Order>, at: Place, orderId: string, attempt: nat)
    ensures CompareCancel(orders, at, orderId, attempt).verdict == Observed
            <==> exists order :: OnlyRow(orders, at, order) && order.orderId == Some(orderId)
                                 && (order.status == Cancelled || order.status == Filled)
  {
    var found := Named(orders, at, Some(orderId));
    if |found| == 1 {
      assert found == [found[0]];
      SelectedIsOnlyRow(orders, at, Some(orderId), found[0]);
    }
    forall order | OnlyRow(orders, at, order) && order.orderId == Some(orderId) ensures found == [order] {
      SelectedIsOnlyRow(orders, at, Some(orderId), order);
    }
  }

  // ----- Counting ids -----

  ghost predicate Distinct(s: seq<string>) {
    forall i, j :: 0 <= i < j < |s| ==> s[i] != s[j]
  }

  lemma {:induction false} DistinctIsCounted(s: seq<string>)
    ensures |Elements(s)| <= |s|
    ensures |Elements(s)| == |s| <==> Distinct(s)
  {
    if s != [] {
      var n := |s| - 1;
      DistinctIsCounted(s[..n]);
      DistinctGrows(s);
      assert Elements(s) == Elements(s[..n]) + {s[n]};
      assert s[n] in s[..n] ==> Elements(s) == Elements(s[..n]);
    }
  }

  lemma {:induction false} DistinctGrows(s: seq<string>)
    requires s != []
    ensures var n := |s| - 1; Distinct(s) <==> Distinct(s[..n]) && s[n] !in s[..n]
  {
    var n := |s| - 1;
    assert forall i :: 0 <= i < n ==> s[..n][i] == s[i];
  }

  lemma {:induction false} LinksAre(links: seq<TradeLink>)
    ensures Links(links).Keys == Elements(LinkIds(links))
    ensures Distinct(LinkIds(links)) ==> forall i :: 0 <= i < |links| ==>
              links[i].tradeId in Links(links) && Links(links)[links[i].tradeId] == links[i].orderId
  {
    if links != [] {
      var n := |links| - 1;
      LinksAre(links[..n]);
      assert LinkIds(links) == LinkIds(links[..n]) + [links[n].tradeId];
      if Distinct(LinkIds(links)) {
        assert forall i :: 0 <= i < n ==> LinkIds(links[..n])[i] == LinkIds(links)[i];
        forall i | 0 <= i < |links|
          ensures links[i].tradeId in Links(links) && Links(links)[links[i].tradeId] == links[i].orderId
        {
          assert LinkIds(links)[i] == links[i].tradeId;
          if i < n {
            assert LinkIds(links)[n] == links[n].tradeId;
            assert links[..n][i] == links[i];
          }
        }
      }
    }
  }

  /** The trade is an exported row, given the order id of its link. */
  ghost predicate IsRow(trade: Trade, rows: seq<Trade>) {
    exists j :: 0 <= j < |rows| && trade == rows[j].(orderId := trade.orderId)
  }

  ghost predicate Backed(trade: Trade, links: seq<TradeLink>) {
    exists i :: 0 <= i < |links| && trade.tradeId == links[i].tradeId && trade.orderId == links[i].orderId
  }

  ghost predicate Reported(tradeId: string, own: seq<Trade>) {
    exists k :: 0 <= k < |own| && own[k].tradeId == tradeId
  }

  lemma {:induction false} LinkedAre(rows: seq<Trade>, links: map<string, Option<string>>, k: nat)
    requires k < |Linked(rows, links)|
    ensures var own := Linked(rows, links)[k];
            own.tradeId in links && own.orderId == links[own.tradeId] && IsRow(own, rows)
  {
    var own := Linked(rows, links)[k];
    var first := rows[0].tradeId in links;
    if first && k == 0 {
      assert own == rows[0].(orderId := own.orderId);
    } else {
      LinkedAre(rows[1..], links, if first then k - 1 else k);
      var j :| 0 <= j < |rows[1..]| && own == rows[1..][j].(orderId := own.orderId);
      assert own == rows[j + 1].(orderId := own.orderId);
    }
  }

  lemma SameSizeIsSameSet(a: set<string>, b: set<string>)
    requires a <= b && |a| == |b|
    ensures a == b
  {
    assert a + (b - a) == b && |a + (b - a)| == |a| + |b - a|;
  }

  // ----- What "observed" proves -----

  /** Every reported trade is one the terminal links to this order, and every such link is reported, once. */
  ghost predicate TradesMatchLinks(own: seq<Trade>, links: seq<TradeLink>, rows: seq<Trade>) {
    && |own| == |links| && Distinct(Ids(own)) && Distinct(LinkIds(links))
    && (forall i :: 0 <= i < |links| ==> Reported(links[i].tradeId, own))
    && (forall k :: 0 <= k < |own| ==> Backed(own[k], links) && IsRow(own[k], rows))
  }

  lemma {:induction false} EveryLinkIsReported(own: seq<Trade>, links: seq<TradeLink>, i: nat)
    requires Elements(LinkIds(links)) <= Elements(Ids(own)) && i < |links|
    ensures Reported(links[i].tradeId, own)
  {
    assert LinkIds(links)[i] in Elements(Ids(own));
    var k :| 0 <= k < |own| && Ids(own)[k] == LinkIds(links)[i];
    assert own[k].tradeId == links[i].tradeId;
  }

  lemma {:induction false} EveryReportIsLinked(own: seq<Trade>, links: seq<TradeLink>, k: nat)
    requires Distinct(LinkIds(links)) && k < |own| && own[k].tradeId in Links(links)
    requires own[k].orderId == Links(links)[own[k].tradeId]
    ensures Backed(own[k], links)
  {
    LinksAre(links);
    var i :| 0 <= i < |links| && LinkIds(links)[i] == own[k].tradeId;
    assert links[i].tradeId == own[k].tradeId;
  }

  predicate Counted(own: seq<Trade>, links: seq<TradeLink>) {
    |Links(links)| == |links| && |Elements(Ids(own))| == |own| && |own| == |Links(links)|
  }

  /** Pigeonhole: as many different reported ids as links, all of them linked, so every link is reported. */
  lemma {:induction false} CountedMeansSame(own: seq<Trade>, links: seq<TradeLink>)
    requires Counted(own, links) && forall k :: 0 <= k < |own| ==> own[k].tradeId in Links(links)
    ensures Elements(Ids(own)) == Elements(LinkIds(links)) && Distinct(Ids(own)) && Distinct(LinkIds(links))
  {
    LinksAre(links);
    DistinctIsCounted(LinkIds(links));
    DistinctIsCounted(Ids(own));
    assert |Links(links).Keys| == |Links(links)|;
    assert forall x :: x in Elements(Ids(own)) ==> x in Links(links).Keys;
    SameSizeIsSameSet(Elements(Ids(own)), Links(links).Keys);
  }

  lemma {:induction false} OwnTradesMatch(rows: seq<Trade>, links: seq<TradeLink>)
    requires Counted(Linked(rows, Links(links)), links)
    ensures TradesMatchLinks(Linked(rows, Links(links)), links, rows)
  {
    var own := Linked(rows, Links(links));
    forall k | 0 <= k < |own|
      ensures own[k].tradeId in Links(links) && own[k].orderId == Links(links)[own[k].tradeId] && IsRow(own[k], rows)
    {
      LinkedAre(rows, Links(links), k);
    }
    CountedMeansSame(own, links);
    forall i | 0 <= i < |links| ensures Reported(links[i].tradeId, own) { EveryLinkIsReported(own, links, i); }
    forall k | 0 <= k < |own| ensures Backed(own[k], links) { EveryReportIsLinked(own, links, k); }
  }

  /** Everything an observed execution rests on. */
  ghost predicate Proven(t: Texts, request: MarketOrder, execution: Execution, id: Identity, tracked: Tracked,
                         orders: seq<Order>, trades: seq<Trade>, order: Order, own: seq<Trade>) {
    && Settled(t, id, tracked, orders, order) && Fits(order, request, execution) && Final(order, execution)
    && TradesMatchLinks(own, tracked.trades, trades) && AllBelong(own, order, request) && Volume(own) == order.filled
  }

  /** "Observed" is sound: one native order carries the full reference, it agrees with the only exported row of its
      id (or was rejected before it got one), and the reported trades are exactly its trades and make up its filled
      volume. */
  lemma ObservedIsSound(t: Texts, request: MarketOrder, execution: Execution, id: Identity, tracked: Tracked,
                        orders: seq<Order>, trades: seq<Trade>, attempt: nat)
    requires var r := Compare(t, request, execution, id, tracked, orders, trades, attempt);
             r.Ok? && r.value.verdict == Observed
    ensures var f := Compare(t, request, execution, id, tracked, orders, trades, attempt).value;
            |f.orders| == 1 && Proven(t, request, execution, id, tracked, orders, trades, f.orders[0], f.trades)
  {
    var f := Compare(t, request, execution, id, tracked, orders, trades, attempt).value;
    ExactOrderIsSettled(t, id, tracked, orders, f.orders[0]);
    assert f.orders == [f.orders[0]];
    OwnTradesMatch(trades, tracked.trades);
  }

  /** And complete: a settled, fitting, final order whose links are distinct is observed exactly when its linked rows
      are its trades, all of them, and add up. */
  lemma ObservedIsExact(t: Texts, request: MarketOrder, execution: Execution, id: Identity, tracked: Tracked,
                        orders: seq<Order>, trades: seq<Trade>, attempt: nat, order: Order)
    requires Settled(t, id, tracked, orders, order) && Fits(order, request, execution) && Final(order, execution)
    ensures var own := Linked(trades, Links(tracked.trades));
            Compare(t, request, execution, id, tracked, orders, trades, attempt)
            == Ok(Finding(Observed, attempt, [order], own, None))
            <==> TradesMatchLinks(own, tracked.trades, trades) && AllBelong(own, order, request)
                 && Volume(own) == order.filled
  {
    var own := Linked(trades, Links(tracked.trades));
    ExactOrderIsSettled(t, id, tracked, orders, order);
    if Counted(own, tracked.trades) { OwnTradesMatch(trades, tracked.trades); }
    LinksAre(tracked.trades);
    DistinctIsCounted(LinkIds(tracked.trades));
    DistinctIsCounted(Ids(own));
    assert |Links(tracked.trades).Keys| == |Links(tracked.trades)|;
  }

  // ----- In plain columns -----

  /** An observed order asks for what was requested, and its status is one it will keep: filled, cancelled or
      rejected; or it rests in the book, open or partly filled, and is good for day. Its trades are of its id, its
      side and its offset, where closing may be reported as closing of either day. */
  lemma ObservedOrderIsTheRequests(t: Texts, request: MarketOrder, execution: Execution, id: Identity, tracked: Tracked,
                                   orders: seq<Order>, trades: seq<Trade>, attempt: nat)
    requires var r := Compare(t, request, execution, id, tracked, orders, trades, attempt);
             r.Ok? && r.value.verdict == Observed
    ensures var f := Compare(t, request, execution, id, tracked, orders, trades, attempt).value;
            && |f.orders| == 1 && f.attempts == attempt
            && var order := f.orders[0];
            && order.volume == request.volume && order.price == execution.price && order.side == request.side
            && (order.offset == UnknownOffset || order.offset == request.offset
                || (request.offset == Close && order.offset in {CloseToday, CloseYesterday}))
            && (order.status in {Filled, Cancelled, Rejected}
                || (order.status in {Opened, PartiallyFilled} && execution.goodForDay))
            && forall trade :: trade in f.trades ==>
                 trade.orderId == order.orderId && trade.side == request.side
                 && (trade.offset == request.offset
                     || (request.offset == Close && trade.offset in {CloseToday, CloseYesterday}))
  {
    ObservedIsSound(t, request, execution, id, tracked, orders, trades, attempt);
  }

  /** For a settled order as requested, whose linked rows are its trades and add up: observed exactly when its status is
      final for this kind of order, and otherwise still pending; never an error. */
  lemma FinalIsExact(t: Texts, request: MarketOrder, execution: Execution, id: Identity, tracked: Tracked,
                     orders: seq<Order>, trades: seq<Trade>, attempt: nat, order: Order)
    requires Settled(t, id, tracked, orders, order)
    requires order.volume == request.volume && order.price == execution.price && order.side == request.side
    requires order.offset == UnknownOffset || order.offset == request.offset
             || (request.offset == Close && order.offset in {CloseToday, CloseYesterday})
    requires var own := Linked(trades, Links(tracked.trades));
             && TradesMatchLinks(own, tracked.trades, trades) && Volume(own) == order.filled
             && forall k :: 0 <= k < |own| ==>
                  own[k].orderId == order.orderId && own[k].side == request.side
                  && (own[k].offset == request.offset
                      || (request.offset == Close && own[k].offset in {CloseToday, CloseYesterday}))
    ensures var r := Compare(t, request, execution, id, tracked, orders, trades, attempt);
            && r.Ok? && r.value.orders == [order]
            && (r.value.verdict == Observed <==>
                  || order.status in {Filled, Cancelled, Rejected}
                  || (execution.goodForDay && order.status in {Opened, PartiallyFilled}))
            && (r.value.verdict == Observed || r.value.verdict == Unsettled)
  {
    hide Settled, ExactOrder, TradesMatchLinks, Links, Linked, Volume;
    TradesAreCounted(tracked.trades, trades);
    var own := Linked(trades, Links(tracked.trades));
    ExactOrderIsSettled(t, id, tracked, orders, order);
  }

  lemma TradesAreCounted(links: seq<TradeLink>, rows: seq<Trade>)
    requires TradesMatchLinks(Linked(rows, Links(links)), links, rows)
    ensures var own := Linked(rows, Links(links));
            |Links(links)| == |links| && |Elements(Ids(own))| == |own| && |own| == |Links(links)|
  {
    LinksAre(links);
    DistinctIsCounted(LinkIds(links));
    DistinctIsCounted(Ids(Linked(rows, Links(links))));
    assert |Links(links).Keys| == |Links(links)|;
  }

  /** An order that is not the one requested, or a trade that is not the order's, is an error and never observed. */
  lemma MisfitIsAnError(t: Texts, request: MarketOrder, execution: Execution, id: Identity, tracked: Tracked,
                        orders: seq<Order>, trades: seq<Trade>, attempt: nat, order: Order)
    requires Settled(t, id, tracked, orders, order)
    requires order.volume != request.volume || order.price != execution.price || order.side != request.side
             || order.offset !in {UnknownOffset, request.offset, CloseToday, CloseYesterday}
    ensures Compare(t, request, execution, id, tracked, orders, trades, attempt) == Err(DataInvalid)
  {
    ExactOrderIsSettled(t, id, tracked, orders, order);
  }

  /** Every exported trade with a linked id is reported, with the id of the order the link names. */
  lemma {:induction false} LinkedRowsAreReported(rows: seq<Trade>, links: map<string, Option<string>>, i: nat)
    requires i < |rows| && rows[i].tradeId in links
    ensures rows[i].(orderId := links[rows[i].tradeId]) in Linked(rows, links)
  {
    if i > 0 {
      assert rows[1..][i - 1] == rows[i];
      LinkedRowsAreReported(rows[1..], links, i - 1);
    }
  }

  lemma {:induction false} VolumeAdds(a: seq<Trade>, b: seq<Trade>, trade: Trade)
    ensures Volume(a + b) == Volume(a) + Volume(b) && Volume([]) == 0 && Volume([trade]) == trade.volume
  {
    if a == [] {
      assert a + b == b;
    } else {
      assert (a + b)[1..] == a[1..] + b;
      VolumeAdds(a[1..], b, trade);
    }
  }

  /** Only rows of the request's own place are looked at. */
  lemma {:induction false} RelevantIsExact(request: MarketOrder, rows: seq<Order>, row: Order)
    ensures row in Relevant(request, rows) <==>
              row in rows && row.exchange == request.exchange && row.instrument == request.instrument
  {
    if rows != [] { RelevantIsExact(request, rows[1..], row); }
  }

  lemma {:induction false} RelevantTradesAreExact(request: MarketOrder, rows: seq<Trade>, row: Trade)
    ensures row in RelevantTrades(request, rows) <==>
              row in rows && row.exchange == request.exchange && row.instrument == request.instrument
  {
    if rows != [] { RelevantTradesAreExact(request, rows[1..], row); }
  }

  // ----- Rounds -----

  /** What is to be confirmed: an order that was placed, or one that was to be cancelled. */
  datatype Wanted = Placed(request: MarketOrder, execution: Execution) | Taken(at: Place, orderId: string)

  /** What one round reads; reading may fail, and so may saving a new order id. */
  datatype Round = Round(tracked: Result<Tracked, Problem>, saved: Option<Problem>, orders: Result<seq<Order>, Problem>,
                         trades: Result<seq<Trade>, Problem>)

  function Identifier(t: Texts, id: Identity, tracked: Tracked): Result<Option<string>, Problem> {
    if |tracked.orders| != 1 then Ok(None)
    else
      match AsOrder(t, tracked.orders[0], id)
      case Err(e) => Err(e)
      case Ok(native) => Ok(native.orderId)
  }

  predicate Concerns(request: MarketOrder, exchange: nat, instrument: string) {
    exchange == request.exchange && instrument == request.instrument
  }

  function Relevant(request: MarketOrder, rows: seq<Order>): seq<Order> {
    if rows == [] then []
    else
      (if Concerns(request, rows[0].exchange, rows[0].instrument) then [rows[0]] else [])
      + Relevant(request, rows[1..])
  }

  function RelevantTrades(request: MarketOrder, rows: seq<Trade>): seq<Trade> {
    if rows == [] then []
    else
      (if Concerns(request, rows[0].exchange, rows[0].instrument) then [rows[0]] else [])
      + RelevantTrades(request, rows[1..])
  }

  /** The order id after a round, and what was wrong with it: the first id is kept, another one is an ambiguity, and a
      new one must be saved. */
  function Learnt(t: Texts, id: Identity, round: Round, orderId: Option<string>): (Option<string>, Option<Problem>)
    requires round.tracked.Ok?
  {
    match Identifier(t, id, round.tracked.value)
    case Err(e) => (orderId, Some(e))
    case Ok(seen) =>
      if seen.None? || seen == orderId then (orderId, None)
      else if orderId.Some? then (orderId, Some(IdentityAmbiguous))
      else (seen, round.saved)
  }

  /** The rest of a round, once the tracked order and its id are known. */
  function Judged(t: Texts, wanted: Wanted, id: Identity, round: Round, attempt: nat): Result<Finding, Problem>
    requires wanted.Placed? ==> round.tracked.Ok?
  {
    if round.orders.Err? then Err(round.orders.error)
    else
      match wanted
      case Taken(at, orderId) => Ok(CompareCancel(round.orders.value, at, orderId, attempt))
      case Placed(request, execution) =>
        if round.trades.Err? then Err(round.trades.error)
        else Compare(t, request, execution, id, round.tracked.value, Relevant(request, round.orders.value),
                     RelevantTrades(request, round.trades.value), attempt)
  }

  /** What a round ends in: the id known then, and its finding or its problem. */
  function Played(t: Texts, wanted: Wanted, id: Identity, round: Round, attempt: nat,
                  orderId: Option<string>): (Option<string>, Result<Finding, Problem>)
  {
    if wanted.Taken? then (orderId, Judged(t, wanted, id, round, attempt))
    else if round.tracked.Err? then (orderId, Err(round.tracked.error))
    else
      var (learnt, problem) := Learnt(t, id, round, orderId);
      (learnt, if problem.Some? then Err(problem.value) else Judged(t, wanted, id, round, attempt))
  }

  /** The rounds from k on, given the finding of the round before. */
  function Observing(t: Texts, wanted: Wanted, id: Identity, rounds: seq<Round>, k: nat,
                     orderId: Option<string>, latest: Finding): (Option<string>, Result<Finding, Problem>)
    requires k <= |rounds|
    decreases |rounds| - k
  {
    if k == |rounds| then (orderId, Ok(latest))
    else
      var (learnt, judged) := Played(t, wanted, id, rounds[k], k + 1, orderId);
      match judged
      case Err(problem) =>
        (learnt, if problem.Other? then Err(problem)
                 else Ok(latest.(verdict := if problem == IdentityAmbiguous then Ambiguous else Unavailable,
                                 attempts := k + 1, error := Some(problem))))
      case Ok(finding) =>
        if finding.verdict == Observed then (learnt, Ok(finding))
        else Observing(t, wanted, id, rounds, k + 1, learnt, finding)
  }

  /** How a round ends the observation: with an order observed; with the finding of the round before, marked
      ambiguous or unavailable, when the data conflict; or with the error itself when it is any other. */
  lemma ProblemsEndObservation(t: Texts, wanted: Wanted, id: Identity, rounds: seq<Round>, k: nat,
                               orderId: Option<string>, latest: Finding)
    requires k < |rounds| && Played(t, wanted, id, rounds[k], k + 1, orderId).1.Err?
    ensures var problem := Played(t, wanted, id, rounds[k], k + 1, orderId).1.error;
            var ended := Observing(t, wanted, id, rounds, k, orderId, latest).1;
            && (problem.Other? <==> ended.Err?) && (ended.Err? ==> ended.error == problem)
            && (ended.Ok? ==>
                  && ended.value.attempts == k + 1 && ended.value.error == Some(problem)
                  && ended.value.orders == latest.orders && ended.value.trades == latest.trades
                  && (ended.value.verdict == Ambiguous <==> problem == IdentityAmbiguous)
                  && (ended.value.verdict == Unavailable <==> problem == DataInvalid))
  {
  }

  /** The id a round leaves: the one known before, or the first one seen; a different one is ambiguous. */
  lemma LearningIsExact(t: Texts, id: Identity, round: Round, orderId: Option<string>)
    requires round.tracked.Ok? && |round.tracked.value.orders| == 1
    requires AsOrder(t, round.tracked.value.orders[0], id).Ok?
    ensures var seen := round.tracked.value.orders[0].orderId; var (learnt, problem) := Learnt(t, id, round, orderId);
            && (orderId.Some? || seen == "" ==> learnt == orderId)
            && (orderId.None? && seen != "" ==> learnt == Some(seen) && problem == round.saved)
            && (seen == "" || orderId == Some(seen) ==> problem.None?)
            && (seen != "" && orderId.Some? && orderId != Some(seen) ==> problem == Some(IdentityAmbiguous))
  {
    NativeOrderIsExact(t, round.tracked.value.orders[0], id);
  }

  const NOTHING_YET := Finding(Unsettled, 0, [], [], None)

  /** An order id once known never changes, and an observed order with an id has exactly that one. */
  lemma {:induction false} OrderIdIsStable(t: Texts, wanted: Wanted, id: Identity,
                                           rounds: seq<Round>, k: nat, orderId: Option<string>, latest: Finding)
    requires k <= |rounds| && latest.verdict == Unsettled
    ensures var (known, result) := Observing(t, wanted, id, rounds, k, orderId, latest);
            && (orderId.Some? ==> known == orderId)
            && (result.Ok? && result.value.verdict == Observed ==>
                  && |result.value.orders| == 1
                  && (wanted.Placed? && result.value.orders[0].orderId.Some? ==>
                        result.value.orders[0].orderId == known))
            && (wanted.Taken? ==> known == orderId)
    decreases |rounds| - k
  {
    if k < |rounds| {
      var (learnt, judged) := Played(t, wanted, id, rounds[k], k + 1, orderId);
      if judged.Ok? {
        if judged.value.verdict == Observed {
          if wanted.Placed? { ObservedHasTheLearntId(t, wanted, id, rounds[k], k + 1); }
        } else {
          OrderIdIsStable(t, wanted, id, rounds, k + 1, learnt, judged.value);
        }
      }
    }
  }

  /** A round that neither proved nor contradicted the execution. */
  predicate Inconclusive(t: Texts, wanted: Wanted, id: Identity, round: Round, attempt: nat) {
    (wanted.Placed? ==> round.tracked.Ok?) &&
    var judged := Judged(t, wanted, id, round, attempt);
    judged.Ok? && judged.value.verdict == Unsettled
  }

  /** Observed is the finding of the round it names. */
  lemma {:induction false} FindingsAreOfTheirRound(t: Texts, wanted: Wanted, id: Identity,
                                                   rounds: seq<Round>, k: nat, orderId: Option<string>, latest: Finding)
    requires k <= |rounds| && latest.verdict == Unsettled
    requires var result := Observing(t, wanted, id, rounds, k, orderId, latest).1;
             result.Ok? && result.value.verdict == Observed
    ensures var result := Observing(t, wanted, id, rounds, k, orderId, latest).1;
            var n := result.value.attempts;
            k < n <= |rounds| && (wanted.Placed? ==> rounds[n - 1].tracked.Ok?)
            && Judged(t, wanted, id, rounds[n - 1], n) == result
    decreases |rounds| - k
  {
    hide Judged, Learnt;
    var (learnt, judged) := Played(t, wanted, id, rounds[k], k + 1, orderId);
    AttemptIsCounted(t, wanted, id, rounds[k], k + 1);
    if judged.value.verdict != Observed {
      FindingsAreOfTheirRound(t, wanted, id, rounds, k + 1, learnt, judged.value);
    }
  }

  /** Pending means that every round was inconclusive, and reports the last of them. */
  lemma {:induction false} PendingMeansInconclusive(t: Texts, wanted: Wanted, id: Identity,
                                                    rounds: seq<Round>, k: nat, j: nat, orderId: Option<string>,
                                                    latest: Finding)
    requires k <= j < |rounds| && latest.verdict == Unsettled
    requires var result := Observing(t, wanted, id, rounds, k, orderId, latest).1;
             result.Ok? && result.value.verdict == Unsettled
    ensures Inconclusive(t, wanted, id, rounds[j], j + 1)
    ensures j == |rounds| - 1 ==>
              Observing(t, wanted, id, rounds, k, orderId, latest).1
              == Judged(t, wanted, id, rounds[j], j + 1)
    decreases |rounds| - k
  {
    hide Judged;
    var (learnt, judged) := Played(t, wanted, id, rounds[k], k + 1, orderId);
    AttemptIsCounted(t, wanted, id, rounds[k], k + 1);
    if k < j { PendingMeansInconclusive(t, wanted, id, rounds, k + 1, j, learnt, judged.value); }
  }

  lemma AttemptIsCounted(t: Texts, wanted: Wanted, id: Identity, round: Round, attempt: nat)
    requires (wanted.Placed? ==> round.tracked.Ok?) && Judged(t, wanted, id, round, attempt).Ok?
    ensures var f := Judged(t, wanted, id, round, attempt).value;
            f.attempts == attempt && (f.verdict == Observed || f.verdict == Unsettled)
  {
  }

  /** The order id this request owns, kept over the rounds. */
  class OrderObserver {
    const texts: Texts
    const identity: Identity
    var orderId: Option<string>

    constructor (texts: Texts, identity: Identity)
      ensures this.texts == texts && this.identity == identity && orderId == None
    {
      this.texts := texts;
      this.identity := identity;
      orderId := None;
    }

    /** Learns the order id of this round: the first one is kept, another one is an ambiguity. */
    method LearnId(round: Round) returns (problem: Option<Problem>)
      requires round.tracked.Ok?
      modifies this
      ensures (orderId, problem) == Learnt(texts, identity, round, old(orderId))
    {
      var seen := Identifier(texts, identity, round.tracked.value);
      if seen.Err? { return Some(seen.error); }
      if seen.value.Some? && seen.value != orderId {
        if orderId.Some? { return Some(IdentityAmbiguous); }
        orderId := seen.value;
        return round.saved;
      }
      return None;
    }

    /** Rounds of observation until one proves the execution, conflicts, or the rounds are used up. */
    method Observe(wanted: Wanted, rounds: seq<Round>) returns (result: Result<Finding, Problem>)
      modifies this
      ensures (orderId, result) == Observing(texts, wanted, identity, rounds, 0, old(orderId), NOTHING_YET)
    {
      var finding := NOTHING_YET;
      var k := 0;
      while k < |rounds|
        invariant 0 <= k <= |rounds|
        invariant Observing(texts, wanted, identity, rounds, k, orderId, finding)
                  == Observing(texts, wanted, identity, rounds, 0, old(orderId), NOTHING_YET)
      {
        var round := rounds[k];
        k := k + 1;
        var problem: Option<Problem> := None;
        if wanted.Placed? && round.tracked.Err? {
          problem := Some(round.tracked.error);
        } else {
          if wanted.Placed? { problem := LearnId(round); }
          if problem.None? {
            var judged := Judged(texts, wanted, identity, round, k);
            if judged.Err? { problem := Some(judged.error); } else { finding := judged.value; }
          }
        }
        if problem.Some? {
          if problem.value.Other? { return Err(problem.value); }
          return Ok(finding.(verdict := if problem.value == IdentityAmbiguous then Ambiguous else Unavailable,
                             attempts := k, error := problem));
        }
        if finding.verdict == Observed { return Ok(finding); }
      }
      return Ok(finding);
    }
  }

  /** The id of an observed order is the one the terminal's memory shows for this reference. */
  lemma ObservedHasTheLearntId(t: Texts, wanted: Wanted, id: Identity, round: Round, attempt: nat)
    requires wanted.Placed? && round.tracked.Ok?
    requires var r := Judged(t, wanted, id, round, attempt); r.Ok? && r.value.verdict == Observed
    ensures var f := Judged(t, wanted, id, round, attempt).value;
            && |f.orders| == 1 && f.attempts == attempt
            && Identifier(t, id, round.tracked.value) == Ok(f.orders[0].orderId)
  {
    ObservedIsSound(t, wanted.request, wanted.execution, id, round.tracked.value,
                    Relevant(wanted.request, round.orders.value), RelevantTrades(wanted.request, round.trades.value),
                        attempt);
  }
}
