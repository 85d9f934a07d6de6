/** Reading the same table until two readings agree (cn_futures_bridge/terminal/verification.py:34-98). */
module Stability {
  import opened Base
  import opened Verification

  datatype TableRow = OrderRow(order: Order) | TradeRow(trade: Trade) | PositionRow(position: Position)

  /** The part of a row that counts: a position's price-driven figures do not. */
  function Business(row: TableRow): TableRow {
    if row.PositionRow?
    then PositionRow(row.position.(profit := None, margin := None, averagePrice := None))
    else row
  }

  function BusinessRows(rows: seq<TableRow>): seq<TableRow> {
    seq(|rows|, i requires 0 <= i < |rows| => Business(rows[i]))
  }

  /** A sorted list of texts stands for the multiset of rows they spell. */
  function Signature(rows: seq<TableRow>): multiset<TableRow> {
    multiset(BusinessRows(rows))
  }

  datatype Consistency = Stable | Changing

  type Reading = Result<seq<TableRow>, Problem>

  predicate Agree(readings: seq<Reading>, k: int) {
    1 <= k < |readings| && readings[k - 1].Ok? && readings[k].Ok?
    && Signature(readings[k - 1].value) == Signature(readings[k].value)
  }

  /** Reading k ends the query: it is the first to agree with the one before it, or to fail. */
  predicate EndsAt(readings: seq<Reading>, k: int) {
    && 0 <= k < |readings|
    && (readings[k].Err? || Agree(readings, k))
    && forall i :: 0 <= i < k ==> readings[i].Ok? && !Agree(readings, i)
  }

  method Query(readings: seq<Reading>) returns (result: Result<(seq<TableRow>, Consistency), Problem>)
    ensures result.Err? <==> exists k :: EndsAt(readings, k) && readings[k].Err?
    ensures result.Ok? && result.value.1 == Stable <==> exists k :: EndsAt(readings, k) && Agree(readings, k)
    ensures forall k :: EndsAt(readings, k) ==>
              result == if readings[k].Err? then Err(readings[k].error) else Ok((readings[k].value, Stable))
    ensures result.Ok? && result.value.1 == Changing <==>
              forall k :: 0 <= k < |readings| ==> readings[k].Ok? && !Agree(readings, k)
    ensures result.Ok? && result.value.1 == Changing ==>
              result.value.0 == if readings == [] then [] else readings[|readings| - 1].value
  {
    hide Signature, EndsAt, Agree;
    var previous: Option<multiset<TableRow>> := None;
    var latest: seq<TableRow> := [];
    var attempt := 0;
    while attempt < |readings|
      invariant 0 <= attempt <= |readings| && GoesOn(readings, attempt)
      invariant attempt == 0 ==> previous.None? && latest == []
      invariant attempt > 0 ==>
                  readings[attempt - 1] == Ok(latest) && previous == Some(Signature(latest))
    {
      OneStep(readings, attempt);
      if readings[attempt].Err? { return Err(readings[attempt].error); }
      latest := readings[attempt].value;
      var signature := Signature(latest);
      if previous == Some(signature) { return Ok((latest, Stable)); }
      previous := Some(signature);
      attempt := attempt + 1;
    }
    NeverEnds(readings);
    return Ok((latest, Changing));
  }

  /** None of the first n readings failed or agreed with the one before it. */
  predicate GoesOn(readings: seq<Reading>, n: nat) {
    n <= |readings| && forall i :: 0 <= i < n ==> readings[i].Ok? && !Agree(readings, i)
  }

  lemma OneStep(readings: seq<Reading>, k: nat)
    requires k < |readings| && GoesOn(readings, k)
    ensures var ends := readings[k].Err?
                        || (k > 0 && Signature(readings[k - 1].value) == Signature(readings[k].value));
            && (ends ==> EndsAt(readings, k) && (forall j :: EndsAt(readings, j) ==> j == k)
                         && (Agree(readings, k) <==> readings[k].Ok?))
            && (!ends ==> GoesOn(readings, k + 1))
            && (ends && readings[k].Ok? ==> !forall j :: 0 <= j < |readings| ==> readings[j].Ok? && !Agree(readings, j))
  {
    hide Signature;
  }

  lemma NeverEnds(readings: seq<Reading>)
    requires GoesOn(readings, |readings|)
    ensures forall k :: !EndsAt(readings, k)
    ensures forall k :: 0 <= k < |readings| ==> readings[k].Ok? && !Agree(readings, k)
  {
    hide Signature;
  }

  /** Agreement ignores the order of the rows and the floating figures of positions, and nothing else. */
  lemma {:induction false} AgreementIsExact(a: seq<TableRow>, b: seq<TableRow>, row: TableRow)
    ensures Signature(a) == Signature(b) ==> |a| == |b|
    ensures Signature(a) == Signature(b) && row in a ==> exists other :: other in b && Business(other) == Business(row)
    ensures |a| == |b| && (forall i :: 0 <= i < |a| ==> Business(a[i]) == Business(b[i])) ==>
              Signature(a) == Signature(b)
    ensures Signature(a + b) == Signature(b + a)
  {
    assert |Signature(a)| == |a| && |Signature(b)| == |b|;
    assert BusinessRows(a + b) == BusinessRows(a) + BusinessRows(b);
    assert BusinessRows(b + a) == BusinessRows(b) + BusinessRows(a);
    if |a| == |b| && forall i :: 0 <= i < |a| ==> Business(a[i]) == Business(b[i]) {
      assert BusinessRows(a) == BusinessRows(b);
    }
    if Signature(a) == Signature(b) && row in a {
      var i :| 0 <= i < |a| && a[i] == row;
      assert BusinessRows(a)[i] in Signature(b);
      assert Business(row) in BusinessRows(b);
      var j :| 0 <= j < |b| && BusinessRows(b)[j] == Business(row);
      assert b[j] in b;
    }
  }

  /** What two rows must share to count as the same: everything, but for positions only the place, the direction, the
      hedge flag and the four volumes. */
  lemma BusinessIsExact(a: TableRow, b: TableRow)
    ensures Business(a) == Business(b) <==>
              if a.PositionRow? && b.PositionRow? then
                var p, q := a.position, b.position;
                && p.exchange == q.exchange && p.instrument == q.instrument && p.long == q.long && p.hedge == q.hedge
                && p.volume == q.volume && p.today == q.today && p.yesterday == q.yesterday
                && p.available == q.available
              else a == b
  {
  }

  /** One row that counts differently is enough to disagree. */
  lemma OneChangeDisagrees(rows: seq<TableRow>, i: nat, row: TableRow)
    requires i < |rows|
    ensures Signature(rows[i := row]) == Signature(rows) <==> Business(row) == Business(rows[i])
  {
    hide Business;
    var changed := BusinessRows(rows[i := row]);
    assert changed == BusinessRows(rows)[i := Business(row)];
    assert multiset(changed) == multiset(BusinessRows(rows)) - multiset{Business(rows[i])} + multiset{Business(row)};
  }

  // ----- Following one reference -----

  /** One look at the terminal's memory and at the order table. */
  datatype Look = Look(tracked: Tracked, rows: seq<Order>)

  /** What a look shows of the reference; `settled` when both sources agree on it or there is nothing to agree on. */
  datatype Sight = Sight(orders: seq<Order>, settled: bool)

  function Seen(t: Texts, id: Identity, look: Result<Look, Problem>, wanted: Order -> Result<bool, Problem>)
    : Result<Sight, Problem>
  {
    if look.Err? then Err(look.error)
    else
      match ExactOrder(t, id, look.value.tracked, look.value.rows)
      case Err(e) => Err(e)
      case Ok((found, complete)) =>
        if found == [] then Ok(Sight([], true))
        else
          match wanted(found[0])
          case Err(e) => Err(e)
          case Ok(yes) => Ok(Sight(if yes then found else [], complete))
  }

  /** What a look shows: nothing and settled when the terminal has no such order; else the order, unless the
      request's own filter turns it away, settled when both sources agree. */
  lemma SightIsExact(t: Texts, id: Identity, look: Look, wanted: Order -> Result<bool, Problem>, order: Order)
    ensures look.tracked.orders == [] ==> Seen(t, id, Ok(look), wanted) == Ok(Sight([], true))
    ensures forall settled :: ExactOrder(t, id, look.tracked, look.rows) == Ok(([order], settled)) ==>
              var seen := Seen(t, id, Ok(look), wanted);
              && (wanted(order) == Ok(true) ==> seen == Ok(Sight([order], settled)))
              && (wanted(order) == Ok(false) ==> seen == Ok(Sight([], settled)))
              && (wanted(order).Err? ==> seen == Err(wanted(order).error))
  {
  }

  /** Two looks confirm each other when they show the same and the later one is settled. */
  lemma ConfirmationIsExact(sights: seq<Result<Sight, Problem>>, k: nat)
    requires 1 <= k < |sights|
    ensures Confirmed(sights, k) <==>
              sights[k - 1].Ok? && sights[k].Ok? && sights[k].value.settled
              && sights[k - 1].value.orders == sights[k].value.orders
    ensures !Confirmed(sights, 0)
  {
  }

  predicate Confirmed(sights: seq<Result<Sight, Problem>>, k: int) {
    1 <= k < |sights| && sights[k - 1].Ok? && sights[k].Ok?
    && sights[k - 1].value.orders == sights[k].value.orders && sights[k].value.settled
  }

  function Sights(t: Texts, id: Identity, looks: seq<Result<Look, Problem>>, wanted: Order -> Result<bool, Problem>)
    : (sights: seq<Result<Sight, Problem>>)
    ensures |sights| == |looks|
  {
    seq(|looks|, i requires 0 <= i < |looks| => Seen(t, id, looks[i], wanted))
  }

  predicate Inconclusive(sights: seq<Result<Sight, Problem>>, k: int)
    requires 0 <= k < |sights|
  {
    sights[k].Ok? && !Confirmed(sights, k)
  }

  /** Look k ends the query: the first to be confirmed or to fail. */
  predicate Decides(sights: seq<Result<Sight, Problem>>, k: int) {
    0 <= k < |sights| && !Inconclusive(sights, k) && forall i :: 0 <= i < k ==> Inconclusive(sights, i)
  }

  function LatestOrders(sights: seq<Result<Sight, Problem>>, n: nat): seq<Order>
    requires n <= |sights|
  {
    if n > 0 && sights[n - 1].Ok? then sights[n - 1].value.orders else []
  }

  method QueryReference(t: Texts, id: Identity, looks: seq<Result<Look, Problem>>,
                        wanted: Order -> Result<bool, Problem>)
    returns (result: Result<(seq<Order>, Consistency), Problem>)
    ensures var sights := Sights(t, id, looks, wanted);
            forall k :: Decides(sights, k) ==>
              result == if sights[k].Err? then Err(sights[k].error) else Ok((sights[k].value.orders, Stable))
    ensures var sights := Sights(t, id, looks, wanted);
            (forall k :: 0 <= k < |sights| ==> Inconclusive(sights, k)) ==>
              result == Ok((LatestOrders(sights, |sights|), Changing))
  {
    hide Seen;
    ghost var sights := Sights(t, id, looks, wanted);
    var previous: Option<seq<Order>> := None;
    var latest: seq<Order> := [];
    var attempt := 0;
    while attempt < |looks|
      invariant 0 <= attempt <= |looks|
      invariant forall i :: 0 <= i < attempt ==> Inconclusive(sights, i)
      invariant latest == LatestOrders(sights, attempt)
      invariant previous == if attempt == 0 then None else Some(latest)
    {
      OneLookDecides(sights, attempt);
      var seen := Seen(t, id, looks[attempt], wanted);
      assert seen == sights[attempt];
      if seen.Err? {
        assert Decides(sights, attempt);
        return Err(seen.error);
      }
      latest := seen.value.orders;
      if previous == Some(latest) && seen.value.settled {
        assert Inconclusive(sights, attempt - 1);
        assert Decides(sights, attempt);
        return Ok((latest, Stable));
      }
      previous := Some(latest);
      attempt := attempt + 1;
    }
    return Ok((latest, Changing));
  }

  /** Every query ends in exactly one of the two ways. */
  lemma {:induction false} OneLookDecides(sights: seq<Result<Sight, Problem>>, n: nat)
    requires n <= |sights|
    ensures (forall i :: 0 <= i < n ==> Inconclusive(sights, i)) <==> !exists k :: k < n && Decides(sights, k)
    ensures forall j, k :: Decides(sights, j) && Decides(sights, k) ==> j == k
  {
    if n > 0 {
      OneLookDecides(sights, n - 1);
      if forall i :: 0 <= i < n - 1 ==> Inconclusive(sights, i) {
        assert Decides(sights, n - 1) <==> !Inconclusive(sights, n - 1);
      }
    }
  }

  lemma SightIsSettled(t: Texts, id: Identity, look: Result<Look, Problem>, wanted: Order -> Result<bool, Problem>)
    requires Seen(t, id, look, wanted).Ok? && Seen(t, id, look, wanted).value.orders != []
    ensures var sight := Seen(t, id, look, wanted).value;
            && |sight.orders| == 1 && wanted(sight.orders[0]) == Ok(true)
            && |look.value.tracked.orders| == 1 && Refers(look.value.tracked.orders[0], id)
            && (sight.settled ==> Settled(t, id, look.value.tracked, look.value.rows, sight.orders[0]))
  {
    var order := Seen(t, id, look, wanted).value.orders[0];
    ExactOrderIsSettled(t, id, look.value.tracked, look.value.rows, order);
    assert Seen(t, id, look, wanted).value.orders == [order];
  }

  /** A stable answer that names an order names the settled order of exactly this reference, seen twice in a row; a
      stable empty answer means the latest look had no such order, or the request's own filter turned it away. */
  lemma StableReferenceIsSettled(t: Texts, id: Identity, looks: seq<Result<Look, Problem>>,
                                 wanted: Order -> Result<bool, Problem>, k: int)
    requires Confirmed(Sights(t, id, looks, wanted), k)
    ensures var orders := Sights(t, id, looks, wanted)[k].value.orders;
            if orders != [] then
              && |orders| == 1 && wanted(orders[0]) == Ok(true)
              && Settled(t, id, looks[k].value.tracked, looks[k].value.rows, orders[0])
              && |looks[k - 1].value.tracked.orders| == 1 && Refers(looks[k - 1].value.tracked.orders[0], id)
            else
              looks[k].value.tracked.orders == [] ||
              exists order :: Settled(t, id, looks[k].value.tracked, looks[k].value.rows, order)
                  && wanted(order) == Ok(false)
  {
    assert Sights(t, id, looks, wanted)[k] == Seen(t, id, looks[k], wanted);
    assert Sights(t, id, looks, wanted)[k - 1] == Seen(t, id, looks[k - 1], wanted);
    if Seen(t, id, looks[k], wanted).value.orders != [] {
      SightIsSettled(t, id, looks[k], wanted);
      SightIsSettled(t, id, looks[k - 1], wanted);
    } else {
      var look := looks[k].value;
      var exact := ExactOrder(t, id, look.tracked, look.rows).value;
      if exact.0 != [] {
        ExactOrderIsSettled(t, id, look.tracked, look.rows, exact.0[0]);
        assert exact.0 == [exact.0[0]];
      }
    }
  }
}
