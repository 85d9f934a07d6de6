/** What was asked for, what the terminal shows meanwhile, and when the one is the other: the conditions of one write
    from its price to the observation of its execution (cn_futures_bridge/terminal/executor.py:199-329, orders.py,
    market.py). */
module Requests {
  import opened Base
  import opened Journal
  import Decimals
  import Pricing
  import PricingTheorems
  import Binding
  import Receipt
  import Verification
  import Observation

  /** An order to open or close; without a price it is a market order, emulated by a limit at the day's boundary. */
  datatype Order = Order(exchange: nat, instrument: string, buy: bool, offset: Verification.Offset, volume: nat,
                         price: Option<Decimals.Decimal>, immediate: bool)

  datatype Ask = Place(order: Order) | Take(exchange: nat, instrument: string, orderId: string)

  /** Fixed for the process: how texts are read, the tolerated deviation, what survives transport, and the session. */
  datatype Setting = Setting(reader: Binding.Reader, texts: Verification.Texts, ratio: real, survives: real -> bool,
                             session: Receipt.Session)

  /** A row of the table of working orders; `rest` are the columns nothing is decided on. */
  datatype WorkingRow = WorkingRow(orderId: string, instrument: string, rest: string)

  /** A confirmation dialog: its title and the text of its windows. */
  datatype Dialog = Dialog(title: string, text: string)

  /** What the terminal shows during one request. */
  datatype Terminal = Terminal(
    prepared: bool,                          // session, window and artifact directory are in order
    known: bool,                             // the terminal knows exactly this instrument at this exchange
    info: Pricing.InstrumentInfo,
    baseline: bool,                          // positions could be read before the submission
    before: seq<Binding.PreorderRow>,        // the preorder table before and after the import
    after: seq<Binding.PreorderRow>,
    formReady: bool,                         // the order form was filled and its dialog opened
    entered: bool,                           // the import or the confirmation returned
    refused: bool,                           // the import message says that nothing was imported
    preorders: seq<Receipt.ParkedOrder>,     // the preorders parked since the import
    again: seq<Binding.PreorderRow>,         // the table after selecting the row
    armed: bool,                             // the send hook is armed
    calls: seq<Receipt.Call>,                // what happened to the hook since the process started
    restored: bool,                          // the hook reports that it is restored
    sentRows: seq<Binding.PreorderRow>,      // the table after the send
    working: seq<WorkingRow>,                // the working orders, and again after selecting one
    workingAgain: seq<WorkingRow>,
    dialogs: seq<Dialog>,                    // confirmation dialogs after Delete
    dialogCloses: bool,
    rounds: seq<Observation.Round>,          // what the rounds of observation read
    sessionHolds: bool,                      // the session is still the same at the end
    tidy: bool,                              // every stage of the cleanup but the preorder row is confirmed
    cleanRows: seq<Binding.PreorderRow>,     // the preorder table during cleanup: before, after selecting, at the end
    cleanAgain: seq<Binding.PreorderRow>,
    left: seq<Binding.PreorderRow>,
    artifacts: bool,                         // the artifact directory was closed
    severe: bool,                            // an error raised is one that always isolates the executor
    failure: nat)                            // status of an error reply

  datatype Case = Case(setting: Setting, ask: Ask, t: Terminal)

  function KindOf(ask: Ask): Kind {
    match ask
    case Place(order) => if order.price.Some? && !order.immediate then Gfd else Ioc
    case Take(_, _, _) => Kind.Cancel
  }

  // ----- The price -----

  function AsLimit(order: Order): Pricing.LimitOrder {
    Pricing.LimitOrder(order.instrument, if order.buy then Pricing.Buy else Pricing.Sell, 0, order.volume,
                       if order.price.Some? then order.price.value else Decimals.Decimal([], 0),
                       if order.immediate then Pricing.ImmediateOrCancel else Pricing.GoodForDay)
  }

  /** The limit order that is actually placed: normalised, or the boundary of the day. */
  function Effective(c: Case): Option<Pricing.LimitOrder> {
    if !c.ask.Place? || !c.t.known then None
    else if c.ask.order.price.Some? then
      match Pricing.Normalized(AsLimit(c.ask.order), c.t.info, c.setting.ratio, c.setting.survives)
      case Ok((effective, _)) => Some(effective)
      case Err(_) => None
    else
      match Pricing.EmulatedMarket(AsLimit(c.ask.order), c.t.info, c.setting.survives)
      case Ok(effective) => Some(effective)
      case Err(_) => None
  }

  /** The price of the placed order; zero stands for none. */
  function Price(c: Case): real {
    if Effective(c).Some? then Decimals.Value(Effective(c).value.price) else 0.0
  }

  predicate Priced(c: Case) {
    Effective(c).Some? && Pricing.ValidateLimit(Effective(c).value, c.t.info, c.setting.survives).None?
  }

  // ----- The preorder row -----

  function Immediate(order: Order): bool {
    order.immediate || order.price.None?
  }

  function Preorder(c: Case): Binding.Request
    requires c.ask.Place?
  {
    var order := c.ask.order;
    Binding.Request(order.instrument, order.buy, order.offset == Verification.Open, order.volume, Some(Price(c)))
  }

  function Wire(c: Case): Receipt.Request
    requires c.ask.Place?
  {
    var order := c.ask.order;
    Receipt.Request(order.exchange, order.instrument, order.buy, order.offset == Verification.Open, order.volume,
                    Price(c), Immediate(order))
  }

  predicate Importable(c: Case) {
    c.ask.Place? && Priced(c) && Binding.AnySame(c.setting.reader, c.t.before, Preorder(c)) == Ok(false)
  }

  function Statuses(ask: Ask): set<string> {
    if KindOf(ask) == Gfd then {"未启动"} else {"未启动", "已启动"}
  }

  function BindingOf(c: Case): Result<nat, Binding.Problem>
    requires c.ask.Place?
  {
    Binding.BindLocal(c.setting.reader, c.t.before, c.t.after, Preorder(c), Statuses(c.ask))
  }

  /** The row bound in the table read after the import. */
  function BoundRow(c: Case): Option<Binding.PreorderRow> {
    if !c.ask.Place? || BindingOf(c).Err? then None else Some(c.t.after[BindingOf(c).value])
  }

  // ----- Sending -----

  function Parked(c: Case): Option<int> {
    if !c.ask.Place? then None
    else
      match Receipt.ValidatePreorder(Wire(c), c.t.preorders)
      case Ok(id) => Some(id)
      case Err(_) => None
  }

  /** The row is unique, at the same place and unchanged, in the table read after selecting it, and the hook is
      armed. */
  predicate Sendable(c: Case, row: Option<Binding.PreorderRow>) {
    Binding.Selection(row, c.t.after, c.t.again).Ok? && Parked(c).Some? && c.t.armed
  }

  function HookOf(c: Case): Receipt.Hook {
    Receipt.AfterAll(Receipt.FRESH, c.t.calls)
  }

  /** The reference the hook captured, if its receipt is accepted. */
  function Reference(c: Case): Option<Receipt.OrderIdentity> {
    if Parked(c).None? || !c.t.restored then None
    else Receipt.Identity(HookOf(c), Wire(c), Parked(c).value, c.setting.session)
  }

  const SENT := "已发送"

  predicate ShownAsSent(c: Case, row: Option<Binding.PreorderRow>) {
    var found := Binding.Owned(c.t.sentRows, row);
    found.Ok? && c.t.sentRows[found.value].status == SENT
  }

  /** Everything that must hold, from the bound row on, for the order to count as submitted. */
  predicate Sends(c: Case, row: Option<Binding.PreorderRow>) {
    row.Some? && Sendable(c, row) && Reference(c).Some? && ShownAsSent(c, row)
  }

  predicate RefusedImport(c: Case) {
    c.t.refused && c.t.after == c.t.before
  }

  // ----- Cancelling -----

  datatype TargetProblem = NotFound | NotUnique | Changed

  function TargetsFrom(rows: seq<WorkingRow>, orderId: string, instrument: string, i: nat): seq<nat>
    requires i <= |rows|
    decreases |rows| - i
  {
    if i == |rows| then []
    else
      (if rows[i].orderId == orderId && rows[i].instrument == instrument then [i] else [])
      + TargetsFrom(rows, orderId, instrument, i + 1)
  }

  /** The one matching row of the first table, if the second table has the same row at the same place. */
  function Target(rows: seq<WorkingRow>, again: seq<WorkingRow>, orderId: string, instrument: string)
    : (target: Result<nat, TargetProblem>)
    ensures target.Ok? ==> target.value < |rows| && target.value < |again| && again[target.value] == rows[target.value]
  {
    TargetsAre(rows, orderId, instrument, 0);
    var found := TargetsFrom(rows, orderId, instrument, 0);
    if found == [] then Err(NotFound)
    else if |found| != 1 then Err(NotUnique)
    else if found[0] >= |again| || again[found[0]] != rows[found[0]] then Err(Changed)
    else Ok(found[0])
  }

  predicate IsTarget(row: WorkingRow, orderId: string, instrument: string) {
    row.orderId == orderId && row.instrument == instrument
  }

  /** The positions of all targets from i on, in order. */
  ghost predicate AreTargets(found: seq<nat>, rows: seq<WorkingRow>, orderId: string, instrument: string, i: nat) {
    && (forall k :: 0 <= k < |found| ==> i <= found[k] < |rows|)
    && (forall k, l :: 0 <= k < l < |found| ==> found[k] < found[l])
    && (forall j :: i <= j < |rows| ==> (j in found <==> IsTarget(rows[j], orderId, instrument)))
  }

  lemma OneMoreTarget(rest: seq<nat>, rows: seq<WorkingRow>, orderId: string, instrument: string, i: nat)
    requires i < |rows| && AreTargets(rest, rows, orderId, instrument, i + 1)
    ensures IsTarget(rows[i], orderId, instrument) ==> AreTargets([i] + rest, rows, orderId, instrument, i)
    ensures !IsTarget(rows[i], orderId, instrument) ==> AreTargets(rest, rows, orderId, instrument, i)
  {
    hide IsTarget;
    var found := [i] + rest;
    assert forall k :: 0 < k < |found| ==> found[k] == rest[k - 1];
    assert forall j :: j in found <==> j == i || j in rest;
    assert i !in rest;
  }

  lemma TargetsGrow(rows: seq<WorkingRow>, orderId: string, instrument: string, i: nat)
    requires i <= |rows|
    ensures i == |rows| ==> TargetsFrom(rows, orderId, instrument, i) == []
    ensures i < |rows| ==>
              var rest := TargetsFrom(rows, orderId, instrument, i + 1);
              TargetsFrom(rows, orderId, instrument, i)
              == if IsTarget(rows[i], orderId, instrument) then [i] + rest else rest
  {
  }

  lemma {:induction false} TargetsAre(rows: seq<WorkingRow>, orderId: string, instrument: string, i: nat)
    requires i <= |rows|
    ensures AreTargets(TargetsFrom(rows, orderId, instrument, i), rows, orderId, instrument, i)
    decreases |rows| - i
  {
    hide TargetsFrom, IsTarget;
    TargetsGrow(rows, orderId, instrument, i);
    if i < |rows| {
      hide AreTargets;
      TargetsAre(rows, orderId, instrument, i + 1);
      OneMoreTarget(TargetsFrom(rows, orderId, instrument, i + 1), rows, orderId, instrument, i);
    }
  }

  /** The row under Delete is the request's: it carries the requested id and instrument, was the only such row of the
      first table, and stands unchanged at its place in the second. */
  lemma TargetIsTheRequests(rows: seq<WorkingRow>, again: seq<WorkingRow>, orderId: string, instrument: string, i: nat)
    ensures Target(rows, again, orderId, instrument) == Ok(i) <==>
              && i < |rows| && i < |again| && again[i] == rows[i]
              && forall j :: 0 <= j < |rows| ==>
                   (rows[j].orderId == orderId && rows[j].instrument == instrument <==> j == i)
  {
    TargetsAre(rows, orderId, instrument, 0);
    var found := TargetsFrom(rows, orderId, instrument, 0);
    if Target(rows, again, orderId, instrument) == Ok(i) {
      assert found == [i] && i in found;
    }
    if i < |rows| && forall j :: 0 <= j < |rows| ==>
                       (rows[j].orderId == orderId && rows[j].instrument == instrument <==> j == i) {
      assert forall j :: 0 <= j < |rows| ==> (IsTarget(rows[j], orderId, instrument) <==> j == i);
      forall j: nat ensures j in found <==> j == i { assert j in found ==> j < |rows|; }
      Binding.OneIsAll(found, i);
    }
  }

  /** What is left open: the second table is compared at one place only.  The row under Delete is the only match there
      exactly when no row that appeared or changed between the two readings is another match. */
  lemma SecondTableIsUniqueExactly(rows: seq<WorkingRow>, again: seq<WorkingRow>, orderId: string, instrument: string,
                                   i: nat)
    requires Target(rows, again, orderId, instrument) == Ok(i)
    ensures (forall j :: 0 <= j < |again| ==>
               (again[j].orderId == orderId && again[j].instrument == instrument <==> j == i))
            <==> forall j :: 0 <= j < |again| && j != i && (j >= |rows| || again[j] != rows[j]) ==>
                   again[j].orderId != orderId || again[j].instrument != instrument
  {
    TargetIsTheRequests(rows, again, orderId, instrument, i);
  }

  /** Such a row can appear. */
  lemma SecondTableMayShowAnother()
    ensures exists rows: seq<WorkingRow>, again: seq<WorkingRow>, i: nat, j: nat ::
              && Target(rows, again, "648294", "rb2610") == Ok(i) && i != j && j < |again|
              && again[j].orderId == "648294" && again[j].instrument == "rb2610"
  {
    var row, other := WorkingRow("648294", "rb2610", "3500"), WorkingRow("648294", "rb2610", "3600");
    var rows, again := [row], [row, other];
    TargetIsTheRequests(rows, again, "648294", "rb2610", 0);
    assert Target(rows, again, "648294", "rb2610") == Ok(0) && again[1].orderId == "648294";
  }

  predicate OccursAt(text: string, part: string, i: nat) {
    i + |part| <= |text| && text[i..i + |part|] == part
  }

  predicate Mentions(text: string, part: string) {
    exists i: nat :: i <= |text| && OccursAt(text, part, i)
  }

  predicate AlphaNumeric(c: char) {
    'A' <= c <= 'Z' || 'a' <= c <= 'z' || '0' <= c <= '9'
  }

  /** The identifier occurs on its own, not as part of a longer one. */
  predicate Names(text: string, identifier: string) {
    exists i: nat :: i <= |text| && OccursAt(text, identifier, i)
                     && (i == 0 || !AlphaNumeric(text[i - 1]))
                     && (i + |identifier| == |text| || !AlphaNumeric(text[i + |identifier|]))
  }

  predicate DialogFits(c: Case, dialog: Dialog)
    requires c.ask.Take?
  {
    OccursAt(dialog.title, "确认", 0) && Mentions(dialog.text, "撤") && Mentions(dialog.text, c.ask.instrument)
    && Names(dialog.text, c.setting.reader.strip(c.ask.orderId))
  }

  predicate TargetHolds(c: Case) {
    c.ask.Take? && c.t.known && Target(c.t.working, c.t.workingAgain, c.ask.orderId, c.ask.instrument).Ok?
  }

  predicate ConfirmsCancel(c: Case) {
    c.ask.Take? && |c.t.dialogs| == 1 && DialogFits(c, c.t.dialogs[0])
  }

  predicate Cancels(c: Case) {
    TargetHolds(c) && (c.t.dialogs == [] || (ConfirmsCancel(c) && c.t.dialogCloses))
  }

  /** Delete was pressed and no dialog came: only later reads can tell. */
  predicate Silent(c: Case) {
    c.ask.Take? && c.t.dialogs == []
  }

  // ----- Submission, observation, cleanup -----

  predicate Submits(c: Case) {
    match KindOf(c.ask)
    case Gfd => Importable(c) && c.t.entered && !RefusedImport(c) && Sends(c, BoundRow(c))
    case Ioc => Importable(c) && c.t.formReady && c.t.entered && Sends(c, BoundRow(c))
    case Cancel => Cancels(c)
    case Query => false
  }

  function WantedOf(c: Case): Observation.Wanted {
    match c.ask
    case Place(order) =>
      Observation.Placed(
        Observation.MarketOrder(order.exchange, order.instrument,
                                if order.buy then Verification.Buy else Verification.Sell, order.offset, order.volume),
        Observation.Execution(Some(Price(c)), !Immediate(order)))
    case Take(exchange, instrument, orderId) => Observation.Taken(Verification.Place(exchange, instrument), orderId)
  }

  /** The full reference observed; a cancel needs none. */
  function ReferenceOf(c: Case): Verification.Identity {
    match c.ask
    case Place(order) =>
      if Reference(c).None? then Verification.Identity(order.exchange, order.instrument, 0, 0, "")
      else
        var id := Reference(c).value;
        Verification.Identity(id.exchange, id.instrument, id.front, id.session, id.orderRef)
    case Take(exchange, instrument, _) => Verification.Identity(exchange, instrument, 0, 0, "")
  }

  /** The rounds as read; whether a new order id could be saved is decided by the journal. */
  function Read(rounds: seq<Observation.Round>): seq<Observation.Round> {
    seq(|rounds|, i requires 0 <= i < |rounds| => rounds[i].(saved := None))
  }

  function Outcome(c: Case): (Option<string>, Result<Observation.Finding, Verification.Problem>) {
    Observation.Observing(c.setting.texts, WantedOf(c), ReferenceOf(c), Read(c.t.rounds), 0, None,
                          Observation.NOTHING_YET)
  }

  predicate Verifies(c: Case) {
    Outcome(c).1.Ok? && (Silent(c) ==> Outcome(c).1.value.verdict == Observation.Observed) && c.t.sessionHolds
  }

  predicate CleansUp(c: Case, row: Option<Binding.PreorderRow>) {
    c.t.tidy && (row.Some? ==> Binding.Selection(row, c.t.cleanRows, c.t.cleanAgain).Ok?
                               && Binding.IdentityOf(row.value) !in multiset(Binding.Identities(c.t.left)))
  }

  // ----- The conditions in plain fields -----

  /** Which flow carries a request out: only a limit order that may rest goes through the import. */
  lemma FlowIsExact(ask: Ask)
    ensures KindOf(ask) == Gfd <==> ask.Place? && ask.order.price.Some? && !ask.order.immediate
    ensures KindOf(ask) == Ioc <==> ask.Place? && (ask.order.price.None? || ask.order.immediate)
    ensures KindOf(ask) == Kind.Cancel <==> ask.Take?
  {
  }

  /** When an order has a price to be placed at: a limit order its normal form, a market order the limit of its side. */
  lemma PricingIsExact(c: Case)
    requires c.ask.Place? && 0.0 <= c.setting.ratio < 1.0
    ensures var order := c.ask.order;
            var limit := Pricing.LimitOrder(
                           order.instrument, if order.buy then Pricing.Buy else Pricing.Sell, 0, order.volume,
                           if order.price.Some? then order.price.value else Decimals.Decimal([], 0),
                           if order.immediate then Pricing.ImmediateOrCancel else Pricing.GoodForDay);
            var normal := Pricing.Normalized(limit, c.t.info, c.setting.ratio, c.setting.survives);
            var market := Pricing.EmulatedMarket(limit, c.t.info, c.setting.survives);
            && (order.price.Some? ==>
                  && (Priced(c) <==> c.t.known && normal.Ok?)
                  && (Priced(c) ==> Price(c) == Decimals.Value(normal.value.0.price)))
            && (order.price.None? ==>
                  && (Priced(c) <==> c.t.known && market.Ok?)
                  && (Priced(c) ==> Price(c) == Decimals.Value(market.value.price)))
  {
    hide Pricing.Normalized, Pricing.ValidateLimit, Decimals.Value;
    var limit := AsLimit(c.ask.order);
    if c.ask.order.price.Some? {
      if Pricing.Normalized(limit, c.t.info, c.setting.ratio, c.setting.survives).Ok? {
        PricingTheorems.NormalizedOrderIsValid(limit, c.t.info, c.setting.ratio, c.setting.survives);
      }
    }
  }

  /** When the terminal may be touched for an order: it is priced, and no row matches it already. */
  lemma ImportIsExact(c: Case)
    requires c.ask.Place?
    ensures var order := c.ask.order;
            var sought := Binding.Request(order.instrument, order.buy, order.offset == Verification.Open, order.volume,
                                          Some(Price(c)));
            Importable(c) <==>
              Priced(c) && forall row :: row in c.t.before ==>
                             Binding.SameParameters(c.setting.reader, row, sought) == Ok(false)
  {
    hide Binding.SameParameters, Priced, Price;
    Binding.PreCheckIsExact(c.setting.reader, c.t.before, Preorder(c));
  }

  /** When the send key may be pressed: the bound row is selected, unique and unchanged, the one order parked since
      is this one, and the hook is armed. */
  lemma SendingIsExact(c: Case, row: Binding.PreorderRow)
    requires c.ask.Place?
    ensures var order := c.ask.order; var id := Binding.IdentityOf(row);
            Sendable(c, Some(row)) <==>
              && (exists i: nat ::
                    Binding.Only(c.t.after, i, id) && Binding.Only(c.t.again, i, id) && c.t.again[i] == c.t.after[i])
              && c.t.armed && |c.t.preorders| == 1
              && var parked := c.t.preorders[0];
                 && parked.instrument == order.instrument && parked.volume == order.volume && parked.price == Price(c)
                 && parked.side == (if order.buy then 0 else 1)
                 && parked.offset == (if order.offset == Verification.Open then 0 else 3)
                 && parked.timeCondition == (if order.immediate || order.price.None? then 1 else 3)
                 && parked.hedge == 1 && parked.selector == 105 && parked.volumeCondition == 1
    ensures !Sendable(c, None)
  {
    hide Binding.Selection, Receipt.ValidatePreorder, Price;
    Binding.SelectionIsExact(Some(row), c.t.after, c.t.again);
    Binding.SelectionIsExact(None, c.t.after, c.t.again);
    Receipt.ParkedOrderIsExact(Wire(c), c.t.preorders);
  }

  /** When the row counts as sent. */
  lemma ShownIsExact(c: Case, row: Binding.PreorderRow)
    ensures ShownAsSent(c, Some(row)) <==>
              exists i: nat :: Binding.Only(c.t.sentRows, i, Binding.IdentityOf(row)) && c.t.sentRows[i].status == "已发送"
    ensures !ShownAsSent(c, None)
  {
    hide Binding.Owned;
    forall i: nat ensures Binding.Owned(c.t.sentRows, Some(row)) == Ok(i)
                          <==> Binding.Only(c.t.sentRows, i, Binding.IdentityOf(row)) {
      Binding.OwnedIsTheOnlyOne(c.t.sentRows, row, i);
    }
    NothingOwned(c.t.sentRows);
  }

  lemma NothingOwned(rows: seq<Binding.PreorderRow>)
    ensures Binding.Owned(rows, None).Err?
  {
  }

  /** When a request counts as submitted. */
  lemma SubmissionIsExact(c: Case)
    ensures c.ask.Place? ==>
              (Submits(c) <==>
                 && Importable(c) && c.t.entered && BoundRow(c).Some? && Sendable(c, BoundRow(c))
                 && Reference(c).Some? && ShownAsSent(c, BoundRow(c))
                 && (c.ask.order.price.Some? && !c.ask.order.immediate ==> !(c.t.refused && c.t.after == c.t.before))
                 && (c.ask.order.price.None? || c.ask.order.immediate ==> c.t.formReady))
    ensures c.ask.Take? ==>
              (Submits(c) <==>
                 && c.t.known && Target(c.t.working, c.t.workingAgain, c.ask.orderId, c.ask.instrument).Ok?
                 && (c.t.dialogs == []
                     || (|c.t.dialogs| == 1 && DialogFits(c, c.t.dialogs[0]) && c.t.dialogCloses)))
  {
    hide Importable, BoundRow, Sendable, Reference, ShownAsSent, Target, DialogFits;
  }

  /** What is looked for afterwards: for an order the one of the captured reference, as asked and at the placed price;
      for a cancel the order of that id at that place. */
  lemma SearchIsExact(c: Case)
    ensures c.ask.Place? ==>
              var order := c.ask.order; var sought := WantedOf(c);
              && sought.Placed? && sought.request.exchange == order.exchange
              && sought.request.instrument == order.instrument && sought.request.offset == order.offset
              && sought.request.volume == order.volume && sought.execution.price == Some(Price(c))
              && sought.request.side == (if order.buy then Verification.Buy else Verification.Sell)
              && (sought.execution.goodForDay <==> order.price.Some? && !order.immediate)
    ensures c.ask.Take? ==>
              WantedOf(c) == Observation.Taken(Verification.Place(c.ask.exchange, c.ask.instrument), c.ask.orderId)
    ensures c.ask.Place? && Reference(c).Some? ==>
              var captured, id := Reference(c).value, ReferenceOf(c);
              && id.exchange == captured.exchange && id.instrument == captured.instrument && id.front == captured.front
              && id.session == captured.session && id.orderRef == captured.orderRef
  {
    hide Reference, Price;
  }

  /** When it counts as verified, and when as cleaned up. */
  lemma EndIsExact(c: Case, row: Binding.PreorderRow)
    ensures Verifies(c) <==>
              && Outcome(c).1.Ok? && c.t.sessionHolds
              && (c.ask.Take? && c.t.dialogs == [] ==> Outcome(c).1.value.verdict == Observation.Observed)
    ensures CleansUp(c, None) <==> c.t.tidy
    ensures var id := Binding.IdentityOf(row);
            CleansUp(c, Some(row)) <==>
              && c.t.tidy && (forall other :: other in c.t.left ==> Binding.IdentityOf(other) != id)
              && exists i: nat :: Binding.Only(c.t.cleanRows, i, id) && Binding.Only(c.t.cleanAgain, i, id)
                                  && c.t.cleanAgain[i] == c.t.cleanRows[i]
  {
    hide Outcome, Binding.Selection, Binding.Identities, Binding.IdentityOf;
    Binding.SelectionIsExact(Some(row), c.t.cleanRows, c.t.cleanAgain);
    Binding.InIdentities(c.t.left, Binding.IdentityOf(row));
  }

  /** The text is put together from these three parts. */
  ghost predicate Consists(text: string, a: string, part: string, b: string) {
    text == a + part + b
  }

  /** Neither of the two parts touches what stands between them with a letter or a digit. */
  ghost predicate LeavesFree(a: string, b: string) {
    && (a != "" ==> var x := a[|a| - 1]; !('A' <= x <= 'Z') && !('a' <= x <= 'z') && !('0' <= x <= '9'))
    && (b != "" ==> var x := b[0]; !('A' <= x <= 'Z') && !('a' <= x <= 'z') && !('0' <= x <= '9'))
  }

  /** A cancel dialog is confirmed exactly when its title begins with "confirm", its text speaks of withdrawing and
      names the instrument, and the order's id stands in it on its own, with no letter or digit next to it. */
  lemma DialogIsExact(c: Case, dialog: Dialog)
    requires c.ask.Take?
    ensures var id := c.setting.reader.strip(c.ask.orderId); var text := dialog.text;
            DialogFits(c, dialog) <==>
              && |dialog.title| >= 2 && dialog.title[..2] == "确认"
              && (exists a, b :: Consists(text, a, "撤", b)) && (exists a, b :: Consists(text, a, c.ask.instrument, b))
              && (exists a, b :: Consists(text, a, id, b) && LeavesFree(a, b))
  {
    hide Mentions, Names, Consists, LeavesFree;
    MentionIsExact(dialog.text, "撤");
    MentionIsExact(dialog.text, c.ask.instrument);
    NameIsExact(dialog.text, c.setting.reader.strip(c.ask.orderId));
  }

  lemma Taken(text: string, part: string, i: nat)
    requires OccursAt(text, part, i)
    ensures Consists(text, text[..i], part, text[i + |part|..])
  {
  }

  lemma Joined(text: string, a: string, part: string, b: string)
    requires Consists(text, a, part, b)
    ensures OccursAt(text, part, |a|) && text[..|a|] == a && text[|a| + |part|..] == b
  {
  }

  lemma MentionIsExact(text: string, part: string)
    ensures Mentions(text, part) <==> exists a, b :: Consists(text, a, part, b)
  {
    hide Consists;
    if i: nat :| i <= |text| && OccursAt(text, part, i) { Taken(text, part, i); }
    if a, b :| Consists(text, a, part, b) {
      Joined(text, a, part, b);
      assert |a| <= |text|;
    }
  }

  lemma FreeIsBare(text: string, a: string, id: string, b: string)
    requires Consists(text, a, id, b)
    ensures LeavesFree(a, b) <==>
              (|a| == 0 || !AlphaNumeric(text[|a| - 1]))
              && (|a| + |id| == |text| || !AlphaNumeric(text[|a| + |id|]))
  {
    assert a != "" ==> text[|a| - 1] == a[|a| - 1];
    assert b != "" ==> text[|a| + |id|] == b[0];
  }

  lemma NameIsExact(text: string, id: string)
    ensures Names(text, id) <==> exists a, b :: Consists(text, a, id, b) && LeavesFree(a, b)
  {
    hide Consists, LeavesFree, AlphaNumeric;
    if i: nat :| i <= |text| && OccursAt(text, id, i) && (i == 0 || !AlphaNumeric(text[i - 1]))
                 && (i + |id| == |text| || !AlphaNumeric(text[i + |id|])) {
      Taken(text, id, i);
      FreeIsBare(text, text[..i], id, text[i + |id|..]);
    }
    if a, b :| Consists(text, a, id, b) && LeavesFree(a, b) {
      Joined(text, a, id, b);
      FreeIsBare(text, a, id, b);
      assert |a| <= |text|;
    }
  }

  /** An ordinary dialog is confirmed: it asks to withdraw this order of this instrument. */
  lemma OrdinaryDialogFits(c: Case)
    requires c.ask.Take?
    ensures var id := c.setting.reader.strip(c.ask.orderId);
            DialogFits(c, Dialog("确认撤单", "撤单 " + c.ask.instrument + " 编号 " + id + " ?"))
  {
    var id, instrument := c.setting.reader.strip(c.ask.orderId), c.ask.instrument;
    var text := "撤单 " + instrument + " 编号 " + id + " ?";
    var a := "撤单 " + instrument + " 编号 ";
    assert "撤单 " == "撤" + "单 " && "" + "撤" == "撤";
    assert Consists(text, "", "撤", "单 " + instrument + " 编号 " + id + " ?");
    assert Consists(text, "撤单 ", instrument, " 编号 " + id + " ?");
    assert Consists(text, a, id, " ?");
    assert a[|a| - 1] == ' ' && LeavesFree(a, " ?");
    assert "确认撤单"[..2] == "确认";
    DialogIsExact(c, Dialog("确认撤单", text));
  }

  // ----- What an accepted order is -----

  /** The price placed is legal, on the grid and transportable. A limit order is never worse than asked by more than
      a billionth of a tick, is asked no further out than the configured share, and gets the best such price; a
      market order is placed, during continuous trading, at the day's limit of its side. */
  ghost predicate PriceIsTheRequests(c: Case, price: real)
    requires c.ask.Place?
  {
    var info, order, ratio := c.t.info, c.ask.order, c.setting.ratio;
    && info.tick.Finite? && info.lower.Finite? && info.upper.Finite?
    && var tick, lower := Decimals.Value(info.tick.text), Decimals.Value(info.lower.text);
       var upper, noise := Decimals.Value(info.upper.text), tick / 1000000000.0;
       && lower <= price <= upper && (exists k: int :: price == Decimals.Ticks(k, tick)) && c.setting.survives(price)
       && 1 <= info.minVolume <= order.volume <= info.maxVolume
       && (order.price.None? ==> info.status == 3 && price == if order.buy then upper else lower)
       && (order.price.Some? ==>
             var asked := Decimals.Value(order.price.value);
             && (order.buy ==>
                   && price <= asked + noise && asked <= upper * (1.0 + ratio) + 2.0 * noise
                   && forall k: int :: Decimals.Ticks(k, tick) <= asked && Decimals.Ticks(k, tick) <= upper ==>
                        Decimals.Ticks(k, tick) <= price)
             && (!order.buy ==>
                   && asked - noise <= price && lower * (1.0 - ratio) - 2.0 * noise <= asked
                   && forall k: int :: asked <= Decimals.Ticks(k, tick) && lower <= Decimals.Ticks(k, tick) ==>
                        price <= Decimals.Ticks(k, tick)))
  }

  lemma LimitIsLegal(c: Case)
    requires c.ask.Place? && c.ask.order.price.Some? && Priced(c) && 0.0 <= c.setting.ratio < 1.0
    ensures PriceIsTheRequests(c, Price(c))
  {
    hide Pricing.Normalized, Pricing.ValidateLimit, Decimals.Value, Decimals.Ticks;
    var limit, info := AsLimit(c.ask.order), c.t.info;
    PricingTheorems.UnusableIsRefused(limit, info, c.setting.ratio, c.setting.survives);
    PricingTheorems.AcceptedOrderIsWithinTheShare(limit, info, c.setting.ratio, c.setting.survives, 0);
    var tick := Decimals.Value(info.tick.text);
    forall k: int
      ensures var at, asked := Decimals.Ticks(k, tick), Decimals.Value(c.ask.order.price.value);
              && (c.ask.order.buy && at <= asked && at <= Decimals.Value(info.upper.text) ==> at <= Price(c))
              && (!c.ask.order.buy && asked <= at && Decimals.Value(info.lower.text) <= at ==> Price(c) <= at)
    {
      PricingTheorems.AcceptedOrderIsWithinTheShare(limit, info, c.setting.ratio, c.setting.survives, k);
    }
  }

  lemma MarketIsLegal(c: Case)
    requires c.ask.Place? && c.ask.order.price.None? && Priced(c)
    ensures PriceIsTheRequests(c, Price(c))
  {
    hide Pricing.EmulatedMarket, Pricing.ValidateLimit, Decimals.Value, Decimals.Ticks;
    PricingTheorems.MarketIsExact(AsLimit(c.ask.order), c.t.info, c.setting.survives);
    PricingTheorems.StrictCheckIsExact(Effective(c).value, c.t.info, c.setting.survives);
  }

  lemma EffectiveIsLegal(c: Case)
    requires c.ask.Place? && Priced(c) && 0.0 <= c.setting.ratio < 1.0
    ensures PriceIsTheRequests(c, Price(c))
  {
    hide PriceIsTheRequests, Priced, Price;
    if c.ask.order.price.Some? { LimitIsLegal(c); } else { MarketIsLegal(c); }
  }

  /** The row is new and unique, and its columns are the order's: a manual speculative preorder of this instrument, side
      and offset, with this volume and exactly the placed price. */
  ghost predicate RowIsTheRequests(c: Case, row: Binding.PreorderRow, i: nat)
    requires c.ask.Place?
  {
    var order, reader := c.ask.order, c.setting.reader;
    && i < |c.t.after| && row == c.t.after[i]
    && row.kind == "预埋单(手动)" && row.trigger == "手动发出" && row.hedge == "投机"
    && row.instrument == order.instrument && reader.strip(row.side) == (if order.buy then "买" else "卖")
    && row.offset == (if order.offset == Verification.Open then "开仓" else "平仓")
    && reader.number(row.volume) == Some(order.volume as real)
    && reader.number(reader.strip(row.price)) == Some(Price(c)) && !reader.marketPrice(reader.strip(row.price))
    && (row.status == "未启动" || (row.status == "已启动" && (order.immediate || order.price.None?)))
    && (forall other :: other in c.t.before ==> Binding.IdentityOf(other) != Binding.IdentityOf(row))
    && Binding.Only(c.t.after, i, Binding.IdentityOf(row))
  }

  /** What the hook saw sent is the one parked order, and both are the order, field by field, at the placed price. */
  ghost predicate SendIsTheRequests(c: Case, fields: Receipt.Fields)
    requires c.ask.Place?
  {
    var order := c.ask.order;
    && HookOf(c).log == [Receipt.SendBegan, Receipt.CalledBack(fields), Receipt.SendEnded]
    && |c.t.preorders| == 1 && fields.source == Some(c.t.preorders[0].id)
    && fields.instrument == c.t.preorders[0].instrument == order.instrument
    && fields.volume == c.t.preorders[0].volume == order.volume
    && fields.direction == c.t.preorders[0].side == (if order.buy then 0 else 1)
    && fields.offset == c.t.preorders[0].offset == (if order.offset == Verification.Open then 0 else 3)
    && fields.price == c.t.preorders[0].price == Price(c)
    && fields.timeCondition == c.t.preorders[0].timeCondition == (if order.immediate || order.price.None? then 1 else 3)
    && Reference(c).Some? && Reference(c).value.orderRef == fields.orderRef
    && Reference(c).value.exchange == order.exchange && Reference(c).value.instrument == order.instrument
    && (Receipt.SendsOf(HookOf(c).attempts, c.t.preorders[0].id) == 1 <==>
          Receipt.OnlyWatchedSends(HookOf(c).attempts, c.t.preorders[0].id))
  }

  /** What the confirmed order is, when it was observed: the order asked for at the placed price, in a state that it
      will keep, or resting in the book if it is good for day; with its own trades. */
  ghost predicate ExecutionIsTheRequests(c: Case, finding: Observation.Finding)
    requires c.ask.Place?
  {
    finding.verdict == Observation.Observed ==>
      && |finding.orders| == 1 && 1 <= finding.attempts <= |c.t.rounds|
      && var asked, order := c.ask.order, finding.orders[0];
      && order.volume == asked.volume && order.price == Some(Price(c))
      && order.side == (if asked.buy then Verification.Buy else Verification.Sell)
      && (order.offset == Verification.UnknownOffset || order.offset == asked.offset
          || (asked.offset == Verification.Close
              && order.offset in {Verification.CloseToday, Verification.CloseYesterday}))
      && (order.status in {Verification.Filled, Verification.Cancelled, Verification.Rejected}
          || (order.status in {Verification.Opened, Verification.PartiallyFilled}
              && !asked.immediate && asked.price.Some?))
      && var round := Read(c.t.rounds)[finding.attempts - 1]; var wanted := WantedOf(c);
         && round.tracked.Ok? && round.orders.Ok? && round.trades.Ok?
         && Observation.Proven(c.setting.texts, wanted.request, wanted.execution, ReferenceOf(c), round.tracked.value,
                               Observation.Relevant(wanted.request, round.orders.value),
                               Observation.RelevantTrades(wanted.request, round.trades.value),
                               order, finding.trades)
  }

  lemma BoundRowIsTheRequests(c: Case)
    requires c.ask.Place? && BoundRow(c).Some?
    ensures RowIsTheRequests(c, BoundRow(c).value, BindingOf(c).value)
  {
    hide Binding.SameParameters, Binding.BindLocal, Effective, Price;
    var i := BindingOf(c).value;
    Binding.BoundIdentityIsNewAndUnique(c.setting.reader, c.t.before, c.t.after, Preorder(c), Statuses(c.ask));
    Binding.BindingIsExact(c.setting.reader, c.t.before, c.t.after, Preorder(c), Statuses(c.ask), i);
    Binding.MatchIsExact(c.setting.reader, c.t.after[i], Preorder(c));
  }

  lemma ReferencedSendIsTheRequests(c: Case)
    requires c.ask.Place? && Reference(c).Some?
    ensures exists fields :: SendIsTheRequests(c, fields)
  {
    hide Effective, Price, Receipt.Identity, Receipt.ValidatePreorder, Receipt.SendsOf, Receipt.OnlyWatchedSends;
    var h := HookOf(c);
    Receipt.AcceptedReceiptIsTheSend(c.t.calls, Wire(c), Parked(c).value, c.setting.session);
    Receipt.SentOnceExactly(c.t.calls, Wire(c), Parked(c).value, c.setting.session);
    Receipt.ParkedOrderIsExact(Wire(c), c.t.preorders);
    var fields :| h.log == [Receipt.SendBegan, Receipt.CalledBack(fields), Receipt.SendEnded]
                  && Receipt.Matches(fields, Wire(c), Parked(c).value)
                  && Reference(c).value.orderRef == fields.orderRef;
    Receipt.IdentityIsExact(h, Wire(c), Parked(c).value, c.setting.session);
    assert SendIsTheRequests(c, fields);
  }

  lemma ObservedExecutionIsTheRequests(c: Case)
    requires c.ask.Place? && Outcome(c).1.Ok?
    ensures ExecutionIsTheRequests(c, Outcome(c).1.value)
  {
    hide Receipt.Identity, Observation.Compare, Pricing.Normalized, Pricing.EmulatedMarket, Price, Reference,
      Observation.Proven;
    var finding := Outcome(c).1.value;
    if finding.verdict == Observation.Observed {
      var wanted, rounds := WantedOf(c), Read(c.t.rounds);
      Observation.FindingsAreOfTheirRound(c.setting.texts, wanted, ReferenceOf(c), rounds, 0, None,
                                          Observation.NOTHING_YET);
      var round := rounds[finding.attempts - 1];
      var orders := Observation.Relevant(wanted.request, round.orders.value);
      var trades := Observation.RelevantTrades(wanted.request, round.trades.value);
      Observation.ObservedIsSound(c.setting.texts, wanted.request, wanted.execution, ReferenceOf(c),
                                  round.tracked.value, orders, trades, finding.attempts);
      Observation.ObservedOrderIsTheRequests(c.setting.texts, wanted.request, wanted.execution, ReferenceOf(c),
                                             round.tracked.value, orders, trades, finding.attempts);
    }
  }

  /** When the confirmed order of this request counts as finished, once it is settled as asked and its trades add up: an
      order that is immediate or has no price only when filled, cancelled or rejected; any other also while it rests. */
  lemma OrderIsFinishedExactly(c: Case, round: Observation.Round, attempt: nat, order: Verification.Order)
    requires c.ask.Place? && round.tracked.Ok? && round.orders.Ok? && round.trades.Ok?
    requires var orders := Observation.Relevant(WantedOf(c).request, round.orders.value);
             Verification.Settled(c.setting.texts, ReferenceOf(c), round.tracked.value, orders, order)
    requires order.volume == c.ask.order.volume && order.price == Some(Price(c)) && order.offset == c.ask.order.offset
             && order.side == (if c.ask.order.buy then Verification.Buy else Verification.Sell)
    requires var trades := Observation.RelevantTrades(WantedOf(c).request, round.trades.value);
             var own := Observation.Linked(trades, Observation.Links(round.tracked.value.trades));
             && Observation.TradesMatchLinks(own, round.tracked.value.trades, trades)
             && Observation.Volume(own) == order.filled
             && forall k :: 0 <= k < |own| ==>
                  own[k].orderId == order.orderId && own[k].side == order.side && own[k].offset == order.offset
    ensures var r := Observation.Judged(c.setting.texts, WantedOf(c), ReferenceOf(c), round, attempt);
            && r.Ok? && r.value.orders == [order]
            && (r.value.verdict == Observation.Observed <==>
                  || order.status in {Verification.Filled, Verification.Cancelled, Verification.Rejected}
                  || (order.status in {Verification.Opened, Verification.PartiallyFilled}
                      && !c.ask.order.immediate && c.ask.order.price.Some?))
            && (r.value.verdict != Observation.Observed ==> r.value.verdict == Observation.Unsettled)
  {
    hide Observation.Compare, Observation.Linked, Observation.Links, Observation.TradesMatchLinks, Observation.Volume,
      Observation.Relevant, Observation.RelevantTrades, Verification.Settled, Price, ReferenceOf;
    var wanted := WantedOf(c);
    Observation.FinalIsExact(c.setting.texts, wanted.request, wanted.execution, ReferenceOf(c), round.tracked.value,
                             Observation.Relevant(wanted.request, round.orders.value),
                             Observation.RelevantTrades(wanted.request, round.trades.value), attempt, order);
  }

  /** All of it: for a bound row and a finding. */
  ghost predicate OrderIsTheRequests(c: Case, row: Option<Binding.PreorderRow>, finding: Observation.Finding)
    requires c.ask.Place?
  {
    && PriceIsTheRequests(c, Price(c))
    && row.Some? && (exists i: nat :: RowIsTheRequests(c, row.value, i))
    && (exists fields :: SendIsTheRequests(c, fields))
    && ExecutionIsTheRequests(c, finding)
  }

  /** From the request to the trade: an order that was submitted and verified was placed at a legal price the request
      allows, as a row that was new and unique, was the one order the hook saw sent, and, if its execution was observed,
      is the one order of the captured reference, with that price, its trades and nothing else. */
  lemma AcceptedOrderIsTheRequests(c: Case)
    requires c.ask.Place? && 0.0 <= c.setting.ratio < 1.0 && Submits(c) && Verifies(c)
    ensures OrderIsTheRequests(c, BoundRow(c), Outcome(c).1.value)
  {
    hide PriceIsTheRequests, RowIsTheRequests, SendIsTheRequests, ExecutionIsTheRequests, Outcome, Price;
    EffectiveIsLegal(c);
    BoundRowIsTheRequests(c);
    ReferencedSendIsTheRequests(c);
    ObservedExecutionIsTheRequests(c);
  }
}
