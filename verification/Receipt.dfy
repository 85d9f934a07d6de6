/** The hook that captures the reference of the one order being sent (native/receipt.c, terminal/tracking.py:49-79).

    The terminal is re-entrant: while it sends, it may call back, send again, process "finish" and "arm" messages,
    or let other code change the two pointer slots.  What it does is a tree of calls; every tree is allowed.
 */
module Receipt {
  import opened Base

  datatype Pointer = Null | Original | OurSend | OurObserver | Foreign(address: nat)

  /** What became of one guarded pointer exchange: done, refused, or done although protection could not be restored. */
  datatype Protect = Done | Refused | Unrestored

  /** The fields the callback copies out of the request being sent; a source "p<n>" is Some(n). */
  datatype Fields = Fields(valid: bool, direction: int, offset: int, volume: int, price: real, timeCondition: int,
                           selector: int, instrument: string, orderRef: string, source: Option<int>)

  datatype Captured = Captured(parkedId: int, fields: Fields)

  datatype Call =
    | Send(id: int, ownerThread: bool, install: Protect, restore: Protect, inner: seq<Call>)
    | Callback(ourObject: bool, ownerThread: bool, fields: Fields)
    | Stop(undoCallback: Protect, undoSend: Protect)
    | Arm(id: int, ownerThread: bool, send: Protect, undoCallback: Protect, undoSend: Protect)
    | Tamper(slotOfCallback: bool, address: nat)

  /** What our hooks were called for since the last arm. */
  datatype Entry = SendBegan | CalledBack(fields: Fields) | SendEnded

  /** One send by the terminal, however it went: through our hook or past it, on which thread, before or after a stop
      had cleared `expected`. */
  datatype Attempt = Attempt(id: int, hooked: bool, ownerThread: bool, open: bool)

  /** `armed` and `attempts` are no variables of the hook: they keep which order was armed last and every send since. */
  datatype Hook = Hook(expected: int, scopeId: int, installed: bool, active: int, sendCount: int, count: int,
                       broken: bool, sendSlot: Pointer, callbackSlot: Pointer, receipt: Option<Captured>,
                       log: seq<Entry>, armed: int, attempts: seq<Attempt>)

  const FRESH := Hook(0, 0, false, 0, 0, 0, false, Original, Null, None, [], 0, [])

  // ----- The calls as functions -----

  predicate Exchanges(found: Pointer, from: Pointer, protect: Protect) {
    found == from && protect != Refused
  }

  /** The slot after replace_pointer, and whether it reported success. */
  function Replaced(found: Pointer, from: Pointer, to: Pointer, protect: Protect): (Pointer, bool) {
    (if Exchanges(found, from, protect) then to else found, found == from && protect == Done)
  }

  function CalledBackAfter(h: Hook, ourObject: bool, ownerThread: bool, fields: Fields): Hook {
    var seen := h.(log := h.log + [CalledBack(fields)]);
    if !ourObject || h.expected == 0 || h.scopeId != h.expected || !ownerThread then seen.(broken := true)
    else if h.count + 1 != 1 then seen.(count := h.count + 1, broken := true)
    else seen.(count := h.count + 1, receipt := Some(Captured(h.scopeId, fields)))
  }

  predicate Ours(h: Hook, id: int, ownerThread: bool) {
    h.sendSlot == OurSend && h.expected != 0 && ownerThread && id == h.expected
  }

  function SendBegun(h: Hook, install: Protect): Hook {
    var (slot, observing) := Replaced(h.callbackSlot, Null, OurObserver, install);
    h.(scopeId := h.expected, sendCount := h.sendCount + 1, active := h.active + 1, callbackSlot := slot,
       broken := h.broken || !observing, log := h.log + [SendBegan])
  }

  /** Every send, whether or not the hook is still there to see it. */
  function Attempted(h: Hook, id: int, ownerThread: bool): Hook {
    h.(attempts := h.attempts + [Attempt(id, h.sendSlot == OurSend, ownerThread, h.expected != 0)])
  }

  predicate Observes(h: Hook, install: Protect) {
    Replaced(h.callbackSlot, Null, OurObserver, install).1
  }

  function SendFinished(h: Hook, observing: bool, previous: int, restore: Protect): Hook {
    var (slot, done) := if observing then Replaced(h.callbackSlot, OurObserver, Null, restore)
        else (h.callbackSlot, true);
    h.(callbackSlot := slot, broken := h.broken || !done, scopeId := previous, active := h.active - 1,
       log := h.log + [SendEnded])
  }

  function Stopped(h: Hook, callback: Protect, send: Protect): (Hook, bool) {
    if !h.installed then (h, true)
    else if h.active != 0 then (h, false)
    else
      var (slot, cleared) := if h.callbackSlot == OurObserver then Replaced(h.callbackSlot, OurObserver, Null, callback)
                             else (h.callbackSlot, true);
      var k := h.(expected := 0, callbackSlot := slot);
      if !cleared || slot != Null then (k, false)
      else
        var (back, undone) := if h.sendSlot == OurSend then Replaced(h.sendSlot, OurSend, Original, send)
                              else (h.sendSlot, h.sendSlot == Original);
        if undone then (k.(sendSlot := back, installed := false), true) else (k.(sendSlot := back), false)
  }

  function Armed(h: Hook, id: int, ownerThread: bool, send: Protect, undoCallback: Protect, undoSend: Protect): Hook {
    if h.installed || id <= 0 || h.callbackSlot != Null || h.sendSlot != Original then h
    else
      var (slot, done) := Replaced(h.sendSlot, Original, OurSend, send);
      var k := Hook(id, 0, true, 0, 0, 0, false, slot, h.callbackSlot, None, [], id, []);
      if done then k else Stopped(k, undoCallback, undoSend).0
  }

  function After(h: Hook, call: Call): Hook
    decreases call, 1
  {
    match call
    case Send(id, ownerThread, install, restore, inner) =>
      var seen := Attempted(h, id, ownerThread);
      if Ours(h, id, ownerThread) then
        SendFinished(AfterAll(SendBegun(seen, install), inner), Observes(seen, install), h.scopeId, restore)
      else AfterAll(seen, inner)
    case Callback(ourObject, ownerThread, fields) =>
      if h.callbackSlot == OurObserver then CalledBackAfter(h, ourObject, ownerThread, fields) else h
    case Stop(undoCallback, undoSend) => Stopped(h, undoCallback, undoSend).0
    case Arm(id, ownerThread, send, undoCallback, undoSend) => Armed(h, id, ownerThread, send, undoCallback, undoSend)
    case Tamper(slotOfCallback, address) =>
      if slotOfCallback then h.(callbackSlot := Foreign(address)) else h.(sendSlot := Foreign(address))
  }

  function AfterAll(h: Hook, calls: seq<Call>): Hook
    decreases calls, 0
  {
    if calls == [] then h else AfterAll(After(h, calls[0]), calls[1..])
  }

  // ----- What every call tree keeps -----

  ghost predicate Consistent(h: Hook) {
    && h.active >= 0 && h.sendCount >= 0 && h.count >= 0
    && (h.active > 0 ==> h.installed && h.expected > 0 && h.scopeId == h.expected && h.sendCount > 0)
    && (h.active == 0 ==> h.scopeId == 0)
    && h.expected >= 0
    && (!h.installed ==> h.sendSlot != OurSend && h.callbackSlot != OurObserver)
    && (h.installed && h.active == 0 && !h.broken ==> h.callbackSlot != OurObserver)
    && h.sendSlot != OurObserver && h.callbackSlot != OurSend && h.callbackSlot != Original
    && LogOk(h) && AttemptsOk(h)
  }

  /** While nothing went wrong, the counters spell the log of a first send completely. */
  ghost predicate LogOk(h: Hook) {
    && (!h.broken ==> h.count <= 1 && (h.count == 0 <==> h.receipt.None?) && h.active <= h.sendCount)
    && (!h.broken && h.sendCount == 0 ==> h.log == [] && h.count == 0)
    && (!h.broken && h.sendCount == 1 && h.count == 0 ==>
          h.log == [SendBegan] + if h.active > 0 then [] else [SendEnded])
    && (!h.broken && h.sendCount == 1 && h.count == 1 ==>
          h.receipt.Some? && h.receipt.value.parkedId > 0 &&
          h.log == [SendBegan, CalledBack(h.receipt.value.fields)] + if h.active > 0 then [] else [SendEnded])
  }

  predicate Observed(a: Attempt, id: int) {
    a.id == id && a.hooked && a.ownerThread && a.open
  }

  /** How many sends of the order the hook observed, and how many there were at all. */
  function Observations(attempts: seq<Attempt>, id: int): nat {
    if attempts == [] then 0
    else Observations(attempts[..|attempts| - 1], id) + if Observed(attempts[|attempts| - 1], id) then 1 else 0
  }

  function SendsOf(attempts: seq<Attempt>, id: int): nat {
    if attempts == [] then 0
    else SendsOf(attempts[..|attempts| - 1], id) + if attempts[|attempts| - 1].id == id then 1 else 0
  }

  /** `send_count` counts the observed sends of the armed order; before a stop nothing gets past the hook unless other
      code has taken its slot, and then no stop succeeds. */
  ghost predicate AttemptsOk(h: Hook) {
    && (h.expected == 0 || h.expected == h.armed) && (!h.installed ==> h.expected == 0)
    && h.sendCount == Observations(h.attempts, h.armed)
    && (h.receipt.Some? ==> h.receipt.value.parkedId == h.armed)
    && (h.installed && h.expected != 0 ==> h.sendSlot == OurSend || h.sendSlot.Foreign?)
    && ((exists a :: a in h.attempts && a.open && !a.hooked) ==> h.installed && h.sendSlot.Foreign?)
  }

  /** What a call may change about the sends in progress: nothing. */
  ghost predicate KeepsDepth(h: Hook, k: Hook) {
    k.active == h.active
    && (h.active > 0 ==>
          k.installed && k.expected == h.expected && k.scopeId == h.scopeId && k.sendCount >= h.sendCount)
  }

  lemma SendKeeps(h: Hook, middle: Hook, install: Protect, restore: Protect)
    requires Consistent(h) && h.sendSlot == OurSend && h.expected != 0
    requires Consistent(middle) && KeepsDepth(SendBegun(h, install), middle)
    ensures var k := SendFinished(middle, Observes(h, install), h.scopeId, restore);
            (Observes(h, install) || middle.broken ==> Consistent(k)) && KeepsDepth(h, k)
  {
  }

  /** A send that could not install the observer has set `broken`, and nothing but a new arm clears it. */
  ghost predicate KeepsBroken(h: Hook, k: Hook) {
    h.active > 0 && h.broken ==> k.broken
  }

  lemma StopKeeps(h: Hook, undoCallback: Protect, undoSend: Protect)
    requires Consistent(h)
    ensures var k := Stopped(h, undoCallback, undoSend).0;
            Consistent(k) && KeepsDepth(h, k) && KeepsBroken(h, k)
  {
    hide Observations, SendsOf;
  }

  lemma ArmKeeps(h: Hook, id: int, ownerThread: bool, send: Protect, undoCallback: Protect, undoSend: Protect)
    requires Consistent(h)
    ensures var k := Armed(h, id, ownerThread, send, undoCallback, undoSend);
            Consistent(k) && KeepsDepth(h, k) && KeepsBroken(h, k)
  {
  }

  lemma AttemptGrows(attempts: seq<Attempt>, a: Attempt, id: int)
    ensures Observations(attempts + [a], id) == Observations(attempts, id) + if Observed(a, id) then 1 else 0
    ensures SendsOf(attempts + [a], id) == SendsOf(attempts, id) + if a.id == id then 1 else 0
  {
    assert (attempts + [a])[..|attempts|] == attempts;
  }

  lemma ObservedAttemptKeeps(h: Hook, id: int, ownerThread: bool, install: Protect)
    requires Consistent(h) && Ours(h, id, ownerThread)
    ensures var seen := Attempted(h, id, ownerThread);
            Consistent(SendBegun(seen, install)) && KeepsDepth(SendBegun(h, install), SendBegun(seen, install))
  {
    hide Observations, SendsOf;
    AttemptGrows(h.attempts, Attempt(id, h.sendSlot == OurSend, ownerThread, h.expected != 0), h.armed);
  }

  lemma PassedAttemptKeeps(h: Hook, id: int, ownerThread: bool)
    requires Consistent(h) && !Ours(h, id, ownerThread)
    ensures var seen := Attempted(h, id, ownerThread);
            Consistent(seen) && KeepsDepth(h, seen) && KeepsBroken(h, seen)
  {
    hide Observations, SendsOf;
    AttemptGrows(h.attempts, Attempt(id, h.sendSlot == OurSend, ownerThread, h.expected != 0), h.armed);
  }

  lemma ObservedSendKeeps(h: Hook, id: int, install: Protect, restore: Protect, middle: Hook)
    requires Consistent(h) && Ours(h, id, true) && Consistent(middle)
    requires var begun := SendBegun(Attempted(h, id, true), install);
             KeepsDepth(begun, middle) && KeepsBroken(begun, middle)
    ensures var k := SendFinished(middle, Observes(Attempted(h, id, true), install), h.scopeId, restore);
            Consistent(k) && KeepsDepth(h, k) && KeepsBroken(h, k)
  {
    SendKeeps(h, middle, install, restore);
  }

  lemma PassedSendKeeps(h: Hook, seen: Hook, k: Hook)
    requires KeepsDepth(h, seen) && KeepsBroken(h, seen) && KeepsDepth(seen, k) && KeepsBroken(seen, k)
    ensures KeepsDepth(h, k) && KeepsBroken(h, k)
  {
  }

  lemma TamperKeeps(h: Hook, call: Call)
    requires Consistent(h) && call.Tamper?
    ensures Consistent(After(h, call)) && KeepsDepth(h, After(h, call)) && KeepsBroken(h, After(h, call))
  {
  }

  lemma CallbackKeeps(h: Hook, call: Call)
    requires Consistent(h) && call.Callback?
    ensures Consistent(After(h, call)) && KeepsDepth(h, After(h, call)) && KeepsBroken(h, After(h, call))
  {
  }

  lemma {:induction false} CallsKeepConsistent(h: Hook, call: Call)
    requires Consistent(h)
    ensures Consistent(After(h, call)) && KeepsDepth(h, After(h, call)) && KeepsBroken(h, After(h, call))
    decreases call, 1
  {
    match call
    case Send(id, ownerThread, install, restore, inner) =>
      var seen := Attempted(h, id, ownerThread);
      if Ours(h, id, ownerThread) {
        ObservedAttemptKeeps(h, id, ownerThread, install);
        var begun := SendBegun(seen, install);
        CallTreesKeepConsistent(begun, inner);
        ObservedSendKeeps(h, id, install, restore, AfterAll(begun, inner));
      } else {
        PassedAttemptKeeps(h, id, ownerThread);
        CallTreesKeepConsistent(seen, inner);
        PassedSendKeeps(h, seen, AfterAll(seen, inner));
      }
    case Callback(_, _, _) => CallbackKeeps(h, call);
    case Tamper(_, _) => TamperKeeps(h, call);
    case Stop(undoCallback, undoSend) => StopKeeps(h, undoCallback, undoSend);
    case Arm(id, ownerThread, send, undoCallback, undoSend) =>
      ArmKeeps(h, id, ownerThread, send, undoCallback, undoSend);
  }

  lemma {:induction false} CallTreesKeepConsistent(h: Hook, calls: seq<Call>)
    requires Consistent(h)
    ensures Consistent(AfterAll(h, calls)) && KeepsDepth(h, AfterAll(h, calls)) && KeepsBroken(h, AfterAll(h, calls))
    decreases calls, 0
  {
    if calls != [] {
      CallsKeepConsistent(h, calls[0]);
      CallTreesKeepConsistent(After(h, calls[0]), calls[1..]);
    }
  }

  /** No other code changes the two slots. */
  predicate Untampered(call: Call)
    decreases call, 1
  {
    match call
    case Send(_, _, _, _, inner) => AllUntampered(inner)
    case Tamper(_, _) => false
    case _ => true
  }

  predicate AllUntampered(calls: seq<Call>)
    decreases calls, 0
  {
    calls == [] || (Untampered(calls[0]) && AllUntampered(calls[1..]))
  }

  predicate SlotsAreKnown(h: Hook) {
    (h.sendSlot == Original || h.sendSlot == OurSend) && (h.callbackSlot == Null || h.callbackSlot == OurObserver)
  }

  lemma {:induction false} SlotsStayKnown(h: Hook, call: Call)
    requires SlotsAreKnown(h) && Untampered(call)
    ensures SlotsAreKnown(After(h, call))
    decreases call, 1
  {
    match call
    case Send(id, ownerThread, install, restore, inner) =>
      var seen := Attempted(h, id, ownerThread);
      AllSlotsStayKnown(if Ours(h, id, ownerThread) then SendBegun(seen, install) else seen, inner);
    case _ =>
  }

  lemma {:induction false} AllSlotsStayKnown(h: Hook, calls: seq<Call>)
    requires SlotsAreKnown(h) && AllUntampered(calls)
    ensures SlotsAreKnown(AfterAll(h, calls))
    decreases calls, 0
  {
    if calls != [] {
      SlotsStayKnown(h, calls[0]);
      AllSlotsStayKnown(After(h, calls[0]), calls[1..]);
    }
  }

  /** Whatever the terminal does: a hook that is not installed is in neither slot, and between sends the observer is not
      in the callback slot unless `broken` says so.  If nobody else touches the slots, "not installed" means both hold
      their original values. */
  lemma HooksAreRestored(calls: seq<Call>)
    ensures var h := AfterAll(FRESH, calls);
            && (!h.installed ==> h.sendSlot != OurSend && h.callbackSlot != OurObserver && h.active == 0)
            && (h.active == 0 && !h.broken ==> h.callbackSlot != OurObserver)
            && (AllUntampered(calls) && !h.installed ==> h.sendSlot == Original && h.callbackSlot == Null)
            && (AllUntampered(calls) && h.active == 0 && !h.broken ==> h.callbackSlot == Null)
  {
    CallTreesKeepConsistent(FRESH, calls);
    if AllUntampered(calls) { AllSlotsStayKnown(FRESH, calls); }
  }

  /** A stop that reports success leaves both slots as they were before arming; one that cannot, because a send is in
      progress or another pointer is in the way, never claims success. */
  lemma SuccessfulStopRestores(calls: seq<Call>, undoCallback: Protect, undoSend: Protect)
    ensures var h := AfterAll(FRESH, calls); var (k, done) := Stopped(h, undoCallback, undoSend);
            && (done ==> !k.installed && k.active == 0)
            && (done && h.installed ==> k.sendSlot == Original && k.callbackSlot == Null)
            && (done && h.installed ==> k.log == h.log && k.receipt == h.receipt)
            && (h.active > 0 ==> !done && k == h)
  {
    CallTreesKeepConsistent(FRESH, calls);
  }

  // ----- Accepting a receipt (tracking.py:67-79) -----

  datatype Request = Request(exchange: nat, instrument: string, buy: bool, opens: bool, volume: int, price: real,
                             immediate: bool)

  datatype Session = Session(tradingDay: string, front: int, session: int)

  datatype OrderIdentity = OrderIdentity(exchange: nat, instrument: string, tradingDay: string, front: int,
                                         session: int, orderRef: string)

  predicate Matches(fields: Fields, request: Request, parkedId: int) {
    && fields.valid && fields.source == Some(parkedId) && fields.instrument == request.instrument
    && fields.volume == request.volume && fields.direction == (if request.buy then 0 else 1)
    && fields.offset == (if request.opens then 0 else 3) && fields.price == request.price && fields.selector == 105
    && fields.timeCondition == (if request.immediate then 1 else 3)
  }

  function Identity(h: Hook, request: Request, parkedId: int, session: Session): Option<OrderIdentity> {
    if h.installed || h.active != 0 || h.broken || h.sendCount != 1 || h.count != 1 || h.receipt.None?
       || h.receipt.value.parkedId != parkedId || !Matches(h.receipt.value.fields, request, parkedId)
    then None
    else Some(OrderIdentity(request.exchange, request.instrument, session.tradingDay, session.front, session.session,
                            h.receipt.value.fields.orderRef))
  }

  /** An accepted receipt means: since the hook was armed it observed exactly one send of the armed order and exactly
      one callback, inside that send, which carried this request's parameters and the reported reference. */
  lemma AcceptedReceiptIsTheSend(calls: seq<Call>, request: Request, parkedId: int, session: Session)
    requires Identity(AfterAll(FRESH, calls), request, parkedId, session).Some?
    ensures var h := AfterAll(FRESH, calls);
            exists fields :: h.log == [SendBegan, CalledBack(fields), SendEnded] && Matches(fields, request, parkedId)
                             && Identity(h, request, parkedId, session).value.orderRef == fields.orderRef
    ensures var h := AfterAll(FRESH, calls); h.sendSlot != OurSend && h.callbackSlot != OurObserver
  {
    CallTreesKeepConsistent(FRESH, calls);
    var h := AfterAll(FRESH, calls);
    assert h.log == [SendBegan, CalledBack(h.receipt.value.fields), SendEnded];
  }

  lemma {:induction false} CountsCompare(attempts: seq<Attempt>, id: int)
    ensures SendsOf(attempts, id) >= Observations(attempts, id)
    ensures SendsOf(attempts, id) == Observations(attempts, id) <==>
              forall a :: a in attempts && a.id == id ==> Observed(a, id)
  {
    if attempts != [] {
      var n := |attempts| - 1;
      CountsCompare(attempts[..n], id);
      assert attempts == attempts[..n] + [attempts[n]];
    }
  }

  /** Every send of the order since arming was made by the thread that armed the hook, before any stop. */
  predicate OnlyWatchedSends(attempts: seq<Attempt>, id: int) {
    forall a :: a in attempts && a.id == id ==> a.ownerThread && a.open
  }

  /** How often the order of an accepted receipt was really sent since it was armed, by whomever and however long after
      the hook was gone: at least once, and exactly once if and only if no other thread sent it and nobody sent it after
      a stop had cleared `expected`, whether that stop succeeded or not. (A send that got past the hook's slot before a
      stop is excluded by the acceptance itself.) */
  lemma SentOnceExactly(calls: seq<Call>, request: Request, parkedId: int, session: Session)
    requires Identity(AfterAll(FRESH, calls), request, parkedId, session).Some?
    ensures var h := AfterAll(FRESH, calls);
            && h.armed == parkedId && SendsOf(h.attempts, parkedId) >= 1
            && (SendsOf(h.attempts, parkedId) == 1 <==> OnlyWatchedSends(h.attempts, parkedId))
  {
    CallTreesKeepConsistent(FRESH, calls);
    CountsCompare(AfterAll(FRESH, calls).attempts, parkedId);
  }

  const BUY := Request(1, "rb2610", true, true, 3, 3500.0, false)
  const TODAY := Session("20260924", 3, 17)
  const SENT := Fields(true, 0, 0, 3, 3500.0, 3, 105, "rb2610", "18", Some(5))

  function CallbackOf(fields: Fields): Call {
    Callback(true, true, fields)
  }

  /** How the order can come to be sent again: by another thread, or after a stop, which may have failed or not. */
  datatype Again = ByAnotherThread | AfterAStop(ownerThread: bool, send: Protect)

  function Between(again: Again): seq<Call> {
    if again.AfterAStop? then [Stop(Done, again.send)] else []
  }

  /** The order is armed and sent, and sent again; the last stop succeeds. */
  function SentTwice(again: Again): seq<Call> {
    [Arm(5, true, Done, Done, Done), Send(5, true, Done, Done, [CallbackOf(SENT)])] + Between(again)
    + [Send(5, again.AfterAStop? && again.ownerThread, Done, Done, []), Stop(Done, Done)]
  }

  lemma TwoMoreCalls(h: Hook, a: Call, b: Call)
    ensures AfterAll(h, [a, b]) == After(After(h, a), b)
  {
    assert [a, b][1..] == [b];
    assert AfterAll(After(h, a), [b]) == After(After(h, a), b);
  }

  lemma {:induction false} AfterConcat(h: Hook, a: seq<Call>, b: seq<Call>)
    ensures AfterAll(h, a + b) == AfterAll(AfterAll(h, a), b)
    decreases |a|
  {
    if a == [] {
      assert a + b == b;
    } else {
      assert (a + b)[1..] == a[1..] + b;
      AfterConcat(After(h, a[0]), a[1..], b);
    }
  }

  lemma OneSendObserved() returns (h: Hook)
    ensures h == AfterAll(FRESH, [Arm(5, true, Done, Done, Done), Send(5, true, Done, Done, [CallbackOf(SENT)])])
    ensures h == Hook(5, 0, true, 0, 1, 1, false, OurSend, Null, Some(Captured(5, SENT)),
                      [SendBegan, CalledBack(SENT), SendEnded], 5, [Attempt(5, true, true, true)])
  {
    var arm, send := Arm(5, true, Done, Done, Done), Send(5, true, Done, Done, [CallbackOf(SENT)]);
    var armed := Hook(5, 0, true, 0, 0, 0, false, OurSend, Null, None, [], 5, []);
    assert After(FRESH, arm) == armed;
    TwoMoreCalls(FRESH, arm, send);
    var begun := SendBegun(Attempted(armed, 5, true), Done);
    assert AfterAll(begun, [CallbackOf(SENT)]) == After(begun, CallbackOf(SENT));
    h := After(armed, send);
    assert h.log == [SendBegan, CalledBack(SENT), SendEnded];
  }

  predicate OnceObserved(h: Hook) {
    && SendsOf(h.attempts, 5) == 1 && h.callbackSlot == Null && (h.sendSlot == OurSend || h.sendSlot == Original)
    && h.active == 0 && !h.broken && h.sendCount == 1 && h.count == 1 && h.receipt == Some(Captured(5, SENT))
  }

  /** The hook looks away, and whatever is left of it is then removed. */
  lemma SentUnwatched(h: Hook, ownerThread: bool)
    requires OnceObserved(h) && (!ownerThread || h.expected == 0)
    ensures var k := After(After(h, Send(5, ownerThread, Done, Done, [])), Stop(Done, Done));
            Identity(k, BUY, 5, TODAY).Some? && SendsOf(k.attempts, 5) == 2
  {
    hide SendsOf;
    var seen := Attempted(h, 5, ownerThread);
    AttemptGrows(h.attempts, Attempt(5, h.sendSlot == OurSend, ownerThread, h.expected != 0), 5);
    assert After(h, Send(5, ownerThread, Done, Done, [])) == AfterAll(seen, []) == seen;
  }

  lemma AfterTheFirstSend(again: Again) returns (k: Hook)
    requires again.AfterAStop? ==> again.send != Refused
    ensures k == AfterAll(FRESH, [Arm(5, true, Done, Done, Done), Send(5, true, Done, Done, [CallbackOf(SENT)])]
                                 + Between(again))
    ensures OnceObserved(k) && (again.AfterAStop? ==> k.expected == 0)
  {
    var h := OneSendObserved();
    var start := [Arm(5, true, Done, Done, Done), Send(5, true, Done, Done, [CallbackOf(SENT)])];
    AfterConcat(FRESH, start, Between(again));
    if again.AfterAStop? {
      k := After(h, Stop(Done, again.send));
      assert AfterAll(h, [Stop(Done, again.send)]) == k;
    } else {
      k := h;
    }
  }

  /** All the ways to send an accepted order twice: from another thread, which the hook lets pass without marking the
      capture broken; and, on any thread, after a stop that cleared `expected` but could not finish,
      or that finished. */
  lemma AnAcceptedOrderCanBeSentTwice(again: Again)
    requires again.AfterAStop? ==> again.send != Refused
    ensures var h := AfterAll(FRESH, SentTwice(again));
            Identity(h, BUY, 5, TODAY).Some? && SendsOf(h.attempts, 5) == 2
  {
    var k := AfterTheFirstSend(again);
    hide After, OnceObserved, SendsOf, Identity;
    var ownerThread := again.AfterAStop? && again.ownerThread;
    var send, stop := Send(5, ownerThread, Done, Done, []), Stop(Done, Done);
    var start := [Arm(5, true, Done, Done, Done), Send(5, true, Done, Done, [CallbackOf(SENT)])];
    AfterConcat(FRESH, start + Between(again), [send, stop]);
    TwoMoreCalls(k, send, stop);
    SentUnwatched(k, ownerThread);
  }

  // ----- The preorder that is sent (tracking.py:14-46) -----

  datatype ParkedOrder = ParkedOrder(id: int, instrument: string, side: int, offset: int, hedge: int, volume: int,
                                     selector: int, timeCondition: int, volumeCondition: int, price: real)

  datatype PreorderProblem = NotUnique | Mismatch

  /** The orders parked since the import must be one, with this request's parameters; its id is what gets armed. */
  function ValidatePreorder(request: Request, items: seq<ParkedOrder>): Result<int, PreorderProblem> {
    if |items| != 1 then Err(NotUnique)
    else
      var row := items[0];
      if row.instrument != request.instrument || row.volume != request.volume
         || row.side != (if request.buy then 0 else 1)
         || row.offset != (if request.opens then 0 else 3) || row.hedge != 1
         || row.price != request.price || row.selector != 105
         || row.timeCondition != (if request.immediate then 1 else 3) || row.volumeCondition != 1
      then Err(Mismatch)
      else Ok(row.id)
  }

  /** The preorder and the order observed in the send are the same in everything both of them say: what was parked is
      what the hook saw sent, under the reference that is reported. */
  lemma ParkedOrderIsSent(calls: seq<Call>, request: Request, items: seq<ParkedOrder>, session: Session)
    requires ValidatePreorder(request, items).Ok?
    requires Identity(AfterAll(FRESH, calls), request, ValidatePreorder(request, items).value, session).Some?
    ensures var h := AfterAll(FRESH, calls);
            exists fields :: h.log == [SendBegan, CalledBack(fields), SendEnded] && |items| == 1 && fields.source.Some?
              && items[0] == ParkedOrder(fields.source.value, fields.instrument, fields.direction, fields.offset, 1,
                                         fields.volume, fields.selector, fields.timeCondition, 1, fields.price)
              && Identity(h, request, items[0].id, session).value.orderRef == fields.orderRef
  {
    AcceptedReceiptIsTheSend(calls, request, items[0].id, session);
    var h := AfterAll(FRESH, calls);
    var fields :| h.log == [SendBegan, CalledBack(fields), SendEnded] && Matches(fields, request, items[0].id)
                  && Identity(h, request, items[0].id, session).value.orderRef == fields.orderRef;
    assert items[0] == ParkedOrder(fields.source.value, fields.instrument, fields.direction, fields.offset, 1,
                                   fields.volume, fields.selector, fields.timeCondition, 1, fields.price);
  }

  // ----- In plain fields -----

  /** When a receipt is accepted, and what it says: the hook is gone and unbroken, it saw one send and one callback, and
      what it copied there is this order, field by field. */
  lemma IdentityIsExact(h: Hook, request: Request, parkedId: int, session: Session)
    ensures Identity(h, request, parkedId, session).Some? <==>
              && !h.installed && h.active == 0 && !h.broken && h.sendCount == 1 && h.count == 1 && h.receipt.Some?
              && h.receipt.value.parkedId == parkedId
              && var seen := h.receipt.value.fields;
                 && seen.valid && seen.source == Some(parkedId) && seen.instrument == request.instrument
                 && seen.volume == request.volume && seen.price == request.price && seen.selector == 105
                 && seen.direction == (if request.buy then 0 else 1) && seen.offset == (if request.opens then 0 else 3)
                 && seen.timeCondition == (if request.immediate then 1 else 3)
    ensures Identity(h, request, parkedId, session).Some? ==>
              var told := Identity(h, request, parkedId, session).value;
              && told.exchange == request.exchange && told.instrument == request.instrument
              && told.tradingDay == session.tradingDay && told.front == session.front
              && told.session == session.session && told.orderRef == h.receipt.value.fields.orderRef
  {
  }

  /** Which parked order is armed: the only one parked since, and only if it is this request, field by field. */
  lemma ParkedOrderIsExact(request: Request, items: seq<ParkedOrder>)
    ensures ValidatePreorder(request, items) == Err(NotUnique) <==> |items| != 1
    ensures ValidatePreorder(request, items).Ok? <==>
              && |items| == 1 && items[0].instrument == request.instrument && items[0].volume == request.volume
              && items[0].side == (if request.buy then 0 else 1) && items[0].offset == (if request.opens then 0 else 3)
              && items[0].hedge == 1 && items[0].price == request.price && items[0].selector == 105
              && items[0].timeCondition == (if request.immediate then 1 else 3) && items[0].volumeCondition == 1
    ensures ValidatePreorder(request, items).Ok? ==> ValidatePreorder(request, items).value == items[0].id
  {
  }

  /** A callback is copied only as the first of the armed send, on its thread and through its observer; any other breaks
      the capture and copies nothing. */
  lemma CallbackIsExact(h: Hook, ourObject: bool, ownerThread: bool, fields: Fields)
    ensures var k := CalledBackAfter(h, ourObject, ownerThread, fields);
            var inside := ourObject && ownerThread && h.expected != 0 && h.scopeId == h.expected;
            && (inside && h.count == 0 ==> k.receipt == Some(Captured(h.expected, fields)) && k.broken == h.broken)
            && (!(inside && h.count == 0) ==> k.receipt == h.receipt && k.broken)
            && k.count == h.count + (if inside then 1 else 0) && k.sendCount == h.sendCount && k.active == h.active
  {
  }

  /** A send is counted exactly when it is the armed one, through our slot and on the arming thread; nothing else
      about it touches the capture. */
  lemma SendIsExact(h: Hook, id: int, ownerThread: bool, install: Protect, restore: Protect)
    ensures var k := After(h, Send(id, ownerThread, install, restore, []));
            var ours := h.sendSlot == OurSend && h.expected != 0 && ownerThread && id == h.expected;
            && k.sendCount == h.sendCount + (if ours then 1 else 0) && k.count == h.count && k.receipt == h.receipt
            && k.active == h.active && k.scopeId == h.scopeId && k.expected == h.expected
            && (!ours ==> k.broken == h.broken && k.callbackSlot == h.callbackSlot)
            && (ours ==> (k.broken <==> h.broken || h.callbackSlot != Null || install != Done || restore != Done))
            && (ours && h.callbackSlot == Null && install == Done && restore == Done ==> k.callbackSlot == Null)
  {
    var seen := Attempted(h, id, ownerThread);
    assert AfterAll(seen, []) == seen;
    assert AfterAll(SendBegun(seen, install), []) == SendBegun(seen, install);
  }

  /** When a stop succeeds, and when it at least stops expecting the order. */
  lemma StopIsExact(h: Hook, undoCallback: Protect, undoSend: Protect)
    ensures var (k, done) := Stopped(h, undoCallback, undoSend);
            var idle := h.installed && h.active == 0;
            && (done <==> !h.installed
                          || (idle && (h.callbackSlot == Null
                                       || (h.callbackSlot == OurObserver && undoCallback == Done))
                              && (h.sendSlot == Original || (h.sendSlot == OurSend && undoSend == Done))))
            && (k.installed <==> h.installed && !done) && k.expected == (if idle then 0 else h.expected)
            && k.sendCount == h.sendCount && k.count == h.count && k.broken == h.broken && k.receipt == h.receipt
  {
  }

  /** What arming leaves when its one replacement succeeds, and that it does nothing at all unless both slots are
      clean. */
  lemma ArmIsExact(h: Hook, id: int, ownerThread: bool, undoCallback: Protect, undoSend: Protect, send: Protect)
    ensures var clean := !h.installed && id > 0 && h.callbackSlot == Null && h.sendSlot == Original;
            && (!clean ==> Armed(h, id, ownerThread, send, undoCallback, undoSend) == h)
            && (clean ==>
                  var k := Armed(h, id, ownerThread, Done, undoCallback, undoSend);
                  && k.expected == id && k.installed && k.sendSlot == OurSend && k.callbackSlot == Null && !k.broken
                  && k.active == 0 && k.sendCount == 0 && k.count == 0 && k.receipt.None?)
  {
  }

  // ----- The static variables, changed in place -----

  class ReceiptHook {
    var expected: int
    var scopeId: int
    var installed: bool
    var active: int
    var sendCount: int
    var count: int
    var broken: bool
    var sendSlot: Pointer
    var callbackSlot: Pointer
    var receipt: Option<Captured>
    ghost var log: seq<Entry>
    ghost var armed: int
    ghost var attempts: seq<Attempt>

    constructor ()
      ensures View() == FRESH
    {
      expected, scopeId, installed, active, sendCount, count, broken := 0, 0, false, 0, 0, 0, false;
      sendSlot, callbackSlot, receipt, log, armed, attempts := Original, Null, None, [], 0, [];
    }

    ghost function View(): Hook
      reads this
    {
      Hook(expected, scopeId, installed, active, sendCount, count, broken, sendSlot, callbackSlot, receipt, log, armed,
           attempts)
    }

    method ReplaceCallback(from: Pointer, to: Pointer, protect: Protect) returns (done: bool)
      modifies this`callbackSlot
      ensures (callbackSlot, done) == Replaced(old(callbackSlot), from, to, protect)
    {
      if callbackSlot != from || protect == Refused { return false; }
      callbackSlot := to;
      return protect == Done;
    }

    method ReplaceSend(from: Pointer, to: Pointer, protect: Protect) returns (done: bool)
      modifies this`sendSlot
      ensures (sendSlot, done) == Replaced(old(sendSlot), from, to, protect)
    {
      if sendSlot != from || protect == Refused { return false; }
      sendSlot := to;
      return protect == Done;
    }

    method ObserveCallback(ourObject: bool, ownerThread: bool, fields: Fields)
      modifies this
      ensures View() == CalledBackAfter(old(View()), ourObject, ownerThread, fields)
    {
      log := log + [CalledBack(fields)];
      if !ourObject || expected == 0 || scopeId != expected || !ownerThread {
        broken := true;
        return;
      }
      count := count + 1;
      if count != 1 {
        broken := true;
        return;
      }
      receipt := Some(Captured(scopeId, fields));
    }

    method BeginSend(install: Protect) returns (observing: bool)
      modifies this
      ensures View() == SendBegun(old(View()), install) && observing == Observes(old(View()), install)
    {
      scopeId := expected;
      sendCount := sendCount + 1;
      active := active + 1;
      log := log + [SendBegan];
      observing := ReplaceCallback(Null, OurObserver, install);
      if !observing { broken := true; }
    }

    method EndSend(observing: bool, previous: int, restore: Protect)
      modifies this
      ensures View() == SendFinished(old(View()), observing, previous, restore)
    {
      if observing {
        var done := ReplaceCallback(OurObserver, Null, restore);
        if !done { broken := true; }
      }
      scopeId := previous;
      active := active - 1;
      log := log + [SendEnded];
    }

    ghost method NoteAttempt(id: int, ownerThread: bool)
      modifies this`attempts
      ensures View() == Attempted(old(View()), id, ownerThread)
    {
      attempts := attempts + [Attempt(id, sendSlot == OurSend, ownerThread, expected != 0)];
    }

    /** observe_send around the terminal's own send, which does whatever `inner` says. */
    method ObserveSend(id: int, ownerThread: bool, install: Protect, restore: Protect, inner: seq<Call>)
      requires sendSlot == OurSend
      modifies this
      ensures View() == After(old(View()), Send(id, ownerThread, install, restore, inner))
      decreases Send(id, ownerThread, install, restore, inner), 0
    {
      NoteAttempt(id, ownerThread);
      var previous := scopeId;
      var ours := expected != 0 && ownerThread && id == expected;
      var observing := false;
      if ours { observing := BeginSend(install); }
      RunAll(inner);
      if ours { EndSend(observing, previous, restore); }
    }

    method ReceiptStop(undoCallback: Protect, undoSend: Protect) returns (done: bool)
      modifies this
      ensures (View(), done) == Stopped(old(View()), undoCallback, undoSend)
    {
      if !installed { return true; }
      if active != 0 { return false; }
      expected := 0;
      if callbackSlot == OurObserver {
        var cleared := ReplaceCallback(OurObserver, Null, undoCallback);
        if !cleared { return false; }
      }
      if callbackSlot != Null { return false; }
      if sendSlot == OurSend {
        var undone := ReplaceSend(OurSend, Original, undoSend);
        if !undone { return false; }
      } else if sendSlot != Original {
        return false;
      }
      installed := false;
      return true;
    }

    method Prepare(id: int)
      modifies this
      ensures View() == Hook(id, 0, true, 0, 0, 0, false, old(sendSlot), old(callbackSlot), None, [], id, [])
    {
      expected, scopeId := id, 0;
      active, sendCount, count, broken := 0, 0, 0, false;
      receipt, log, armed, attempts := None, [], id, [];
      installed := true;
    }

    method ArmHook(id: int, ownerThread: bool, send: Protect, undoCallback: Protect, undoSend: Protect)
      modifies this
      ensures View() == Armed(old(View()), id, ownerThread, send, undoCallback, undoSend)
    {
      if installed || id <= 0 || callbackSlot != Null || sendSlot != Original { return; }
      Prepare(id);
      var done := ReplaceSend(Original, OurSend, send);
      if !done {
        var stopped := ReceiptStop(undoCallback, undoSend);
      }
    }

    method RunOne(call: Call)
      modifies this
      ensures View() == After(old(View()), call)
      decreases call, 1
    {
      match call
      case Send(id, ownerThread, install, restore, inner) =>
        if sendSlot == OurSend {
          ObserveSend(id, ownerThread, install, restore, inner);
        } else {
          NoteAttempt(id, ownerThread);
          RunAll(inner);
        }
      case Callback(ourObject, ownerThread, fields) =>
        if callbackSlot == OurObserver { ObserveCallback(ourObject, ownerThread, fields); }
      case Stop(undoCallback, undoSend) =>
        var done := ReceiptStop(undoCallback, undoSend);
      case Arm(id, ownerThread, send, undoCallback, undoSend) => ArmHook(id, ownerThread, send, undoCallback, undoSend);
      case Tamper(slotOfCallback, address) =>
        if slotOfCallback { callbackSlot := Foreign(address); } else { sendSlot := Foreign(address); }
    }

    method RunAll(calls: seq<Call>)
      modifies this
      ensures View() == AfterAll(old(View()), calls)
      decreases calls, 0
    {
      if calls != [] {
        RunOne(calls[0]);
        RunAll(calls[1..]);
      }
    }
  }
}
