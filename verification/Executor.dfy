/** One request in the executor, step by step (cn_futures_bridge/terminal/executor.py:199-329, orders.py, market.py,
    steps.py).

    What was asked and what the terminal answers is a `Case`; every answer is possible.  The ghost field `path` records
    the edges taken; `Valid` says that they form a path of the control graph, so the executor of the transition system
    makes exactly these moves, and that the journal is ahead of the terminal at every point.
 */
module Executor {
  import opened Base
  import opened Journal
  import opened Execution
  import Bridge
  import Binding
  import Receipt
  import Observation
  import opened Requests

  /** How each journal transaction of the request turns out. */
  type Stores = nat -> Store

  function Steps(kind: Kind, path: seq<Edge>): Option<Pc> {
    if path == [] then Some(Begin)
    else
      var n := |path| - 1;
      var at := Steps(kind, path[..n]);
      if at.Some? && path[n] in Edges(kind, at.value) then Some(path[n].target) else None
  }

  function Actions(path: seq<Edge>): seq<Action> {
    if path == [] then []
    else
      var n := |path| - 1;
      Actions(path[..n]) + if path[n].work.Act? then [path[n].work.action] else []
  }

  lemma StepsGrow(kind: Kind, path: seq<Edge>, edge: Edge)
    requires Steps(kind, path).Some? && edge in Edges(kind, Steps(kind, path).value)
    ensures Steps(kind, path + [edge]) == Some(edge.target)
    ensures Actions(path + [edge]) == Actions(path) + if edge.work.Act? then [edge.work.action] else []
  {
    assert (path + [edge])[..|path|] == path;
  }

  /** Along any path actions come in their own order and none is repeated: the import before the send key, the send key
      once, a confirmation only after Delete. */
  lemma {:induction false} ActionsComeInOrder(kind: Kind, path: seq<Edge>)
    requires Steps(kind, path).Some?
    ensures forall k :: 0 <= k < |Actions(path)| ==> ActedAt(Actions(path)[k]) < Progress(Steps(kind, path).value)
    ensures forall i, j :: 0 <= i < j < |Actions(path)| ==> ActedAt(Actions(path)[i]) < ActedAt(Actions(path)[j])
  {
    if path != [] {
      var n := |path| - 1;
      ActionsComeInOrder(kind, path[..n]);
      ActionsAreWrittenAhead(kind, Steps(kind, path[..n]).value, path[n]);
    }
  }

  /** What a path has saved by its end is exactly the effect of the point it leads to. */
  lemma {:induction false} SavesAddUp(kind: Kind, path: seq<Edge>)
    requires Steps(kind, path).Some? && kind != Query
    ensures Steps(kind, path).value != Raised
    ensures Saved(path) == if Steps(kind, path).value == Succeeded then Submitted else EffectAt(Steps(kind, path).value)
    ensures Actions(path) != [] ==> Saved(path) != Nothing
  {
    if path != [] {
      var n := |path| - 1;
      SavesAddUp(kind, path[..n]);
      EdgesTrackEffect(kind, Steps(kind, path[..n]).value, path[n]);
      ActionsAreWrittenAhead(kind, Steps(kind, path[..n]).value, path[n]);
    }
  }

  function Saved(path: seq<Edge>): Effect {
    if path == [] then Nothing else SavedEffect(path[|path| - 1].work, Saved(path[..|path| - 1]))
  }

  /** A save, in the terms of the transition system. */
  lemma SaveIsTheMove(rows: Rows, e: Bridge.Exec, phase: Phase, newer: Effect, learnt: Facts, target: Pc, store: Store,
                      now: Time)
    ensures var m := Bridge.Follow(Edge(Label.Save(phase, newer), target), learnt, store);
            var told := Learn(learnt, e.facts);
            && Bridge.RowsAfter(rows, e, m, now)
               == (if e.id in rows && store != RolledBack then Phased(rows, e.id, phase, newer, told, now) else rows)
            && Bridge.WorkerAfter(rows, e, m)
               == Bridge.Running(Bridge.Exec(e.id, e.kind, if e.id in rows && store == Good then target else Raised,
                                             CoalesceEffect(newer, e.effect), told))
    ensures e.id in rows ==> var after := Phased(rows, e.id, phase, newer, Learn(learnt, e.facts), now);
                             e.id in after && after[e.id].effect == CoalesceEffect(newer, rows[e.id].effect)
  {
  }

  /** References and order ids as the record keeps them. */
  datatype Names = Names(reference: Receipt.OrderIdentity -> nat, order: string -> nat)

  function Named<T>(value: Option<T>, name: T -> nat): Option<nat> {
    if value.None? then None else Some(name(value.value))
  }

  class Request {
    const id: Id
    const c: Case
    const kind: Kind
    const journal: Journal
    const stores: Stores
    const names: Names
    var now: Time
    var saves: nat
    var effect: Effect
    var facts: Facts
    var raised: bool
    var ownedRow: Option<Binding.PreorderRow>
    var finding: Option<Observation.Finding>
    ghost var lost: bool
    ghost var path: seq<Edge>

    ghost predicate Valid()
      reads this, journal
    {
      var at := Steps(kind, path);
      && kind == KindOf(c.ask) && at.Some? && at.value != Raised
      && (at.value != Succeeded ==> raised || effect == EffectAt(at.value))
      && (at.value == Succeeded ==> effect == Submitted)
      && (raised || effect == Nothing || (id in journal.rows && journal.rows[id].effect == effect))
      && Ahead()
    }

    /** Once anything was done in the terminal, the record says so. */
    ghost predicate Ahead()
      reads this, journal
    {
      Actions(path) != [] ==> effect != Nothing && id in journal.rows && journal.rows[id].effect != Nothing
    }

    ghost function At(): Pc
      requires Valid()
      reads this, journal
    {
      Steps(kind, path).value
    }

    constructor (id: Id, c: Case, journal: Journal, stores: Stores, names: Names, now: Time)
      ensures Valid() && this.id == id && this.c == c && this.journal == journal && this.stores == stores
      ensures path == [] && effect == Nothing && facts == NO_FACTS && !raised && !lost && ownedRow.None?
              && finding.None?
    {
      this.id, this.c, this.journal, this.stores, this.names, this.now := id, c, journal, stores, names, now;
      kind := KindOf(c.ask);
      saves, effect, facts, raised, ownedRow, finding, lost, path := 0, Nothing, NO_FACTS, false, None, None, false, [];
    }

    /** The journal's part of a save: what is remembered is what is written. */
    method Write(phase: Phase, newer: Effect, learnt: Facts) returns (ok: bool)
      modifies this`effect, this`facts, this`saves, journal
      ensures saves == old(saves) + 1
      ensures effect == CoalesceEffect(newer, old(effect)) && facts == Learn(learnt, old(facts))
      ensures ok <==> stores(saves) == Good && id in old(journal.rows)
      ensures journal.rows == if stores(saves) != RolledBack && id in old(journal.rows)
                              then Phased(old(journal.rows), id, phase, newer, facts, now) else old(journal.rows)
    {
      if newer != Nothing { effect := newer; }
      facts := Learn(learnt, facts);
      saves := saves + 1;
      ok := journal.Save(id, phase, newer, facts, now, stores(saves));
    }

    /** `Steps.save`: remember the effect, then put it on record; a failed save raises with the effect remembered. */
    method Save(phase: Phase, newer: Effect, learnt: Facts, ghost target: Pc)
      requires Valid() && !raised && Edge(Label.Save(phase, newer), target) in Edges(kind, At())
      modifies this, journal
      ensures Valid() && ownedRow == old(ownedRow) && finding == old(finding) && saves == old(saves) + 1
      ensures effect == CoalesceEffect(newer, old(effect)) && facts == Learn(learnt, old(facts))
      ensures var e := Bridge.Exec(id, kind, old(At()), old(effect), old(facts));
              var m := Bridge.Follow(Edge(Label.Save(phase, newer), target), learnt, stores(saves));
              && journal.rows == Bridge.RowsAfter(old(journal.rows), e, m, now)
              && Bridge.WorkerAfter(old(journal.rows), e, m)
                 == Bridge.Running(Bridge.Exec(id, kind, if raised then Raised else target, effect, facts))
      ensures !raised ==> At() == target && path == old(path) + [Edge(Label.Save(phase, newer), target)]
      ensures raised ==> path == old(path) && lost
      ensures !raised ==> lost == old(lost)
      ensures Actions(path) == Actions(old(path))
    {
      hide Steps, Actions, Phased, Bridge.RowsAfter, Bridge.WorkerAfter;
      ghost var edge := Edge(Label.Save(phase, newer), target);
      ghost var e := Bridge.Exec(id, kind, At(), effect, facts);
      SaveIsTheMove(journal.rows, e, phase, newer, learnt, target, stores(saves + 1), now);
      EdgesTrackEffect(kind, At(), edge);
      StepsGrow(kind, path, edge);
      var ok := Write(phase, newer, learnt);
      if ok {
        path := path + [edge];
      } else {
        raised := true;
        lost := true;
      }
    }

    /** Something is done in the terminal; the record is already ahead of it. */
    method Act(action: Action, ghost target: Pc)
      requires Valid() && !raised && Edge(Label.Act(action), target) in Edges(kind, At())
      modifies this`path
      ensures Valid() && At() == target && path == old(path) + [Edge(Label.Act(action), target)]
      ensures id in journal.rows && journal.rows[id].effect == Unknown
      ensures Actions(path) == Actions(old(path)) + [action]
    {
      ghost var edge := Edge(Label.Act(action), target);
      EdgesTrackEffect(kind, At(), edge);
      ActionsAreWrittenAhead(kind, At(), edge);
      StepsGrow(kind, path, edge);
      path := path + [edge];
    }

    method Proceed(ghost target: Pc)
      requires Valid() && !raised && Edge(Quiet, target) in Edges(kind, At())
      modifies this`path
      ensures Valid() && At() == target && path == old(path) + [Edge(Quiet, target)]
      ensures Actions(path) == Actions(old(path))
    {
      ghost var edge := Edge(Quiet, target);
      EdgesTrackEffect(kind, At(), edge);
      StepsGrow(kind, path, edge);
      path := path + [edge];
    }

    /** The record first, then the new preorder. */
    method Enter(allowed: bool, action: Action)
      requires Valid() && !raised && At() == Prepared && !lost && Actions(path) == []
      requires (kind == Gfd && action == Import) || (kind == Ioc && action == ConfirmPreorder)
      modifies this, journal
      ensures Valid() && (!raised ==> At() == Imported && effect == Unknown) && finding == old(finding)
      ensures effect != Rejected
      ensures Actions(path) == if raised then [] else [action]
      ensures !raised <==> !lost && allowed
    {
      hide Steps, Actions, Bridge.RowsAfter, Bridge.WorkerAfter;
      if !allowed { raised := true; return; }
      Save(Step("importing"), Unknown, NO_FACTS, Importing);
      if raised { return; }
      Act(action, Imported);
    }

    /** `limit`: import one row, read it back, and send it only when it is provably the only new one. */
    method Limit()
      requires Valid() && !raised && kind == Gfd && At() == Prepared && !lost && Actions(path) == []
      modifies this, journal
      ensures Valid() && (raised || At() == Returned)
      ensures Actions(path) != [] ==> Importable(c)
      ensures SendKey in Actions(path) ==>
                c.t.entered && ownedRow.Some? && ownedRow == BoundRow(c) && Sendable(c, ownedRow)
      ensures effect == Rejected ==> RefusedImport(c) && SendKey !in Actions(path)
      ensures !raised ==> ownedRow == BoundRow(c) && facts.identity == Named(Reference(c), names.reference)
      ensures !raised <==> !lost && Submits(c)
    {
      hide Importable, BoundRow, Sendable, Reference, ShownAsSent, Steps, Actions, Bridge.RowsAfter, Bridge.WorkerAfter;
      Enter(Importable(c), Import);
      if raised { return; }
      if !c.t.entered { raised := true; return; }
      if c.t.refused && c.t.after == c.t.before {
        Save(Step("rejected"), Rejected, NO_FACTS, Refused);
        raised := true;
        return;
      }
      BindAndSend();
    }

    /** `limit_ioc`: the same through the order form. */
    method LimitIoc()
      requires Valid() && !raised && kind == Ioc && At() == Prepared && !lost && Actions(path) == []
      modifies this, journal
      ensures Valid() && (raised || At() == Returned) && effect != Rejected
      ensures Actions(path) != [] ==> Importable(c) && c.t.formReady
      ensures SendKey in Actions(path) ==>
                c.t.entered && ownedRow.Some? && ownedRow == BoundRow(c) && Sendable(c, ownedRow)
      ensures !raised ==> ownedRow == BoundRow(c) && facts.identity == Named(Reference(c), names.reference)
      ensures !raised <==> !lost && Submits(c)
    {
      hide Importable, BoundRow, Sendable, Reference, ShownAsSent, Steps, Actions, Bridge.RowsAfter, Bridge.WorkerAfter;
      Enter(Importable(c) && c.t.formReady, ConfirmPreorder);
      if raised { return; }
      if !c.t.entered { raised := true; return; }
      BindAndSend();
    }

    /** `bind_local`: own the one new row, and record that its parameters were read back. */
    method Bind()
      requires Valid() && !raised && (kind == Gfd || kind == Ioc) && At() == Imported && !lost
      modifies this, journal
      ensures Valid() && Actions(path) == Actions(old(path)) && effect == old(effect) && finding == old(finding)
      ensures !raised <==> !lost && BoundRow(c).Some?
      ensures !raised ==> At() == Verified && ownedRow == BoundRow(c)
    {
      hide Binding.BindLocal, Steps, Actions, Bridge.RowsAfter, Bridge.WorkerAfter;
      var bound := BindingOf(c);
      if bound.Err? { raised := true; return; }
      ownedRow := Some(c.t.after[bound.value]);
      Save(Step("parameters_verified"), Nothing, NO_FACTS, Verified);
    }

    method BindAndSend()
      requires Valid() && !raised && (kind == Gfd || kind == Ioc) && At() == Imported && SendKey !in Actions(path)
               && !lost
      modifies this, journal
      ensures Valid() && (raised || At() == Returned) && effect != Rejected
      ensures SendKey in Actions(path) ==> ownedRow.Some? && ownedRow == BoundRow(c) && Sendable(c, ownedRow)
      ensures !raised ==> ownedRow == BoundRow(c) && facts.identity == Named(Reference(c), names.reference)
      ensures !raised <==> !lost && Sends(c, BoundRow(c))
    {
      hide BoundRow, Reference, ShownAsSent, Parked, Binding.Selection, Steps, Actions, Bridge.RowsAfter,
          Bridge.WorkerAfter;
      Bind();
      if raised { return; }
      if Parked(c).None? { raised := true; return; }
      SendLocal();
    }

    /** `send_local`: select the owned row in a fresh table, arm the hook, record, and press the key once. */
    method SendLocal()
      requires Valid() && !raised && (kind == Gfd || kind == Ioc) && At() == Verified && SendKey !in Actions(path)
      requires ownedRow.Some? && Parked(c).Some? && !lost
      modifies this, journal
      ensures Valid() && (raised || At() == Returned) && ownedRow == old(ownedRow) && effect != Rejected
      ensures SendKey in Actions(path) ==> Sendable(c, ownedRow)
      ensures !raised ==> facts.identity == Named(Reference(c), names.reference)
      ensures !raised <==> !lost && Sends(c, ownedRow)
    {
      hide Reference, ShownAsSent, Parked, Binding.Selection, Steps, Actions, Bridge.RowsAfter, Bridge.WorkerAfter;
      if Binding.Selection(ownedRow, c.t.after, c.t.again).Err? || !c.t.armed { raised := true; return; }
      Save(Step("submitting"), Unknown, NO_FACTS, Submitting);
      if raised { return; }
      Act(SendKey, Pressed);
      Capture();
    }

    /** After the key: nothing is believed but the receipt of the hook and the row shown as sent. */
    method Capture()
      requires Valid() && !raised && (kind == Gfd || kind == Ioc) && At() == Pressed && Parked(c).Some? && !lost
      modifies this, journal
      ensures Valid() && (raised || At() == Returned) && ownedRow == old(ownedRow) && effect != Rejected
      ensures Actions(path) == Actions(old(path))
      ensures !raised ==> facts.identity == Named(Reference(c), names.reference)
      ensures !raised <==> !lost && Reference(c).Some? && ShownAsSent(c, ownedRow)
    {
      hide Reference, ShownAsSent, Parked, Steps, Actions, Bridge.RowsAfter, Bridge.WorkerAfter;
      var reference := Reference(c);
      if reference.None? { raised := true; return; }
      Save(Step("identity_captured"), Nothing, NO_FACTS.(identity := Some(names.reference(reference.value))), Captured);
      if raised { return; }
      if !ShownAsSent(c, ownedRow) { raised := true; return; }
      Save(Step("submitted"), Submitted, NO_FACTS, Returned);
    }

    /** `cancel`: Delete on the one matching order; a confirmation is answered only when it names the order. */
    method CancelOrder()
      requires Valid() && !raised && kind == Kind.Cancel && At() == Prepared && !lost && Actions(path) == []
      modifies this, journal
      ensures Valid() && (raised || At() == Returned || At() == Unconfirmed)
      ensures Actions(path) != [] ==> TargetHolds(c) && Actions(path)[0] == DeleteKey
      ensures ConfirmCancel in Actions(path) ==> ConfirmsCancel(c)
      ensures !raised <==> !lost && Cancels(c)
      ensures !raised ==> (At() == Unconfirmed <==> Silent(c))
      ensures ownedRow == old(ownedRow)
    {
      hide TargetHolds, ConfirmsCancel, Steps, Actions, Bridge.RowsAfter, Bridge.WorkerAfter;
      if !TargetHolds(c) { raised := true; return; }
      Save(Step("submitting"), Unknown, NO_FACTS, Submitting);
      if raised { return; }
      Act(DeleteKey, Pressed);
      AnswerDialog();
    }

    method AnswerDialog()
      requires Valid() && !raised && kind == Kind.Cancel && At() == Pressed && !lost
      modifies this, journal
      ensures Valid() && (raised || At() == Returned || At() == Unconfirmed)
      ensures Actions(path) == Actions(old(path)) + if ConfirmsCancel(c) then [ConfirmCancel] else []
      ensures !raised <==> !lost && (c.t.dialogs == [] || (ConfirmsCancel(c) && c.t.dialogCloses))
      ensures !raised ==> (At() == Unconfirmed <==> Silent(c))
      ensures ownedRow == old(ownedRow)
    {
      hide DialogFits, Steps, Actions, EffectAt;
      if c.t.dialogs == [] {
        Proceed(Unconfirmed);
      } else if ConfirmsCancel(c) {
        Confirm();
      } else {
        raised := true;
      }
    }

    method Confirm()
      requires Valid() && !raised && kind == Kind.Cancel && At() == Pressed && !lost
      modifies this, journal
      ensures Valid() && (raised || At() == Returned) && ownedRow == old(ownedRow)
      ensures Actions(path) == Actions(old(path)) + [ConfirmCancel]
      ensures !raised <==> !lost && c.t.dialogCloses
    {
      hide Steps, Actions, Bridge.RowsAfter, Bridge.WorkerAfter;
      Act(ConfirmCancel, Confirmed);
      if !c.t.dialogCloses { raised := true; return; }
      Save(Step("submitted"), Submitted, NO_FACTS, Returned);
    }

    /** Observation after the submission; a cancel that showed no dialog must be seen in the order table. */
    method Verify()
      requires Valid() && !raised && (At() == Returned || (At() == Unconfirmed && kind == Kind.Cancel)) && !lost
      requires At() == Unconfirmed <==> Silent(c)
      modifies this, journal
      ensures Valid() && (raised || At() == Succeeded) && Actions(path) == Actions(old(path))
      ensures !raised <==> !lost && Verifies(c)
      ensures facts.identity == old(facts).identity && ownedRow == old(ownedRow)
      ensures !raised ==> finding == Some(Outcome(c).1.value)
      ensures !raised && kind != Kind.Cancel ==>
                facts.orderId == Coalesce(Named(Outcome(c).0, names.order), old(facts).orderId)
    {
      hide Outcome, Steps, Actions, Bridge.RowsAfter, Bridge.WorkerAfter;
      var (orderId, outcome) := Outcome(c);
      if kind != Kind.Cancel && orderId.Some? {
        Save(Step("order_identified"), Nothing, NO_FACTS.(orderId := Some(names.order(orderId.value))), Returned);
        if raised { return; }
      }
      if outcome.Err? { raised := true; return; }
      finding := Some(outcome.value);
      Conclude(outcome.value.verdict == Observation.Observed);
    }

    method Conclude(observed: bool)
      requires Valid() && !raised && (At() == Returned || (At() == Unconfirmed && kind == Kind.Cancel)) && !lost
      modifies this, journal
      ensures Valid() && (raised || At() == Succeeded) && Actions(path) == Actions(old(path))
      ensures !raised <==> !lost && (old(At()) == Unconfirmed ==> observed) && c.t.sessionHolds
      ensures facts == old(facts) && ownedRow == old(ownedRow) && finding == old(finding)
    {
      hide Steps, Actions, Bridge.RowsAfter, Bridge.WorkerAfter;
      if effect == Unknown {
        if !observed { raised := true; return; }
        Save(Step("cancel_observed"), Submitted, NO_FACTS, Returned);
        if raised { return; }
      }
      if !c.t.sessionHolds { raised := true; return; }
      Proceed(Succeeded);
    }

    method Submit()
      requires Valid() && !raised && At() == Prepared && !lost && Actions(path) == [] && ownedRow.None?
      modifies this, journal
      ensures Valid() && (raised || At() == Returned || (At() == Unconfirmed && kind == Kind.Cancel))
      ensures !raised <==> !lost && Submits(c)
      ensures !raised ==> (At() == Unconfirmed <==> Silent(c)) && ownedRow == BoundRow(c)
      ensures !raised && kind != Kind.Cancel ==> facts.identity == Named(Reference(c), names.reference)
    {
      hide Importable, Sendable, Reference, BindingOf, Cancels, Sends;
      match kind
      case Gfd => Limit();
      case Ioc => LimitIoc();
      case Cancel => CancelOrder();
    }

    method Perform(blocked: bool)
      requires Valid() && path == [] && !raised && !lost && ownedRow.None?
      modifies this, journal
      ensures Valid() && (raised || At() == Succeeded)
      ensures Actions(path) != [] ==> !blocked && c.t.prepared && c.t.baseline
      ensures blocked || !c.t.prepared ==> raised && effect == Nothing
      ensures !raised <==> !blocked && !lost && c.t.prepared && c.t.baseline && Submits(c) && Verifies(c)
      ensures !raised ==> finding == Some(Outcome(c).1.value) && ownedRow == BoundRow(c)
      ensures !raised && kind != Kind.Cancel ==>
                facts.identity == Named(Reference(c), names.reference)
                && (Outcome(c).0.Some? ==> facts.orderId == Named(Outcome(c).0, names.order))
    {
      hide Submits, Verifies, Reference, Outcome, BoundRow, Silent;
      assert Actions(path) == [] && At() == Pc.Begin;
      if blocked || !c.t.prepared { raised := true; return; }
      Save(Started, Nothing, NO_FACTS, Prepared);
      if raised { return; }
      if !c.t.baseline { raised := true; return; }
      Submit();
      if raised { return; }
      Verify();
    }

    /** `execute`: prepare, submit, verify, clean up, answer. Whatever happened, the answer carries the remembered
        effect; a 202 is given exactly when everything went through and is on record; and an executor that answers
        with an effect it does not know is blocked from then on, whether or not it was before. */
    method Execute(blocked: bool) returns (reply: Reply, isolated: bool)
      requires Valid() && path == [] && !raised && !lost && ownedRow.None? && c.t.failure != 202
      modifies this, journal
      ensures Valid() && reply.id == id && reply.submission == effect
      ensures Actions(path) != [] ==> !blocked && c.t.prepared && c.t.baseline && reply.submission != Nothing
                                      && id in journal.rows && journal.rows[id].effect != Nothing
      ensures reply.status == 202 <==>
                !blocked && !lost && c.t.prepared && c.t.baseline && Submits(c) && Verifies(c)
                && CleansUp(c, BoundRow(c))
                && c.t.artifacts && stores(saves) == Good
      ensures reply.status == 202 ==> effect == Submitted && finding == Some(Outcome(c).1.value)
      ensures reply.status == 202 && kind != Kind.Cancel ==>
                reply.facts.identity == Named(Reference(c), names.reference)
                && (Outcome(c).0.Some? ==> reply.facts.orderId == Named(Outcome(c).0, names.order))
      ensures reply.status == 202 && c.ask.Place? && 0.0 <= c.setting.ratio < 1.0 ==>
                OrderIsTheRequests(c, BoundRow(c), finding.value)
      ensures reply.status == 202 && id in journal.rows ==>
                journal.rows[id].reply == Some(reply) && journal.rows[id].effect == Submitted
      ensures (blocked || reply.submission == Unknown ==> isolated) && (reply.status == 202 ==> !isolated)
      ensures c.t.severe && reply.status != 202 ==> isolated
      ensures forall state: Bridge.WorkerState :: state.blocked == isolated ==>
                Bridge.Reports(Bridge.Answered(reply, false), state)
    {
      hide Submits, Verifies, Reference, Outcome, BoundRow, CleansUp, OrderIsTheRequests, Steps, Actions,
        Bridge.RowsAfter, Bridge.WorkerAfter;
      Perform(blocked);
      isolated := Cleanup(blocked);
      var kept: bool;
      reply, kept := Answer();
      isolated := isolated || !kept;
      if reply.status == 202 && c.ask.Place? && 0.0 <= c.setting.ratio < 1.0 {
        AcceptedOrderIsTheRequests(c);
      }
    }

    /** What has begun is cleaned up; a row cleaned up is owned no longer.  The executor is blocked by a cleanup that is
        not confirmed, by an error of the severe kind, and by an unknown effect with no row left to answer for it. */
    method Cleanup(blocked: bool) returns (isolated: bool)
      requires Valid() && (raised || At() == Succeeded) && (blocked || !c.t.prepared ==> raised && effect == Nothing)
      modifies this`raised, this`ownedRow
      ensures Valid() && path == old(path)
      ensures !raised <==> !old(raised) && CleansUp(c, old(ownedRow))
      ensures (blocked || (raised && effect == Unknown) ==> isolated) && (!raised ==> !isolated)
      ensures var clean := CleansUp(c, old(ownedRow));
              && (isolated <==>
                    || blocked || (!clean && c.t.prepared)
                    || (raised && (c.t.severe || (effect == Unknown && (clean || old(ownedRow).None?)))))
              && ownedRow == (if clean then None else old(ownedRow))
    {
      isolated := blocked;
      if !CleansUp(c, ownedRow) {
        raised := true;
        isolated := isolated || c.t.prepared;
      } else {
        ownedRow := None;
      }
      isolated := isolated || (raised && (c.t.severe || (effect == Unknown && ownedRow.None?)));
    }

    /** The executor's last step in the transition system. */
    ghost function Final(raised: bool): Bridge.Exec
      reads this
    {
      Bridge.Exec(id, kind, if raised then Raised else Succeeded, effect, facts)
    }

    method Answer() returns (reply: Reply, kept: bool)
      requires Valid() && (raised || At() == Succeeded) && c.t.failure != 202
      modifies this`saves, journal
      ensures Valid() && path == old(path) && saves == old(saves) + 1
      ensures reply.id == id && reply.submission == effect && (kept <==> c.t.artifacts && stores(saves) == Good)
      ensures reply.status == 202 <==> !raised && kept
      ensures kept && raised ==> reply.status == c.t.failure && reply.facts == facts
      ensures !kept ==> reply.status == 503 && reply.code == StorageUnavailable
      ensures reply.status == 202 ==>
                && reply.facts == facts
                && (id in journal.rows ==>
                      journal.rows[id].reply == Some(reply) && journal.rows[id].effect == Submitted)
      ensures var m := Bridge.FinishWork(c.t.failure, c.t.artifacts, stores(saves));
              && Bridge.WorkerAfter(old(journal.rows), Final(raised), m) == Bridge.Answered(reply, false)
              && journal.rows == Bridge.RowsAfter(old(journal.rows), Final(raised), m, now)
    {
      reply := if raised then Reply(id, c.t.failure, effect, OperationError, facts)
               else Reply(id, 202, Submitted, Accepted, facts);
      saves := saves + 1;
      kept := c.t.artifacts;
      if kept {
        kept := journal.Finish(reply, now, stores(saves));
      }
      if !kept { reply := Bridge.StorageReply(id, effect); }
    }
  }
}
