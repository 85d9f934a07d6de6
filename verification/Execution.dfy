/** The control graph of one request inside the executor process.

    A program point is named after the last thing that is certain there.  An edge is labelled with what is done on
    the way: nothing durable, a journal save, or an action in the terminal that the outside world can see.  At every
    point the request may also raise, which leads to `Raised`.  (cn_futures_bridge/terminal/executor.py, orders.py,
    market.py, steps.py)
 */
module Execution {
  import opened Base
  import opened Journal

  /** Terminal actions with an effect outside the process. */
  datatype Action = Import | ConfirmPreorder | SendKey | DeleteKey | ConfirmCancel

  datatype Label = Quiet | Save(phase: Phase, effect: Effect) | Act(action: Action)

  datatype Pc = Begin          // taken from the queue, nothing done
              | Prepared       // "started" is saved; checks, price and baseline reads follow
              | Importing      // "importing" is saved with effect unknown
              | Imported       // the preorder was imported or confirmed in the terminal
              | Refused        // "rejected" is saved: the terminal imported nothing
              | Verified       // "parameters_verified" is saved
              | Submitting     // "submitting" is saved with effect unknown
              | Pressed        // Alt+Q or Delete was pressed
              | Captured       // "identity_captured" is saved
              | Confirmed      // the cancel dialog was confirmed
              | Unconfirmed    // Delete showed no dialog; only later reads can tell
              | Returned       // effect submitted is saved; verification follows
              | Succeeded      // the operation has a value
              | Raised         // an error is pending

  datatype Edge = Edge(work: Label, target: Pc)

  function Edges(kind: Kind, pc: Pc): set<Edge> {
    if kind == Query then if pc == Begin then {Edge(Quiet, Succeeded)} else {} else
    match pc
    case Begin => {Edge(Save(Started, Nothing), Prepared)}
    case Prepared =>
      if kind == Cancel then {Edge(Save(Step("submitting"), Unknown), Submitting)}
      else {Edge(Save(Step("importing"), Unknown), Importing)}
    case Importing =>
      if kind == Gfd then {Edge(Act(Import), Imported)}
      else if kind == Ioc then {Edge(Act(ConfirmPreorder), Imported)}
      else {}
    case Imported =>
      {Edge(Save(Step("parameters_verified"), Nothing), Verified)}
      + if kind == Gfd then {Edge(Save(Step("rejected"), Rejected), Refused)} else {}
    case Refused => {}
    case Verified => {Edge(Save(Step("submitting"), Unknown), Submitting)}
    case Submitting =>
      if kind == Cancel then {Edge(Act(DeleteKey), Pressed)} else {Edge(Act(SendKey), Pressed)}
    case Pressed =>
      if kind == Cancel then {Edge(Quiet, Unconfirmed), Edge(Act(ConfirmCancel), Confirmed)}
      else {Edge(Save(Step("identity_captured"), Nothing), Captured)}
    case Captured => {Edge(Save(Step("submitted"), Submitted), Returned)}
    case Confirmed => {Edge(Save(Step("submitted"), Submitted), Returned)}
    case Unconfirmed => {Edge(Save(Step("cancel_observed"), Submitted), Returned)}
    case Returned => {Edge(Quiet, Succeeded)}
                     + if kind != Cancel then {Edge(Save(Step("order_identified"), Nothing), Returned)} else {}
    case Succeeded => {}
    case Raised => {}
  }

  /** The effect the executor remembers at each point. */
  function EffectAt(pc: Pc): Effect
    requires pc != Raised && pc != Succeeded
  {
    match pc
    case Begin => Nothing
    case Prepared => Nothing
    case Refused => Rejected
    case Returned => Submitted
    case _ => Unknown
  }

  /** Counts how far the request is past its send key; only used to show the key is pressed once. */
  function Progress(pc: Pc): nat {
    match pc
    case Begin => 0
    case Prepared => 1
    case Importing => 2
    case Imported => 3
    case Refused => 4
    case Verified => 4
    case Submitting => 5
    case Pressed => 6
    case Captured => 7
    case Unconfirmed => 7
    case Confirmed => 7
    case Returned => 8
    case Succeeded => 9
    case Raised => 10
  }

  function ActedAt(a: Action): nat {
    match a
    case Import => 2
    case ConfirmPreorder => 2
    case SendKey => 5
    case DeleteKey => 5
    case ConfirmCancel => 6
  }

  function SavedEffect(work: Label, effect: Effect): Effect {
    if work.Save? then CoalesceEffect(work.effect, effect) else effect
  }

  /** Every edge keeps the remembered effect in step with its save, and never lowers it. */
  lemma EdgesTrackEffect(kind: Kind, pc: Pc, e: Edge)
    requires e in Edges(kind, pc)
    ensures pc != Raised && pc != Succeeded && e.target != Raised
    ensures e.target != Succeeded ==> EffectAt(e.target) == SavedEffect(e.work, EffectAt(pc))
    ensures e.target == Succeeded ==> e.work == Quiet && (kind != Query ==> EffectAt(pc) == Submitted)
    ensures e.work.Save? ==> Climbs(EffectAt(pc), CoalesceEffect(e.work.effect, EffectAt(pc)))
    ensures e.work.Save? && (e.work.phase == Queued || e.work.phase == Finished) ==> false
  {
    match pc { case _ => }
  }

  /** The write-ahead discipline: no action in the terminal before an effect is on record, and each one at its own
      point of the graph, which is never reached again. */
  lemma ActionsAreWrittenAhead(kind: Kind, pc: Pc, e: Edge)
    requires e in Edges(kind, pc)
    ensures Progress(pc) < Progress(e.target) || (pc == Returned && e.target == Returned)
    ensures e.work.Act? ==> kind != Query && EffectAt(pc) == Unknown && Progress(pc) == ActedAt(e.work.action)
    ensures pc == Submitting && kind != Query && e.work.Act? ==>
              e.work.action == if kind == Cancel then DeleteKey else SendKey
  {
    match pc { case _ => }
  }
}
