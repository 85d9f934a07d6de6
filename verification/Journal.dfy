/** The durable record of every write request (cn_futures_bridge/journal.py).

    The specification is a set of functions on `Rows`, the table as a map; the class `Journal` performs the same
    transactions by updating its table in place and is proved equal to them.
 */
module Journal {
  import opened Base

  type Id = nat
  type Key = nat
  type Namespace = nat

  /** Every write action, by the flow that carries it out; `Query` covers the five read-only actions. */
  datatype Kind = Query | Gfd | Ioc | Cancel

  /** Equal operations are exactly those with equal fingerprints. */
  datatype Operation = Operation(kind: Kind, parameters: nat) {
    predicate Writes() { kind != Query }
  }

  /** The submission_status of a request; `Nothing` is null. */
  datatype Effect = Nothing | Unknown | Submitted | Rejected

  function Rank(e: Effect): nat {
    match e
    case Nothing => 0
    case Unknown => 1
    case Submitted => 2
    case Rejected => 2
  }

  /** The order in which an effect may change: nothing, then unknown, then one of the two verdicts for good. */
  predicate Climbs(a: Effect, b: Effect) {
    a == b || Rank(a) < Rank(b)
  }

  datatype Phase = Queued | Started | Step(name: string) | Finished

  /** What is known about the order itself; each field is written at most once with COALESCE. */
  datatype Facts = Facts(identity: Option<nat>, orderId: Option<nat>, execution: Option<nat>)

  const NO_FACTS := Facts(None, None, None)

  function Learn(newer: Facts, older: Facts): Facts {
    Facts(Coalesce(newer.identity, older.identity), Coalesce(newer.orderId, older.orderId),
          Coalesce(newer.execution, older.execution))
  }

  datatype Code = Accepted | OperationError | NotReady | QueueTimeout | RequestCancelled | StorageUnavailable
                | QueueFull | EnvironmentMismatch | NotSupported | IdempotencyConflict | OperationInProgress
                | RequestInterrupted | OperationStatusUnknown

  datatype Reply = Reply(id: Id, status: nat, submission: Effect, code: Code, facts: Facts)

  datatype Row = Row(namespace: Namespace, operation: Operation, key: Option<Key>, phase: Phase, effect: Effect,
                     facts: Facts, reply: Option<Reply>, updated: Time)

  type Rows = map<Id, Row>

  // ----- Transactions as functions on the table -----

  predicate Expired(row: Row, now: Time, ttl: Time) {
    row.phase == Finished && row.effect != Unknown && row.updated < now - ttl
  }

  function ExpiredRows(rows: Rows, now: Time, ttl: Time): Rows {
    map id | id in rows && Expired(rows[id], now, ttl) :: rows[id]
  }

  function Pruned(rows: Rows, now: Time, ttl: Time): Rows {
    map id | id in rows && !Expired(rows[id], now, ttl) :: rows[id]
  }

  predicate Holds(rows: Rows, id: Id, ns: Namespace, key: Key) {
    id in rows && rows[id].namespace == ns && rows[id].key == Some(key)
  }

  /** UNIQUE(namespace, key_hash). */
  ghost predicate UniqueKeys(rows: Rows) {
    forall a, b, ns, key :: Holds(rows, a, ns, key) && Holds(rows, b, ns, key) ==> a == b
  }

  function Answer(id: Id, row: Row, op: Operation): Reply {
    if row.operation != op then Reply(id, 409, Nothing, IdempotencyConflict, NO_FACTS)
    else if row.reply.Some? then row.reply.value
    else Reply(id, 409, Nothing, OperationInProgress, NO_FACTS)
  }

  ghost function Lookup(rows: Rows, ns: Namespace, op: Operation, key: Option<Key>): Option<Reply> {
    if key.None? then None
    else if id :| Holds(rows, id, ns, key.value) then Some(Answer(id, rows[id], op))
    else None
  }

  function Admitted(rows: Rows, id: Id, ns: Namespace, op: Operation, key: Option<Key>, now: Time): Rows {
    rows[id := Row(ns, op, key, Queued, Nothing, NO_FACTS, None, now)]
  }

  function CoalesceEffect(newer: Effect, older: Effect): Effect {
    if newer != Nothing then newer else older
  }

  function Phased(rows: Rows, id: Id, phase: Phase, effect: Effect, facts: Facts, now: Time): Rows
    requires id in rows
  {
    rows[id := rows[id].(phase := phase, effect := CoalesceEffect(effect, rows[id].effect),
                         facts := Learn(facts, rows[id].facts), updated := now)]
  }

  function Closed(rows: Rows, reply: Reply, now: Time): Rows {
    if reply.id in rows
    then rows[reply.id := rows[reply.id].(phase := Finished, effect := reply.submission, reply := Some(reply),
                                          updated := now)]
    else rows
  }

  function KnownOrUnknown(e: Effect): Effect {
    if e == Submitted || e == Rejected then e else Unknown
  }

  /** What is reported when the worker was lost while it owned the request. */
  function InterruptedReply(rows: Rows, id: Id): Reply {
    if id in rows && rows[id].reply.Some? then rows[id].reply.value
    else if id in rows
    then Reply(id, 502, KnownOrUnknown(rows[id].effect), OperationStatusUnknown, rows[id].facts)
    else Reply(id, 502, Unknown, OperationStatusUnknown, NO_FACTS)
  }

  /** A request the previous process left behind provably did nothing. */
  predicate Harmless(row: Row) {
    (row.phase == Queued || row.phase == Started) && row.effect == Nothing
  }

  function RecoveryReply(id: Id, row: Row): Reply {
    if Harmless(row) then Reply(id, 503, Nothing, RequestInterrupted, row.facts)
    else Reply(id, 503, KnownOrUnknown(row.effect), OperationStatusUnknown, row.facts)
  }

  predicate Pending(row: Row, ns: Namespace) {
    row.reply.None? && row.namespace == ns
  }

  function RecoveredRow(id: Id, row: Row, ns: Namespace, now: Time): Row {
    if !Pending(row, ns) then row
    else
      var reply := RecoveryReply(id, row);
      row.(phase := Finished, effect := reply.submission, reply := Some(reply), updated := now)
  }

  function Recovered(rows: Rows, ns: Namespace, now: Time): Rows {
    map id | id in rows :: RecoveredRow(id, rows[id], ns, now)
  }

  function UnknownIds(rows: Rows, ns: Namespace): set<Id> {
    set id | id in rows && rows[id].effect == Unknown && rows[id].namespace == ns
  }

  // ----- The table as an object -----

  class Journal {
    const namespace: Namespace
    const ttl: Time
    var rows: Rows

    constructor (namespace: Namespace, ttl: Time, rows: Rows)
      ensures this.namespace == namespace && this.ttl == ttl && this.rows == rows
    {
      this.namespace := namespace;
      this.ttl := ttl;
      this.rows := rows;
    }

    method Prune(now: Time)
      modifies this
      ensures rows == Pruned(old(rows), now, ttl)
    {
      var doomed := ExpiredRows(rows, now, ttl);
      rows := rows - doomed.Keys;
    }

    method Find(op: Operation, key: Option<Key>) returns (existing: Option<Reply>)
      requires UniqueKeys(rows)
      ensures existing == Lookup(rows, namespace, op, key)
    {
      if key.Some? && exists id :: id in rows && Holds(rows, id, namespace, key.value) {
        var id :| id in rows && Holds(rows, id, namespace, key.value);
        return Some(Answer(id, rows[id], op));
      }
      return None;
    }

    /** The transaction before admission: prune, then look the key up. */
    method Replay(op: Operation, key: Option<Key>, now: Time, store: Store)
        returns (existing: Result<Option<Reply>, Code>)
      requires UniqueKeys(rows)
      modifies this
      ensures UniqueKeys(rows) && rows.Keys <= old(rows).Keys
      ensures key.None? ==> rows == old(rows) && existing == Ok(None)
      ensures key.Some? ==> rows == if store == RolledBack then old(rows) else Pruned(old(rows), now, ttl)
      ensures key.Some? ==> existing == if store == Good then Ok(Lookup(rows, namespace, op, key))
              else Err(StorageUnavailable)
    {
      if key.None? { return Ok(None); }
      if store == RolledBack { return Err(StorageUnavailable); }
      PruneKeepsUnique(rows, now, ttl);
      Prune(now);
      var found := Find(op, key);
      return if store == Good then Ok(found) else Err(StorageUnavailable);
    }

    /** Replays first; only a key never seen, or one whose record has expired, gets a new row. */
    method Admit(id: Id, op: Operation, key: Option<Key>, now: Time, store: Store)
      returns (existing: Result<Option<Reply>, Code>)
      requires UniqueKeys(rows) && id !in rows
      modifies this
      ensures UniqueKeys(rows)
      ensures store == RolledBack ==> rows == old(rows)
      ensures store != Good ==> existing == Err(StorageUnavailable)
      ensures store == Good ==> existing == Ok(Lookup(Pruned(old(rows), now, ttl), namespace, op, key))
      ensures store != RolledBack ==>
                var pruned := Pruned(old(rows), now, ttl);
                rows == if Lookup(pruned, namespace, op, key).Some? then pruned
                        else Admitted(pruned, id, namespace, op, key, now)
    {
      var before := rows;
      PruneKeepsUnique(rows, now, ttl);
      Prune(now);
      var found := Find(op, key);
      if found.None? {
        AdmitKeepsUnique(rows, id, namespace, op, key, now);
        rows := rows[id := Row(namespace, op, key, Queued, Nothing, NO_FACTS, None, now)];
      }
      if store == RolledBack {
        rows := before;
      }
      return if store == Good then Ok(found) else Err(StorageUnavailable);
    }

    /** The write-ahead step: raises unless the row exists, so nothing is done without a record of it. */
    method Save(id: Id, phase: Phase, effect: Effect, facts: Facts, now: Time, store: Store) returns (ok: bool)
      modifies this
      ensures ok <==> store == Good && id in old(rows)
      ensures rows == if store != RolledBack && id in old(rows)
                      then Phased(old(rows), id, phase, effect, facts, now) else old(rows)
    {
      if id in rows && store != RolledBack {
        var row := rows[id];
        row := row.(phase := phase, updated := now);
        if effect != Nothing {
          row := row.(effect := effect);
        }
        row := row.(facts := Learn(facts, row.facts));
        rows := rows[id := row];
      }
      ok := store == Good && id in rows;
    }

    method Finish(reply: Reply, now: Time, store: Store) returns (ok: bool)
      modifies this
      ensures ok <==> store == Good
      ensures rows == if store == RolledBack then old(rows) else Closed(old(rows), reply, now)
    {
      if store != RolledBack && reply.id in rows {
        rows := rows[reply.id := rows[reply.id].(phase := Finished, effect := reply.submission,
                                                 reply := Some(reply), updated := now)];
      }
      ok := store == Good;
    }

    /** What to tell about a request whose executor was lost; nothing is written. */
    method Interrupted(id: Id, store: Store) returns (reply: Result<Reply, Code>)
      ensures reply == if store == Good then Ok(InterruptedReply(rows, id)) else Err(StorageUnavailable)
    {
      if store != Good { return Err(StorageUnavailable); }
      if id in rows && rows[id].reply.Some? { return Ok(rows[id].reply.value); }
      var effect := if id in rows && (rows[id].effect == Submitted || rows[id].effect == Rejected)
          then rows[id].effect else Unknown;
      return Ok(Reply(id, 502, effect, OperationStatusUnknown, if id in rows then rows[id].facts else NO_FACTS));
    }

    /** Classifies every record the previous process left open, one at a time, then prunes and counts. */
    method Recover(now: Time) returns (unresolved: nat)
      modifies this
      ensures rows == Pruned(Recovered(old(rows), namespace, now), now, ttl)
      ensures unresolved == |UnknownIds(rows, namespace)|
    {
      var left := set id | id in rows && Pending(rows[id], namespace);
      while left != {}
        invariant rows.Keys == old(rows).Keys
        invariant forall id :: id in left ==> id in rows && Pending(rows[id], namespace) && rows[id] == old(rows)[id]
        invariant forall id :: id in rows && id !in left ==> rows[id] == RecoveredRow(id, old(rows)[id], namespace, now)
        decreases left
      {
        var id :| id in left;
        var row := rows[id];
        var safe := (row.phase == Queued || row.phase == Started) && row.effect == Nothing;
        var known := if row.effect == Submitted || row.effect == Rejected then row.effect else Unknown;
        var verdict := if safe then Nothing else known;
        var code := if safe then RequestInterrupted else OperationStatusUnknown;
        rows := rows[id := row.(phase := Finished, effect := verdict,
                                reply := Some(Reply(id, 503, verdict, code, row.facts)), updated := now)];
        left := left - {id};
      }
      assert rows == Recovered(old(rows), namespace, now);
      Prune(now);
      unresolved := |UnknownIds(rows, namespace)|;
    }
  }

  // ----- What the record is for -----

  lemma UniqueLookup(rows: Rows, ns: Namespace, op: Operation, key: Key, id: Id)
    requires UniqueKeys(rows) && Holds(rows, id, ns, key)
    ensures Lookup(rows, ns, op, Some(key)) == Some(Answer(id, rows[id], op))
  {
  }

  lemma PruneKeepsUnique(rows: Rows, now: Time, ttl: Time)
    requires UniqueKeys(rows)
    ensures UniqueKeys(Pruned(rows, now, ttl))
  {
    var after := Pruned(rows, now, ttl);
    forall a, b, n, k | Holds(after, a, n, k) && Holds(after, b, n, k) ensures a == b {
      assert Holds(rows, a, n, k) && Holds(rows, b, n, k);
    }
  }

  lemma AdmitKeepsUnique(rows: Rows, id: Id, ns: Namespace, op: Operation, key: Option<Key>, now: Time)
    requires UniqueKeys(rows) && id !in rows && Lookup(rows, ns, op, key).None?
    ensures UniqueKeys(Admitted(rows, id, ns, op, key, now))
  {
    var after := Admitted(rows, id, ns, op, key, now);
    forall a, b, n, k | Holds(after, a, n, k) && Holds(after, b, n, k) ensures a == b {
      assert a != id ==> Holds(rows, a, n, k);
      assert b != id ==> Holds(rows, b, n, k);
    }
  }
}
