/** What the record of a request is worth on its own, whoever writes to it. */
module JournalTheorems {
  import opened Base
  import opened Journal

  /** Recovery closes exactly the open records of its account, says "nothing happened" exactly for those that had
      saved no effect and no step beyond "started", keeps a verdict already on record, and changes nothing when it is
      repeated. */
  lemma RecoveryIsExact(rows: Rows, ns: Namespace, id: Id, now: Time, later: Time)
    requires id in rows
    ensures var after := Recovered(rows, ns, now);
            && after.Keys == rows.Keys
            && !Pending(after[id], ns)
            && (!Pending(rows[id], ns) ==> after[id] == rows[id])
            && (Pending(rows[id], ns) ==>
                  && after[id].phase == Finished && after[id].reply.Some? && after[id].facts == rows[id].facts
                  && after[id].effect == after[id].reply.value.submission
                  && (after[id].effect == Nothing <==> Harmless(rows[id]))
                  && (rows[id].effect != Nothing ==> after[id].effect == KnownOrUnknown(rows[id].effect))
                  && Climbs(rows[id].effect, after[id].effect))
            && Recovered(after, ns, later) == after
  {
  }

  /** What the caller of a request left behind is told after a restart: "interrupted" exactly when nothing beyond the
      start was saved, otherwise that the status is unknown, with a verdict if one is on record; and what was learnt
      about the order. */
  lemma RecoveryTellsExactly(rows: Rows, ns: Namespace, id: Id, now: Time)
    requires id in rows && rows[id].reply.None? && rows[id].namespace == ns
    ensures var row := rows[id]; var after := Recovered(rows, ns, now)[id];
            var untouched := (row.phase == Queued || row.phase == Started) && row.effect == Nothing;
            && after.reply.Some? && after.reply.value.id == id && after.reply.value.status == 503
            && after.reply.value.facts == row.facts && after.effect == after.reply.value.submission
            && (untouched ==> after.reply.value.code == RequestInterrupted && after.effect == Nothing)
            && (!untouched ==> after.reply.value.code == OperationStatusUnknown
                               && after.effect == match row.effect {
                                    case Submitted => Submitted
                                    case Rejected => Rejected
                                    case Unknown => Unknown
                                    case Nothing => Unknown
                                  })
            && after.updated == now && after.key == row.key && after.operation == row.operation
  {
  }

  /** What is reported of a request whose executor was lost: the reply on record, else a 502 with the verdict on record,
      and unknown for anything else, a missing record included. */
  lemma InterruptionTellsExactly(rows: Rows, id: Id)
    ensures var told := InterruptedReply(rows, id);
            if id in rows && rows[id].reply.Some? then rows[id].reply == Some(told)
            else
              && told.id == id && told.status == 502 && told.code == OperationStatusUnknown
              && told.facts == (if id in rows then rows[id].facts else NO_FACTS)
              && (told.submission == Submitted <==> id in rows && rows[id].effect == Submitted)
              && (told.submission == Rejected <==> id in rows && rows[id].effect == Rejected)
              && told.submission != Nothing
  {
  }

  /** A save keeps whatever it does not name: the newer value where there is one, else the older. */
  lemma SaveMergesExactly(rows: Rows, id: Id, phase: Phase, effect: Effect, facts: Facts, now: Time, other: Id)
    requires id in rows
    ensures var before := rows[id]; var after := Phased(rows, id, phase, effect, facts, now)[id];
            && after.phase == phase && after.updated == now
            && after.effect == (if effect == Nothing then before.effect else effect)
            && (facts.identity.Some? ==> after.facts.identity == facts.identity)
            && (facts.identity.None? ==> after.facts.identity == before.facts.identity)
            && (facts.orderId.Some? ==> after.facts.orderId == facts.orderId)
            && (facts.orderId.None? ==> after.facts.orderId == before.facts.orderId)
            && (facts.execution.Some? ==> after.facts.execution == facts.execution)
            && (facts.execution.None? ==> after.facts.execution == before.facts.execution)
            && after.namespace == before.namespace && after.key == before.key && after.reply == before.reply
            && after.operation == before.operation
    ensures other in rows && other != id ==>
              other in Phased(rows, id, phase, effect, facts, now)
              && Phased(rows, id, phase, effect, facts, now)[other] == rows[other]
  {
  }

  /** Closing a record stores the reply and its status and nothing else, in that record only. */
  lemma ClosingIsExact(rows: Rows, reply: Reply, now: Time, other: Id)
    ensures Closed(rows, reply, now).Keys == rows.Keys
    ensures reply.id in rows ==>
              var before := rows[reply.id]; var after := Closed(rows, reply, now)[reply.id];
              && after.reply == Some(reply) && after.effect == reply.submission && after.phase == Finished
              && after.updated == now && after.facts == before.facts && after.key == before.key
              && after.namespace == before.namespace && after.operation == before.operation
    ensures other in rows && other != reply.id ==> Closed(rows, reply, now)[other] == rows[other]
  {
  }

  /** A new record is open, knows nothing and has done nothing; all others stay. */
  lemma AdmissionIsExact(rows: Rows, id: Id, ns: Namespace, op: Operation, key: Option<Key>, now: Time, other: Id)
    ensures var after := Admitted(rows, id, ns, op, key, now);
            && after.Keys == rows.Keys + {id}
            && after[id].namespace == ns && after[id].operation == op && after[id].key == key && after[id].reply.None?
            && after[id].phase == Queued && after[id].effect == Nothing && after[id].facts == Facts(None, None, None)
            && after[id].updated == now && (other in rows && other != id ==> after[other] == rows[other])
  {
  }

  /** What a key answers: with the reply on record for the same operation, in progress while there is none, and a
      conflict for any other operation; a key nobody holds in this account answers nothing. */
  lemma LookupIsExact(rows: Rows, ns: Namespace, op: Operation, key: Key, id: Id)
    requires UniqueKeys(rows)
    ensures Lookup(rows, ns, op, None).None?
    ensures Lookup(rows, ns, op, Some(key)).None? <==>
              forall other :: other in rows && rows[other].namespace == ns ==> rows[other].key != Some(key)
    ensures id in rows && rows[id].namespace == ns && rows[id].key == Some(key) ==>
              && Lookup(rows, ns, op, Some(key)).Some?
              && var told := Lookup(rows, ns, op, Some(key)).value;
                 if rows[id].operation != op
                 then told.id == id && told.status == 409 && told.code == IdempotencyConflict
                     && told.submission == Nothing
                 else if rows[id].reply.Some? then Some(told) == rows[id].reply
                 else told.id == id && told.status == 409 && told.code == OperationInProgress
                      && told.submission == Nothing
  {
    forall other ensures Holds(rows, other, ns, key) <==>
                           other in rows && rows[other].namespace == ns && rows[other].key == Some(key) { }
    if holder :| Holds(rows, holder, ns, key) { UniqueLookup(rows, ns, op, key, holder); }
  }

  /** What is counted as unresolved: the records of this account whose effect is unknown, finished or not. */
  lemma UnresolvedIsExact(rows: Rows, ns: Namespace, id: Id)
    ensures id in UnknownIds(rows, ns) <==> id in rows && rows[id].namespace == ns && rows[id].effect == Unknown
  {
  }

  lemma RecoveryKeepsUnique(rows: Rows, ns: Namespace, now: Time)
    requires UniqueKeys(rows)
    ensures UniqueKeys(Recovered(rows, ns, now))
  {
    var after := Recovered(rows, ns, now);
    forall a, b, n, k | Holds(after, a, n, k) && Holds(after, b, n, k) ensures a == b {
      assert Holds(rows, a, n, k) && Holds(rows, b, n, k);
    }
  }

  /** However much time passes, pruning never removes a record that is open or unknown, and changes none it keeps. */
  lemma ProtectionNeverExpires(rows: Rows, id: Id, now: Time, ttl: Time)
    requires id in rows
    ensures id !in Pruned(rows, now, ttl) <==>
              rows[id].phase == Finished && rows[id].effect != Unknown && rows[id].updated < now - ttl
    ensures id in Pruned(rows, now, ttl) ==> Pruned(rows, now, ttl)[id] == rows[id]
    ensures Pruned(Pruned(rows, now, ttl), now, ttl) == Pruned(rows, now, ttl)
  {
  }

  /** The life of an idempotency key: in progress once admitted, then the recorded answer for the same operation and a
      conflict for any other, until the record is finished, not unknown, and older than the protection time. */
  lemma KeyLifecycle(rows: Rows, id: Id, ns: Namespace, op: Operation, key: Key, other: Operation, reply: Reply,
                     admitted: Time, finished: Time, now: Time, ttl: Time)
    requires UniqueKeys(rows) && id !in rows && Lookup(rows, ns, op, Some(key)).None? && reply.id == id
    ensures var open := Admitted(rows, id, ns, op, Some(key), admitted);
            var closed := Closed(open, reply, finished);
            && Lookup(open, ns, op, Some(key)) == Some(Reply(id, 409, Nothing, OperationInProgress, NO_FACTS))
            && Lookup(closed, ns, op, Some(key)) == Some(reply)
            && (other != op ==>
                  Lookup(open, ns, other, Some(key)) == Some(Reply(id, 409, Nothing, IdempotencyConflict, NO_FACTS))
                  && Lookup(closed, ns, other, Some(key)) == Lookup(open, ns, other, Some(key)))
            && (Lookup(Pruned(closed, now, ttl), ns, op, Some(key)).None?
                <==> reply.submission != Unknown && finished < now - ttl)
  {
    var open := Admitted(rows, id, ns, op, Some(key), admitted);
    AdmitKeepsUnique(rows, id, ns, op, Some(key), admitted);
    var closed := Closed(open, reply, finished);
    ClosingKeepsUnique(open, reply, finished);
    UniqueLookup(open, ns, op, key, id);
    UniqueLookup(closed, ns, op, key, id);
    UniqueLookup(open, ns, other, key, id);
    UniqueLookup(closed, ns, other, key, id);
    var pruned := Pruned(closed, now, ttl);
    PruneKeepsUnique(closed, now, ttl);
    if id in pruned {
      UniqueLookup(pruned, ns, op, key, id);
    } else {
      assert Holds(closed, id, ns, key);
      forall k: Id ensures !Holds(pruned, k, ns, key) { assert Holds(closed, k, ns, key) ==> k == id; }
    }
  }

  lemma ClosingKeepsUnique(rows: Rows, reply: Reply, now: Time)
    requires UniqueKeys(rows)
    ensures UniqueKeys(Closed(rows, reply, now))
  {
    var after := Closed(rows, reply, now);
    forall a, b, n, k | Holds(after, a, n, k) && Holds(after, b, n, k) ensures a == b {
      assert Holds(rows, a, n, k) && Holds(rows, b, n, k);
    }
  }

  /** Two accounts never see each other's keys, and a key held by another request is never given away. */
  lemma NamespacesAreSeparate(rows: Rows, id: Id, ns: Namespace, op: Operation, key: Key, elsewhere: Namespace,
                              now: Time, other: Operation, sought: Key)
    requires UniqueKeys(rows) && id !in rows && Lookup(rows, ns, op, Some(key)).None?
    requires elsewhere != ns || sought != key
    ensures Lookup(Admitted(rows, id, ns, op, Some(key), now), elsewhere, other, Some(sought))
            == Lookup(rows, elsewhere, other, Some(sought))
  {
    var after := Admitted(rows, id, ns, op, Some(key), now);
    AdmitKeepsUnique(rows, id, ns, op, Some(key), now);
    assert forall k :: k != id ==> Holds(after, k, elsewhere, sought) == Holds(rows, k, elsewhere, sought);
    if holder :| Holds(rows, holder, elsewhere, sought) {
      assert Holds(after, holder, elsewhere, sought);
      UniqueLookup(rows, elsewhere, other, sought, holder);
      UniqueLookup(after, elsewhere, other, sought, holder);
    }
  }
}
