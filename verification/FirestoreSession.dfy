/** The session object that collects writes and commits them in one transaction. */
module FirestoreSession {
  import opened Wrappers
  import opened Lifecycle
  import F = Firestore
  import opened Firestore
  import opened FirestoreSafety

  /** The stored documents of one work order. */
  class WorkOrderDocuments {
    var order: Order

    constructor (order: Order)
      ensures this.order == order
    {
      this.order := order;
    }
  }

  class WorkOrderSession {
    const seenStatus: WorkStatus
    const base: seq<Entry>
    const baseSequence: int
    var status: WorkStatus
    var ledger: seq<Entry>
    var pendingStatus: Option<WorkStatus>
    var pendingEntries: seq<Entry>
    var pendingPackets: seq<string>
    var pendingDecisions: seq<string>
    var pendingDispatches: seq<string>
    var pendingLifecycle: Option<string>

    ghost function View(): Session
      reads this
    {
      Session(seenStatus, base, pendingStatus, pendingEntries, pendingPackets, pendingDecisions, pendingDispatches, pendingLifecycle)
    }

    /** The local ledger shows what was read and what is pending; the local status the latest write. */
    ghost predicate Valid()
      reads this
    {
      && baseSequence == MaxSequence(base)
      && ledger == base + pendingEntries
      && status == pendingStatus.GetOr(seenStatus)
    }

    constructor (seenStatus: WorkStatus, base: seq<Entry>)
      ensures Valid() && View() == Session(seenStatus, base, None, [], [], [], [], None)
    {
      this.seenStatus, this.base, this.baseSequence := seenStatus, base, MaxSequence(base);
      status, ledger := seenStatus, base;
      pendingStatus, pendingEntries, pendingPackets, pendingDecisions := None, [], [], [];
      pendingDispatches, pendingLifecycle := [], None;
    }

    method UpdateStatus(next: WorkStatus)
      requires Valid()
      modifies this`status, this`pendingStatus
      ensures Valid() && status == next && View() == old(View()).(pendingStatus := Some(next))
    {
      pendingStatus := Some(next);
      status := next;
    }

    method AppendLedger(eventId: string, body: string) returns (entry: Entry)
      requires Valid()
      modifies this`ledger, this`pendingEntries
      ensures Valid() && View() == Appended(old(View()), eventId, body)
      ensures ledger == old(ledger) + [entry]
      ensures entry == Entry(MaxSequence(base) + |old(pendingEntries)| + 1, eventId, body)
    {
      entry := Entry(baseSequence + |pendingEntries| + 1, eventId, body);
      pendingEntries := pendingEntries + [entry];
      ledger := ledger + [entry];
    }

    method PutResponsePacket(packetId: string)
      requires Valid()
      modifies this`pendingPackets
      ensures Valid() && View() == old(View()).(pendingPackets := old(pendingPackets) + [packetId])
    {
      pendingPackets := pendingPackets + [packetId];
    }

    method PutDecision(decisionId: string)
      requires Valid()
      modifies this`pendingDecisions
      ensures Valid() && View() == old(View()).(pendingDecisions := old(pendingDecisions) + [decisionId])
    {
      pendingDecisions := pendingDecisions + [decisionId];
    }

    method PutExecutionDispatch(dispatchId: string)
      requires Valid()
      modifies this`pendingDispatches
      ensures Valid() && View() == old(View()).(pendingDispatches := old(pendingDispatches) + [dispatchId])
    {
      pendingDispatches := pendingDispatches + [dispatchId];
    }

    method PutLifecycle(snapshot: string)
      requires Valid()
      modifies this`pendingLifecycle
      ensures Valid() && View() == old(View()).(pendingLifecycle := Some(snapshot))
    {
      pendingLifecycle := Some(snapshot);
    }

    /** commit: compare the sequence, then write everything; an earlier attempt that went through is not repeated. */
    method Commit(documents: WorkOrderDocuments) returns (committed: bool)
      requires Valid()
      modifies documents
      ensures
        match F.Commit(old(documents.order), View())
        case None => !committed && documents.order == old(documents.order)
        case Some(after) => committed && documents.order == after
    {
      if pendingStatus.None? && pendingEntries == [] && pendingPackets == [] && pendingDecisions == []
         && pendingDispatches == [] && pendingLifecycle.None? {
        return true;
      }
      var current := documents.order;
      if current.ledgerSequence != baseSequence {
        return
          && (forall e <- pendingEntries :: HasId(current.ledger, e.eventId))
          && (forall id <- pendingPackets :: id in current.packets)
          && (forall id <- pendingDecisions :: id in current.decisions)
          && (forall id <- pendingDispatches :: id in current.dispatches)
          && (pendingStatus.Some? ==> current.status == pendingStatus.value);
      }
      var written := current.ledger;
      for i := 0 to |pendingEntries|
        invariant written == PutAll(current.ledger, pendingEntries[..i])
      {
        assert pendingEntries[..i + 1][..i] == pendingEntries[..i];
        written := Put(written, pendingEntries[i]);
      }
      assert pendingEntries[..|pendingEntries|] == pendingEntries;
      documents.order := Order(
        pendingStatus.GetOr(current.status), current.ledgerSequence + |pendingEntries|, written,
        current.packets + Elements(pendingPackets), current.decisions + Elements(pendingDecisions),
        current.dispatches + Elements(pendingDispatches),
        if pendingLifecycle.Some? then pendingLifecycle else current.lifecycle);
      return true;
    }
  }

  /** Documents as every run of sessions leaves them: numbered from one, the sequence the last number. */
  ghost predicate Settled(order: Order) {
    Numbered(order.ledger) && order.ledgerSequence == |order.ledger|
  }

  /**
   A response transaction within one process: lock_work_order reads the order and the ledger, the service
   writes through the session, and the commit at the end of the block goes through as a whole.
   */
  method RecordResponse(
    documents: WorkOrderDocuments, next: WorkStatus, snapshot: string, eventId: string, body: string, packetId: string)
    returns (entry: Entry)
    requires Settled(documents.order) && !HasId(documents.order.ledger, eventId)
    modifies documents
    ensures Settled(documents.order) && entry == Entry(old(documents.order).ledgerSequence + 1, eventId, body)
    ensures documents.order ==
              Order(next, old(documents.order).ledgerSequence + 1, old(documents.order).ledger + [entry],
                    old(documents.order).packets + {packetId}, old(documents.order).decisions,
                    old(documents.order).dispatches, Some(snapshot))
  {
    var order := documents.order;
    MaxOfNumbered(order.ledger);
    var session := new WorkOrderSession(order.status, order.ledger);
    session.UpdateStatus(next);
    entry := session.AppendLedger(eventId, body);
    session.PutLifecycle(snapshot);
    session.PutResponsePacket(packetId);
    assert session.View() == Session(order.status, order.ledger, Some(next), [entry], [packetId], [], [], Some(snapshot));
    OneEntryCommits(order, session.View(), entry);
    var committed := session.Commit(documents);
  }

  /** A decision transaction: the id goes to the decisions, and nowhere else. */
  method RecordDecision(
    documents: WorkOrderDocuments, next: WorkStatus, snapshot: string, eventId: string, body: string, decisionId: string)
    returns (entry: Entry)
    requires Settled(documents.order) && !HasId(documents.order.ledger, eventId)
    modifies documents
    ensures Settled(documents.order) && entry == Entry(old(documents.order).ledgerSequence + 1, eventId, body)
    ensures documents.order ==
              Order(next, old(documents.order).ledgerSequence + 1, old(documents.order).ledger + [entry],
                    old(documents.order).packets, old(documents.order).decisions + {decisionId},
                    old(documents.order).dispatches, Some(snapshot))
  {
    var order := documents.order;
    MaxOfNumbered(order.ledger);
    var session := new WorkOrderSession(order.status, order.ledger);
    session.UpdateStatus(next);
    entry := session.AppendLedger(eventId, body);
    session.PutLifecycle(snapshot);
    session.PutDecision(decisionId);
    assert session.View() == Session(order.status, order.ledger, Some(next), [entry], [], [decisionId], [], Some(snapshot));
    OneEntryCommits(order, session.View(), entry);
    var committed := session.Commit(documents);
  }

  /** An intent transaction: the id goes to the dispatches, and nowhere else. */
  method CommitIntent(
    documents: WorkOrderDocuments, next: WorkStatus, snapshot: string, eventId: string, body: string, dispatchId: string)
    returns (entry: Entry)
    requires Settled(documents.order) && !HasId(documents.order.ledger, eventId)
    modifies documents
    ensures Settled(documents.order) && entry == Entry(old(documents.order).ledgerSequence + 1, eventId, body)
    ensures documents.order ==
              Order(next, old(documents.order).ledgerSequence + 1, old(documents.order).ledger + [entry],
                    old(documents.order).packets, old(documents.order).decisions,
                    old(documents.order).dispatches + {dispatchId}, Some(snapshot))
  {
    var order := documents.order;
    MaxOfNumbered(order.ledger);
    var session := new WorkOrderSession(order.status, order.ledger);
    session.UpdateStatus(next);
    entry := session.AppendLedger(eventId, body);
    session.PutLifecycle(snapshot);
    session.PutExecutionDispatch(dispatchId);
    assert session.View() == Session(order.status, order.ledger, Some(next), [entry], [], [], [dispatchId], Some(snapshot));
    OneEntryCommits(order, session.View(), entry);
    var committed := session.Commit(documents);
  }

  function AsSet(ids: seq<string>): set<string>
    requires |ids| <= 1
  {
    if ids == [] then {} else {ids[0]}
  }

  /** A session on the current ledger with one entry and at most one document of each kind. */
  lemma OneEntryCommits(order: Order, s: Session, entry: Entry)
    requires Settled(order) && !HasId(order.ledger, entry.eventId) && entry.sequence == order.ledgerSequence + 1
    requires s.base == order.ledger && s.pendingEntries == [entry] && s.pendingStatus.Some? && s.pendingLifecycle.Some?
    requires |s.pendingPackets| <= 1 && |s.pendingDecisions| <= 1 && |s.pendingDispatches| <= 1
    ensures
      var after := Order(s.pendingStatus.value, order.ledgerSequence + 1, order.ledger + [entry],
                         order.packets + AsSet(s.pendingPackets), order.decisions + AsSet(s.pendingDecisions),
                         order.dispatches + AsSet(s.pendingDispatches), s.pendingLifecycle);
      F.Commit(order, s) == Some(after) && Settled(after)
  {
    MaxOfNumbered(order.ledger);
    PutNext(order.ledger, entry);
    OneEntry(order.ledger, entry);
    ElementsOfOne(s.pendingPackets);
    ElementsOfOne(s.pendingDecisions);
    ElementsOfOne(s.pendingDispatches);
  }

  lemma ElementsOfOne(ids: seq<string>)
    requires |ids| <= 1
    ensures Elements(ids) == AsSet(ids)
  {
  }

  lemma OneEntry(ledger: seq<Entry>, entry: Entry)
    ensures PutAll(ledger, [entry]) == Put(ledger, entry)
  {
    assert [entry][..0] == [];
  }
}
