/** The row store of one work order and its session methods (src/awr/storage/sqlite.py). */
module Store {
  import opened Wrappers
  import opened Packets
  import opened Lifecycle
  import opened Broker

  class WorkOrderSession {
    const workOrderId: string
    const sender: string
    const recipient: string
    const contentSha256: string
    var status: WorkStatus
    var snapshot: Option<Snapshot>
    var ledger: seq<LedgerEntry>
    var responses: seq<StoredResponse>
    var decisions: seq<DecisionRow>
    var dispatches: seq<Dispatch>

    /** All rows as one value. */
    function View(): Record
      reads this
    {
      Record(workOrderId, sender, recipient, contentSha256, status, snapshot, ledger, responses, decisions, dispatches)
    }

    constructor (r: Record)
      ensures View() == r
    {
      workOrderId, sender, recipient, contentSha256 := r.workOrderId, r.sender, r.recipient, r.contentSha256;
      status, snapshot, ledger := r.status, r.snapshot, r.ledger;
      responses, decisions, dispatches := r.responses, r.decisions, r.dispatches;
    }

    method UpdateStatus(next: WorkStatus)
      modifies this`status
      ensures View() == old(View()).(status := next)
    {
      status := next;
    }

    method AppendLedger(actor: string, body: EntryBody) returns (entry: LedgerEntry)
      modifies this`ledger
      ensures View() == Appended(old(View()), actor, body)
      ensures ledger == old(ledger) + [entry] && entry == LedgerEntry(NextSequence(old(ledger)), actor, body)
    {
      entry := LedgerEntry(NextSequence(ledger), actor, body);
      ledger := ledger + [entry];
    }

    method PutLifecycle(s: Snapshot)
      modifies this`snapshot
      ensures View() == old(View()).(snapshot := Some(Persisted(s)))
    {
      snapshot := Some(Persisted(s));
    }

    /**
     INSERT INTO response_packets: the packet id is the primary key, (actor, type, idempotency key) is
     unique. `clash` stands for a row of another work order that holds either.
     */
    method PutResponse(row: StoredResponse, clash: bool) returns (inserted: bool)
      modifies this`responses
      ensures inserted <==>
                && !clash && (forall r <- old(responses) :: r.packetId != row.packetId)
                && FindResponse(old(responses), row.actor, row.packet.responseType, row.packet.idempotencyKey).None?
      ensures View() == if inserted then old(View()).(responses := old(responses) + [row]) else old(View())
    {
      if clash || (exists r <- responses :: r.packetId == row.packetId)
         || FindResponse(responses, row.actor, row.packet.responseType, row.packet.idempotencyKey).Some? {
        return false;
      }
      responses := responses + [row];
      return true;
    }

    /** INSERT INTO decisions: the decision id is the primary key, (actor, type, idempotency key) is unique. */
    method PutDecision(row: DecisionRow, clash: bool) returns (inserted: bool)
      modifies this`decisions
      ensures inserted <==>
                && !clash && (forall r <- old(decisions) :: r.decision.decisionId != row.decision.decisionId)
                && FindDecision(old(decisions), row.decision.actor, row.decision.decisionType, row.decision.idempotencyKey).None?
      ensures View() == if inserted then old(View()).(decisions := old(decisions) + [row]) else old(View())
    {
      if clash || (exists r <- decisions :: r.decision.decisionId == row.decision.decisionId)
         || FindDecision(decisions, row.decision.actor, row.decision.decisionType, row.decision.idempotencyKey).Some? {
        return false;
      }
      decisions := decisions + [row];
      return true;
    }

    /** INSERT INTO execution_dispatches: the id, the provider key and the attempt of a work order are unique. */
    method PutDispatch(row: Dispatch) returns (inserted: bool)
      modifies this`dispatches
      ensures inserted <==>
                forall d <- old(dispatches) ::
                  d.dispatchId != row.dispatchId && d.providerKey != row.providerKey && d.attempt != row.attempt
      ensures View() == if inserted then old(View()).(dispatches := old(dispatches) + [row]) else old(View())
    {
      if exists d <- dispatches ::
           d.dispatchId == row.dispatchId || d.providerKey == row.providerKey || d.attempt == row.attempt {
        return false;
      }
      dispatches := dispatches + [row];
      return true;
    }

    method UpdateDispatch(row: Dispatch)
      modifies this`dispatches
      ensures View() == old(View()).(dispatches := WithDispatch(old(dispatches), row))
    {
      dispatches := WithDispatch(dispatches, row);
    }

    /** ROLLBACK to the rows the transaction began with. */
    method Rollback(before: Record)
      requires workOrderId == before.workOrderId && sender == before.sender
      requires recipient == before.recipient && contentSha256 == before.contentSha256
      modifies this
      ensures View() == before
    {
      status, snapshot, ledger := before.status, before.snapshot, before.ledger;
      responses, decisions, dispatches := before.responses, before.decisions, before.dispatches;
    }
  }
}
