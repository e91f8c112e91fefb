/**
 Optimistic sessions over one Firestore work order (src/awr/storage/firestore.py). Processes share
 nothing but the documents; a commit compares the ledger sequence it started from.
 */
module Firestore {
  import opened Wrappers
  import opened Lifecycle

  /** A ledger document; `body` stands for its type, actors and payload. */
  datatype Entry = Entry(sequence: int, eventId: string, body: string)

  /** The work order document, its ledger in sequence order, the ids of its other documents and its lifecycle document. */
  datatype Order = Order(
    status: WorkStatus, ledgerSequence: int, ledger: seq<Entry>,
    packets: set<string>, decisions: set<string>, dispatches: set<string>, lifecycle: Option<string>)

  /** What a session holds when it commits; the status and the base ledger were read separately. */
  datatype Session = Session(
    seenStatus: WorkStatus, base: seq<Entry>,
    pendingStatus: Option<WorkStatus>, pendingEntries: seq<Entry>,
    pendingPackets: seq<string>, pendingDecisions: seq<string>, pendingDispatches: seq<string>, pendingLifecycle: Option<string>)

  // ---------------------------------------------------------------- documents

  function MaxSequence(entries: seq<Entry>): int {
    if entries == [] then 0
    else
      var rest := MaxSequence(entries[..|entries| - 1]);
      if entries[|entries| - 1].sequence > rest then entries[|entries| - 1].sequence else rest
  }

  /** Where a document with this sequence comes in an ordered listing. */
  function PlaceOf(ledger: seq<Entry>, sequence: int): (n: nat)
    ensures n <= |ledger|
  {
    if ledger == [] || ledger[|ledger| - 1].sequence <= sequence then |ledger|
    else PlaceOf(ledger[..|ledger| - 1], sequence)
  }

  predicate HasId(ledger: seq<Entry>, eventId: string) {
    exists e <- ledger :: e.eventId == eventId
  }

  /** transaction.set of one ledger document, seen through the ordered listing. */
  function Put(ledger: seq<Entry>, e: Entry): seq<Entry> {
    if HasId(ledger, e.eventId) then
      seq(|ledger|, i requires 0 <= i < |ledger| => if ledger[i].eventId == e.eventId then e else ledger[i])
    else
      var n := PlaceOf(ledger, e.sequence);
      ledger[..n] + [e] + ledger[n..]
  }

  function PutAll(ledger: seq<Entry>, entries: seq<Entry>): seq<Entry> {
    if entries == [] then ledger else Put(PutAll(ledger, entries[..|entries| - 1]), entries[|entries| - 1])
  }

  function Elements(ids: seq<string>): set<string> {
    set id | id in ids
  }

  // ---------------------------------------------------------------- commit

  predicate NothingPending(s: Session) {
    s.pendingStatus.None? && s.pendingEntries == [] && s.pendingPackets == [] && s.pendingDecisions == []
    && s.pendingDispatches == [] && s.pendingLifecycle.None?
  }

  /** Everything pending is already there: an earlier attempt of this commit went through. */
  predicate AlreadyApplied(o: Order, s: Session) {
    && (forall e <- s.pendingEntries :: HasId(o.ledger, e.eventId))
    && (forall id <- s.pendingPackets :: id in o.packets)
    && (forall id <- s.pendingDecisions :: id in o.decisions)
    && (forall id <- s.pendingDispatches :: id in o.dispatches)
    && (s.pendingStatus.Some? ==> o.status == s.pendingStatus.value)
  }

  /** commit: nothing when it raises. */
  function Commit(o: Order, s: Session): Option<Order> {
    if NothingPending(s) then Some(o)
    else if o.ledgerSequence != MaxSequence(s.base) then
      if AlreadyApplied(o, s) then Some(o) else None
    else
      Some(Order(
             s.pendingStatus.GetOr(o.status),
             o.ledgerSequence + |s.pendingEntries|,
             PutAll(o.ledger, s.pendingEntries),
             o.packets + Elements(s.pendingPackets),
             o.decisions + Elements(s.pendingDecisions),
             o.dispatches + Elements(s.pendingDispatches),
             if s.pendingLifecycle.Some? then s.pendingLifecycle else o.lifecycle))
  }

  /** append_ledger of the session: numbered after the base and what is pending. */
  function Appended(s: Session, eventId: string, body: string): Session {
    s.(pendingEntries :=
         s.pendingEntries + [Entry(MaxSequence(s.base) + |s.pendingEntries| + 1, eventId, body)])
  }

  /** _append_on_transaction of the store. */
  function AppendDirect(o: Order, eventId: string, body: string): Order {
    var sequence := o.ledgerSequence + 1;
    o.(ledgerSequence := sequence, ledger := Put(o.ledger, Entry(sequence, eventId, body)))
  }

  // ---------------------------------------------------------------- processes

  datatype Process =
    | Absent
    | Opening(seenStatus: WorkStatus)
    | Open(session: Session)
    | Closed(session: Session, succeeded: bool)

  datatype System = System(order: Order, processes: map<nat, Process>, issued: set<string>)

  datatype Move =
    | ReadOrder(p: nat)
    | ReadLedger(p: nat)
    | Append(p: nat, eventId: string, body: string)
    | Stage(p: nat, status: Option<WorkStatus>, packets: seq<string>, decisions: seq<string>, dispatches: seq<string>,
            lifecycle: Option<string>)
    | CommitSession(p: nat)
    | DirectAppend(eventId: string, body: string)
    | DirectStatus(next: WorkStatus)

  function At(s: System, p: nat): Process {
    if p in s.processes then s.processes[p] else Absent
  }

  function With(s: System, p: nat, process: Process): System {
    s.(processes := s.processes[p := process])
  }

  function Staged(s: Session, status: Option<WorkStatus>, packets: seq<string>, decisions: seq<string>, dispatches: seq<string>,
                  lifecycle: Option<string>): Session
  {
    s.(pendingStatus := if status.Some? then status else s.pendingStatus,
       pendingPackets := s.pendingPackets + packets, pendingDecisions := s.pendingDecisions + decisions,
       pendingDispatches := s.pendingDispatches + dispatches,
       pendingLifecycle := if lifecycle.Some? then lifecycle else s.pendingLifecycle)
  }

  /** A commit may be attempted again after it was closed: the client does not know whether it went through. */
  function AfterCommit(s: System, p: nat, session: Session, before: bool): System {
    match Commit(s.order, session)
    case None => With(s, p, Closed(session, before))
    case Some(order) => With(s.(order := order), p, Closed(session, true))
  }

  /** Event ids are fresh; a move its process is not ready for changes nothing. */
  function Advance(s: System, move: Move): System {
    match move
    case ReadOrder(p) => With(s, p, Opening(s.order.status))
    case ReadLedger(p) =>
      if At(s, p).Opening? then With(s, p, Open(Session(At(s, p).seenStatus, s.order.ledger, None, [], [], [], [], None))) else s
    case Append(p, id, body) =>
      if At(s, p).Open? && id !in s.issued
      then With(s.(issued := s.issued + {id}), p, Open(Appended(At(s, p).session, id, body))) else s
    case Stage(p, status, packets, decisions, dispatches, lifecycle) =>
      if At(s, p).Open? then With(s, p, Open(Staged(At(s, p).session, status, packets, decisions, dispatches, lifecycle))) else s
    case CommitSession(p) =>
      if At(s, p).Open? then AfterCommit(s, p, At(s, p).session, false)
      else if At(s, p).Closed? then AfterCommit(s, p, At(s, p).session, At(s, p).succeeded)
      else s
    case DirectAppend(id, body) =>
      if id !in s.issued then s.(issued := s.issued + {id}, order := AppendDirect(s.order, id, body)) else s
    case DirectStatus(status) => s.(order := s.order.(status := status))
  }

  function Play(s: System, moves: seq<Move>): System {
    if moves == [] then s else Advance(Play(s, moves[..|moves| - 1]), moves[|moves| - 1])
  }

  /** create_work_order: one accepted entry, sequence 1, no session yet. */
  predicate Created(s: System) {
    && s.order.ledgerSequence == 1 && |s.order.ledger| == 1 && s.order.ledger[0].sequence == 1
    && s.order.ledger[0].eventId in s.issued && s.processes == map[]
  }
}
