/**
 When the status a session saw is still the stored one at its commit. The commit compares the ledger
 sequence only, and the order document is read before the ledger, without the lock of other processes.
 */
module FirestoreStatus {
  import opened Wrappers
  import opened Lifecycle
  import opened Firestore
  import opened FirestoreSafety

  // ---------------------------------------------------------------- what a session read first

  /** The order document the current session of `p` read. */
  function OrderRead(start: System, moves: seq<Move>, p: nat): Option<Order> {
    if moves == [] then None
    else
      var before := moves[..|moves| - 1];
      if moves[|moves| - 1] == ReadOrder(p) then Some(Play(start, before).order) else OrderRead(start, before, p)
  }

  /** The session of `p` is about to commit and its commit will write. */
  predicate AboutToWrite(s: System, p: nat) {
    At(s, p).Open? && !NothingPending(At(s, p).session) && s.order.ledgerSequence == MaxSequence(At(s, p).session.base)
  }

  /** The guard: the two reads agree on the sequence. */
  predicate ReadsAgree(start: System, moves: seq<Move>, p: nat)
    requires At(Play(start, moves), p).Open?
  {
    && OrderRead(start, moves, p).Some?
    && OrderRead(start, moves, p).value.ledgerSequence == MaxSequence(At(Play(start, moves), p).session.base)
  }

  predicate StatusFresh(s: System, p: nat)
    requires At(s, p).Open?
  {
    At(s, p).session.seenStatus == s.order.status
  }

  // ---------------------------------------------------------------- status writes that carry an entry

  /** A status is written only by commits that write a ledger entry too. */
  predicate Carries(s: System, move: Move) {
    match move
    case CommitSession(p) =>
      (At(s, p).Open? || At(s, p).Closed?) && At(s, p).session.pendingStatus.Some? ==> At(s, p).session.pendingEntries != []
    case DirectStatus(_) => false
    case _ => true
  }

  predicate Carrying(start: System, moves: seq<Move>) {
    forall i :: 0 <= i < |moves| ==> Carries(Play(start, moves[..i]), moves[i])
  }

  lemma CarryingPrefix(start: System, moves: seq<Move>)
    requires Carrying(start, moves) && moves != []
    ensures Carrying(start, moves[..|moves| - 1])
    ensures Carries(Play(start, moves[..|moves| - 1]), moves[|moves| - 1])
  {
    var before := moves[..|moves| - 1];
    forall i | 0 <= i < |before| ensures Carries(Play(start, before[..i]), before[i]) {
      assert before[..i] == moves[..i] && before[i] == moves[i];
    }
  }

  lemma CarryingAppend(start: System, moves: seq<Move>, move: Move)
    requires Carrying(start, moves) && Carries(Play(start, moves), move)
    ensures Carrying(start, moves + [move])
  {
    var all := moves + [move];
    forall i | 0 <= i < |all| ensures Carries(Play(start, all[..i]), all[i]) {
      assert all[..i] == moves[..i];
      assert i == |moves| ==> moves[..i] == moves;
    }
  }

  /** A ledger that kept its length kept its status. */
  predicate StatusMovesWithLedger(o: Order, o': Order) {
    o.ledger <= o'.ledger && (|o'.ledger| == |o.ledger| ==> o'.status == o.status)
  }

  lemma CommitCarries(s: System, p: nat, session: Session, before: bool)
    requires Good(s) && p in s.processes && Committing(s, p, session, before)
    requires session.pendingStatus.Some? ==> session.pendingEntries != []
    ensures StatusMovesWithLedger(s.order, AfterCommit(s, p, session, before).order)
  {
    CommitIsGood(s, p, session, before);
    assert ProcessOk(s.order, s.issued, s.processes[p]);
    if session.pendingStatus.Some? && s.order.ledgerSequence == MaxSequence(session.base) {
      CommitExtends(s.order, s.issued, session);
      BaseIsNumbered(s.order, session);
    }
  }

  lemma CarryingMove(s: System, move: Move)
    requires Good(s) && Carries(s, move)
    ensures StatusMovesWithLedger(s.order, Advance(s, move).order)
  {
    AdvanceIsGood(s, move);
    if move.CommitSession? {
      var p := move.p;
      if At(s, p).Open? {
        CommitCarries(s, p, At(s, p).session, false);
      } else if At(s, p).Closed? {
        CommitCarries(s, p, At(s, p).session, At(s, p).succeeded);
      }
    }
  }

  // ---------------------------------------------------------------- what a session holds

  /** The first read, the base and the stored order, in the order in which they were read. */
  ghost predicate ReadInOrder(first: Option<Order>, process: Process, now: Order) {
    match process
    case Opening(status) =>
      && first.Some? && status == first.value.status && first.value.ledgerSequence == |first.value.ledger|
      && StatusMovesWithLedger(first.value, now)
    case Open(session) =>
      && first.Some? && session.seenStatus == first.value.status && first.value.ledgerSequence == |first.value.ledger|
      && StatusMovesWithLedger(first.value, now)
      && first.value.ledger <= session.base <= now.ledger
    case _ => true
  }

  lemma MoveKeepsReading(s: System, move: Move, p: nat, first: Option<Order>)
    requires Good(s) && Carries(s, move) && ReadInOrder(first, At(s, p), s.order) && move != ReadOrder(p)
    ensures ReadInOrder(first, At(Advance(s, move), p), Advance(s, move).order)
  {
    CarryingMove(s, move);
  }

  lemma {:induction false} ReadingIsOrdered(start: System, moves: seq<Move>, p: nat)
    requires Created(start) && Carrying(start, moves)
    ensures ReadInOrder(OrderRead(start, moves, p), At(Play(start, moves), p), Play(start, moves).order)
  {
    if moves != [] {
      var before, move := moves[..|moves| - 1], moves[|moves| - 1];
      CarryingPrefix(start, moves);
      GoodAlways(start, before);
      if move != ReadOrder(p) {
        ReadingIsOrdered(start, before, p);
        MoveKeepsReading(Play(start, before), move, p, OrderRead(start, before, p));
      }
    }
  }

  /**
   Where status writes carry entries, a session that is about to write holds the stored order document
   exactly when its two reads agree, and then the status it saw is the stored one.
   */
  lemma DocumentFreshIffReadsAgree(start: System, moves: seq<Move>, p: nat)
    requires Created(start) && Carrying(start, moves) && AboutToWrite(Play(start, moves), p)
    ensures
      var s, first := Play(start, moves), OrderRead(start, moves, p);
      && first.Some? && first.value.status == At(s, p).session.seenStatus
      && (ReadsAgree(start, moves, p) <==>
            first.value.status == s.order.status && first.value.ledgerSequence == s.order.ledgerSequence)
      && (ReadsAgree(start, moves, p) ==> StatusFresh(s, p))
  {
    var s := Play(start, moves);
    GoodAlways(start, moves);
    ReadingIsOrdered(start, moves, p);
    BaseIsNumbered(s.order, At(s, p).session);
  }

  // ---------------------------------------------------------------- runs of another process

  /** Ids the runs below draw; distinct because their lengths are. */
  function Id(i: nat): (id: string)
    ensures |id| == i
  {
    seq(i, _ => 'e')
  }

  ghost predicate IdsFree(s: System, from: nat) {
    forall i :: from <= i ==> Id(i) !in s.issued
  }

  lemma OrderReadOfAppend(start: System, moves: seq<Move>, move: Move, p: nat)
    ensures OrderRead(start, moves + [move], p) ==
              if move == ReadOrder(p) then Some(Play(start, moves).order) else OrderRead(start, moves, p)
  {
    assert (moves + [move])[..|moves|] == moves;
  }

  /** One more move that process 0 does not make. */
  lemma OneMove(start: System, moves: seq<Move>, move: Move) returns (longer: seq<Move>)
    requires Carrying(start, moves) && Carries(Play(start, moves), move) && move != ReadOrder(0)
    ensures longer == moves + [move] && Play(start, longer) == Advance(Play(start, moves), move)
    ensures Carrying(start, longer) && OrderRead(start, longer, 0) == OrderRead(start, moves, 0)
  {
    longer := moves + [move];
    PlayOfAppend(start, moves, move);
    CarryingAppend(start, moves, move);
    OrderReadOfAppend(start, moves, move, 0);
  }

  /** Process p reads the order and the ledger with nothing in between. */
  lemma OpenedAtOnce(s: System, p: nat)
    ensures
      var s' := Advance(Advance(s, ReadOrder(p)), ReadLedger(p));
      && s'.order == s.order && s'.issued == s.issued
      && At(s', p) == Open(Session(s.order.status, s.order.ledger, None, [], [], [], [], None))
      && forall q :: q != p ==> At(s', q) == At(s, q)
  {
  }

  lemma StagedAndAppended(s: System, p: nat, status: Option<WorkStatus>, id: string)
    requires At(s, p) == Open(Session(s.order.status, s.order.ledger, None, [], [], [], [], None)) && id !in s.issued
    requires Numbered(s.order.ledger)
    ensures
      var s' := Advance(Advance(s, Stage(p, status, [], [], [], None)), Append(p, id, ""));
      && s'.order == s.order && s'.issued == s.issued + {id}
      && At(s', p) == Open(Session(s.order.status, s.order.ledger, status,
                                   [Entry(|s.order.ledger| + 1, id, "")], [], [], [], None))
      && forall q :: q != p ==> At(s', q) == At(s, q)
  {
    MaxOfNumbered(s.order.ledger);
  }

  /** A session that is staged, has one entry and a current base commits it. */
  lemma StagedSessionCommits(s: System, p: nat, status: Option<WorkStatus>, id: string)
    requires Good(s)
    requires At(s, p) == Open(Session(s.order.status, s.order.ledger, status,
                                      [Entry(|s.order.ledger| + 1, id, "")], [], [], [], None))
    ensures
      var s' := Advance(s, CommitSession(p));
      && |s'.order.ledger| == |s.order.ledger| + 1 && s'.order.status == status.GetOr(s.order.status)
      && s'.issued == s.issued && forall q :: q != p ==> At(s', q) == At(s, q)
  {
    CurrentBaseCommits(s, p);
  }

  /** Process 1 opens a session, stages a status and appends an entry. */
  lemma StagedBy1(start: System, moves: seq<Move>, id: string, status: Option<WorkStatus>) returns (longer: seq<Move>)
    requires Created(start) && Carrying(start, moves) && id !in Play(start, moves).issued
    ensures Carrying(start, longer) && OrderRead(start, longer, 0) == OrderRead(start, moves, 0)
    ensures
      var s, s' := Play(start, moves), Play(start, longer);
      && s'.order == s.order && s'.issued == s.issued + {id} && At(s', 0) == At(s, 0)
      && At(s', 1) == Open(Session(s.order.status, s.order.ledger, status,
                                   [Entry(|s.order.ledger| + 1, id, "")], [], [], [], None))
  {
    GoodAlways(start, moves);
    OpenedAtOnce(Play(start, moves), 1);
    longer := OneMove(start, moves, ReadOrder(1));
    longer := OneMove(start, longer, ReadLedger(1));
    StagedAndAppended(Play(start, longer), 1, status, id);
    longer := OneMove(start, longer, Stage(1, status, [], [], [], None));
    longer := OneMove(start, longer, Append(1, id, ""));
  }

  /** A whole session of process 1 that appends one entry and perhaps writes the status. */
  lemma SessionOf1(start: System, moves: seq<Move>, id: string, status: Option<WorkStatus>) returns (longer: seq<Move>)
    requires Created(start) && Carrying(start, moves) && id !in Play(start, moves).issued
    ensures Carrying(start, longer) && OrderRead(start, longer, 0) == OrderRead(start, moves, 0)
    ensures
      var s, s' := Play(start, moves), Play(start, longer);
      && |s'.order.ledger| == |s.order.ledger| + 1 && s'.order.status == status.GetOr(s.order.status)
      && s'.issued == s.issued + {id} && At(s', 0) == At(s, 0)
  {
    longer := StagedBy1(start, moves, id, status);
    GoodAlways(start, longer);
    StagedSessionCommits(Play(start, longer), 1, status, id);
    longer := OneMove(start, longer, CommitSession(1));
  }

  /** Sessions of process 1 that append until the ledger has n entries. */
  lemma SessionsUpTo(start: System, moves: seq<Move>, n: nat, from: nat) returns (longer: seq<Move>, next: nat)
    requires Created(start) && Carrying(start, moves) && |Play(start, moves).order.ledger| <= n
    requires IdsFree(Play(start, moves), from)
    ensures Carrying(start, longer) && OrderRead(start, longer, 0) == OrderRead(start, moves, 0)
    ensures
      var s, s' := Play(start, moves), Play(start, longer);
      && |s'.order.ledger| == n && s'.order.status == s.order.status && At(s', 0) == At(s, 0)
      && IdsFree(s', next)
    decreases n - |Play(start, moves).order.ledger|
  {
    longer, next := moves, from;
    if |Play(start, moves).order.ledger| < n {
      longer := SessionOf1(start, moves, Id(from), None);
      longer, next := SessionsUpTo(start, longer, n, from + 1);
    }
  }

  // ---------------------------------------------------------------- the exact guard

  function OtherStatus(status: WorkStatus): (other: WorkStatus)
    ensures other != status
  {
    if status.Cancelled? then Routed else Cancelled
  }

  lemma {:induction false} LongIdsAreFree(ids: set<string>) returns (from: nat)
    ensures forall id <- ids :: |id| < from
  {
    from := 0;
    if ids != {} {
      var id :| id in ids;
      from := LongIdsAreFree(ids - {id});
      from := if |id| < from then from else |id| + 1;
    }
  }

  /**
   Process 0 reads the order at length k, process 1 writes another status with an entry, process 0 reads
   the ledger at length n.
   */
  lemma StatusMayBeStale(start: System, k: nat, n: nat) returns (moves: seq<Move>)
    requires Created(start) && 1 <= k < n
    ensures Carrying(start, moves) && AboutToWrite(Play(start, moves), 0)
    ensures ReadAt(start, moves, 0, k, n) && !StatusFresh(Play(start, moves), 0)
  {
    var next := LongIdsAreFree(start.issued);
    moves, next := SessionsUpTo(start, [], k, next);
    moves := ReadFirst(start, moves);
    moves := SessionOf1(start, moves, Id(next), Some(OtherStatus(start.order.status)));
    moves, next := SessionsUpTo(start, moves, n, next + 1);
    var s := Play(start, moves);
    GoodAlways(start, moves);
    MaxOfNumbered(s.order.ledger);
    moves := OneMove(start, moves, ReadLedger(0));
    moves := OneMove(start, moves, Append(0, Id(next), ""));
  }

  lemma ReadFirst(start: System, moves: seq<Move>) returns (longer: seq<Move>)
    requires Created(start) && Carrying(start, moves)
    ensures longer == moves + [ReadOrder(0)] && Carrying(start, longer)
    ensures Play(start, longer) == With(Play(start, moves), 0, Opening(Play(start, moves).order.status))
    ensures OrderRead(start, longer, 0) == Some(Play(start, moves).order)
    ensures Play(start, moves).order.ledgerSequence == |Play(start, moves).order.ledger|
  {
    longer := moves + [ReadOrder(0)];
    GoodAlways(start, moves);
    PlayOfAppend(start, moves, ReadOrder(0));
    CarryingAppend(start, moves, ReadOrder(0));
    OrderReadOfAppend(start, moves, ReadOrder(0), 0);
  }

  /** The session of p read sequence k in the order document and a ledger that ends with n. */
  predicate ReadAt(start: System, moves: seq<Move>, p: nat, k: int, n: int) {
    && At(Play(start, moves), p).Open? && OrderRead(start, moves, p).Some?
    && OrderRead(start, moves, p).value.ledgerSequence == k
    && MaxSequence(At(Play(start, moves), p).session.base) == n
  }

  /** In every run whose status writes carry entries, a session with these reads writes on a fresh status. */
  ghost predicate AlwaysFresh(start: System, k: int, n: int) {
    forall moves, p ::
      Carrying(start, moves) && AboutToWrite(Play(start, moves), p) && ReadAt(start, moves, p, k, n) ==>
      StatusFresh(Play(start, moves), p)
  }

  /**
   Main result. Where every status write carries a ledger entry, what a session read promises it a
   fresh status exactly when the sequence in the order document is the last one of the ledger.
   */
  lemma StatusFreshIffReadsAgree(start: System, k: nat, n: nat)
    requires Created(start) && 1 <= k <= n
    ensures AlwaysFresh(start, k, n) <==> k == n
  {
    if k == n {
      forall moves, p |
        Carrying(start, moves) && AboutToWrite(Play(start, moves), p) && ReadAt(start, moves, p, k, n)
        ensures StatusFresh(Play(start, moves), p)
      {
        DocumentFreshIffReadsAgree(start, moves, p);
      }
    } else {
      var moves := StatusMayBeStale(start, k, n);
      assert !StatusFresh(Play(start, moves), 0);
    }
  }

  // ---------------------------------------------------------------- a status without an entry

  /** Process 1 opens a session and commits nothing but a status. */
  lemma StatusOnlySession(s: System, status: WorkStatus)
    requires Good(s)
    ensures
      var reopened := Advance(Advance(s, ReadOrder(1)), ReadLedger(1));
      var s' := Advance(Advance(reopened, Stage(1, Some(status), [], [], [], None)), CommitSession(1));
      && s'.order == s.order.(status := status) && s'.issued == s.issued && At(s', 0) == At(s, 0)
  {
    OpenedAtOnce(s, 1);
    MaxOfNumbered(s.order.ledger);
  }

  /** One more move of a session, whatever the run was. */
  lemma NextMove(start: System, moves: seq<Move>, all: seq<Move>, move: Move) returns (longer: seq<Move>)
    requires ContinuedBySessions(moves, all) && !move.DirectAppend? && !move.DirectStatus?
    ensures ContinuedBySessions(moves, longer) && Play(start, longer) == Advance(Play(start, all), move)
    ensures OrderRead(start, longer, 0) ==
              if move == ReadOrder(0) then Some(Play(start, all).order) else OrderRead(start, all, 0)
  {
    longer := all + [move];
    PlayOfAppend(start, all, move);
    OrderReadOfAppend(start, all, move, 0);
  }

  /** A continuation made of session moves only. */
  predicate ContinuedBySessions(moves: seq<Move>, all: seq<Move>) {
    moves <= all && forall i :: |moves| <= i < |all| ==> !all[i].DirectAppend? && !all[i].DirectStatus?
  }

  /**
   Main result. The premise is needed: after every run there is a continuation, by sessions alone, in
   which a session whose reads agree writes its entry on a status that another process has replaced.
   */
  lemma StatusOnlyCommitGoesUnseen(start: System, moves: seq<Move>, status: WorkStatus, id: string)
    returns (all: seq<Move>)
    requires Created(start) && status != Play(start, moves).order.status && id !in Play(start, moves).issued
    ensures ContinuedBySessions(moves, all)
    ensures
      var s := Play(start, all);
      && AboutToWrite(s, 0) && ReadsAgree(start, all, 0) && !StatusFresh(s, 0)
      && (var s' := Advance(s, CommitSession(0));
          && At(s', 0) == Closed(At(s, 0).session, true) && s'.order.status == status
          && s'.order.ledger == s.order.ledger + At(s, 0).session.pendingEntries
          && |At(s, 0).session.pendingEntries| == 1)
  {
    OpenedAtOnce(Play(start, moves), 0);
    all := NextMove(start, moves, moves, ReadOrder(0));
    all := NextMove(start, moves, all, ReadLedger(0));
    GoodAlways(start, all);
    MaxOfNumbered(Play(start, all).order.ledger);
    StatusOnlySession(Play(start, all), status);
    all := NextMove(start, moves, all, ReadOrder(1));
    all := NextMove(start, moves, all, ReadLedger(1));
    all := NextMove(start, moves, all, Stage(1, Some(status), [], [], [], None));
    all := NextMove(start, moves, all, CommitSession(1));
    all := NextMove(start, moves, all, Append(0, id, ""));
    GoodAlways(start, all);
    CurrentBaseCommits(Play(start, all), 0);
  }

  // ---------------------------------------------------------------- one process

  /** Nobody but p is between reading the order and committing. */
  predicate Alone(s: System, p: nat) {
    forall q <- s.processes.Keys :: q != p ==> !s.processes[q].Opening? && !s.processes[q].Open?
  }

  /** What the per-order lock of one process allows: no move while another session holds it. */
  predicate LockAllows(s: System, move: Move) {
    match move
    case DirectAppend(_, _) => forall q <- s.processes.Keys :: !s.processes[q].Opening? && !s.processes[q].Open?
    case DirectStatus(_) => forall q <- s.processes.Keys :: !s.processes[q].Opening? && !s.processes[q].Open?
    case _ => Alone(s, move.p)
  }

  predicate Locked(start: System, moves: seq<Move>) {
    forall i :: 0 <= i < |moves| ==> LockAllows(Play(start, moves[..i]), moves[i])
  }

  /** Whoever holds the lock holds the stored status and ledger. */
  ghost predicate HoldersAreFresh(s: System) {
    forall q <- s.processes.Keys ::
      match s.processes[q]
      case Opening(status) => status == s.order.status
      case Open(session) => session.seenStatus == s.order.status && session.base == s.order.ledger
      case _ => true
  }

  lemma LockedMoveKeepsFresh(s: System, move: Move)
    requires HoldersAreFresh(s) && LockAllows(s, move)
    ensures HoldersAreFresh(Advance(s, move))
  {
  }

  lemma {:induction false} HoldersAlwaysFresh(start: System, moves: seq<Move>)
    requires Created(start) && Locked(start, moves)
    ensures HoldersAreFresh(Play(start, moves))
  {
    if moves != [] {
      var before := moves[..|moves| - 1];
      forall i | 0 <= i < |before| ensures LockAllows(Play(start, before[..i]), before[i]) {
        assert before[..i] == moves[..i];
      }
      HoldersAlwaysFresh(start, before);
      LockedMoveKeepsFresh(Play(start, before), moves[|moves| - 1]);
    }
  }

  /**
   Main result. Within one process, whose per-order lock spans both reads and the commit, every session
   holds the stored status and ledger until it commits, and its commit goes through.
   */
  lemma LockedSessionIsFresh(start: System, moves: seq<Move>, p: nat)
    requires Created(start) && Locked(start, moves) && At(Play(start, moves), p).Open?
    ensures
      var s := Play(start, moves);
      && StatusFresh(s, p) && At(s, p).session.base == s.order.ledger
      && Commit(s.order, At(s, p).session).Some?
      && Commit(s.order, At(s, p).session).value.ledger == s.order.ledger + At(s, p).session.pendingEntries
  {
    GoodAlways(start, moves);
    HoldersAlwaysFresh(start, moves);
    FreshCommitGoesThrough(Play(start, moves), p);
  }

  lemma FreshCommitGoesThrough(s: System, p: nat)
    requires Good(s) && At(s, p).Open? && At(s, p).session.base == s.order.ledger
    ensures
      var session := At(s, p).session;
      && Commit(s.order, session).Some?
      && Commit(s.order, session).value.ledger == s.order.ledger + session.pendingEntries
  {
    var session := At(s, p).session;
    assert ProcessOk(s.order, s.issued, s.processes[p]);
    MaxOfNumbered(s.order.ledger);
    if NothingPending(session) {
      assert s.order.ledger + session.pendingEntries == s.order.ledger;
    } else {
      PutAllNext(s.order.ledger, session.pendingEntries);
    }
  }
}
