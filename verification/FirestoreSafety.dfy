/** The ledger of a work order only grows by extension, and a committed session saw what it extended. */
module FirestoreSafety {
  import opened Wrappers
  import opened Lifecycle
  import opened Firestore

  // ---------------------------------------------------------------- numbering

  /** Sequence numbers are 1, 2, 3, ... in listing order. */
  ghost predicate Numbered(ledger: seq<Entry>) {
    forall i :: 0 <= i < |ledger| ==> ledger[i].sequence == i + 1
  }

  lemma {:induction false} MaxOfNumbered(ledger: seq<Entry>)
    requires Numbered(ledger)
    ensures MaxSequence(ledger) == |ledger|
  {
    if ledger != [] {
      MaxOfNumbered(ledger[..|ledger| - 1]);
    }
  }

  /** A new document numbered next goes to the end of the listing. */
  lemma PutNext(ledger: seq<Entry>, e: Entry)
    requires Numbered(ledger) && e.sequence == |ledger| + 1 && !HasId(ledger, e.eventId)
    ensures Put(ledger, e) == ledger + [e] && Numbered(ledger + [e])
  {
    assert PlaceOf(ledger, e.sequence) == |ledger|;
  }

  ghost predicate Continues(ledger: seq<Entry>, entries: seq<Entry>) {
    && (forall k :: 0 <= k < |entries| ==> entries[k].sequence == |ledger| + k + 1 && !HasId(ledger, entries[k].eventId))
    && (forall j, k :: 0 <= j < k < |entries| ==> entries[j].eventId != entries[k].eventId)
  }

  lemma {:induction false} PutAllNext(ledger: seq<Entry>, entries: seq<Entry>)
    requires Numbered(ledger) && Continues(ledger, entries)
    ensures PutAll(ledger, entries) == ledger + entries && Numbered(ledger + entries)
  {
    if entries == [] {
      assert ledger + entries == ledger;
    } else {
      var before, last := entries[..|entries| - 1], entries[|entries| - 1];
      PutAllNext(ledger, before);
      assert !HasId(ledger + before, last.eventId);
      PutNext(ledger + before, last);
      assert ledger + before + [last] == ledger + entries;
    }
  }

  // ---------------------------------------------------------------- the invariant

  /** The session started from a prefix of the ledger and numbered its entries after it. */
  ghost predicate SessionOk(order: Order, issued: set<string>, s: Session) {
    && s.base <= order.ledger
    && (forall k :: 0 <= k < |s.pendingEntries| ==>
          s.pendingEntries[k].sequence == |s.base| + k + 1 && s.pendingEntries[k].eventId in issued)
    && (forall j, k :: 0 <= j < k < |s.pendingEntries| ==> s.pendingEntries[j].eventId != s.pendingEntries[k].eventId)
  }

  ghost predicate Unwritten(order: Order, s: Session) {
    forall e <- s.pendingEntries :: !HasId(order.ledger, e.eventId)
  }

  /** The ledger goes on from what the session saw with exactly the session's entries. */
  ghost predicate Extended(order: Order, s: Session) {
    s.base + s.pendingEntries <= order.ledger
  }

  ghost predicate ProcessOk(order: Order, issued: set<string>, process: Process) {
    match process
    case Absent | Opening(_) => true
    case Open(s) => SessionOk(order, issued, s) && Unwritten(order, s)
    case Closed(s, succeeded) =>
      SessionOk(order, issued, s) && (Unwritten(order, s) || Extended(order, s)) && (succeeded ==> Extended(order, s))
  }

  function PendingOf(process: Process): seq<Entry> {
    match process
    case Open(s) => s.pendingEntries
    case Closed(s, _) => s.pendingEntries
    case _ => []
  }

  /** No two processes hold entries with the same id. */
  ghost predicate OwnIds(s: System) {
    forall p, q :: p in s.processes && q in s.processes && p != q ==>
      forall e, f :: e in PendingOf(s.processes[p]) && f in PendingOf(s.processes[q]) ==> e.eventId != f.eventId
  }

  ghost predicate Good(s: System) {
    && Numbered(s.order.ledger) && s.order.ledgerSequence == |s.order.ledger|
    && (forall e <- s.order.ledger :: e.eventId in s.issued)
    && (forall p <- s.processes.Keys :: ProcessOk(s.order, s.issued, s.processes[p]))
    && OwnIds(s)
  }

  // ---------------------------------------------------------------- growth

  lemma SurvivesExtension(order: Order, order': Order, issued: set<string>, issued': set<string>, process: Process)
    requires ProcessOk(order, issued, process) && issued <= issued'
    requires order.ledger <= order'.ledger
    requires forall e <- PendingOf(process) :: forall i :: |order.ledger| <= i < |order'.ledger| ==> order'.ledger[i].eventId != e.eventId
    ensures ProcessOk(order', issued', process)
  {
    assert order'.ledger == order.ledger + order'.ledger[|order.ledger|..];
    forall e <- PendingOf(process) | !HasId(order.ledger, e.eventId) ensures !HasId(order'.ledger, e.eventId) {
      forall f <- order'.ledger ensures f.eventId != e.eventId {
        var i :| 0 <= i < |order'.ledger| && order'.ledger[i] == f;
        assert i < |order.ledger| ==> f in order.ledger;
      }
    }
  }

  /** An entry of the process's own, or one with a fresh id. */
  predicate OwnOrFresh(s: System, p: nat, e: Entry) {
    e in PendingOf(At(s, p)) || e.eventId !in s.issued
  }

  lemma PendingIsIssued(s: System, q: nat, e: Entry)
    requires Good(s) && q in s.processes && e in PendingOf(s.processes[q])
    ensures e.eventId in s.issued
  {
    assert ProcessOk(s.order, s.issued, s.processes[q]);
  }

  lemma OtherIdsDiffer(s: System, p: nat, q: nat, e: Entry, f: Entry)
    requires Good(s) && q in s.processes && q != p && e in PendingOf(s.processes[q]) && OwnOrFresh(s, p, f)
    ensures f.eventId != e.eventId
  {
    PendingIsIssued(s, q, e);
  }

  lemma OtherSurvives(s: System, s': System, p: nat, q: nat)
    requires Good(s) && q in s.processes && q != p
    requires s.order.ledger <= s'.order.ledger && s.issued <= s'.issued
    requires forall i :: |s.order.ledger| <= i < |s'.order.ledger| ==> OwnOrFresh(s, p, s'.order.ledger[i])
    ensures ProcessOk(s'.order, s'.issued, s.processes[q])
  {
    forall e <- PendingOf(s.processes[q]), i | |s.order.ledger| <= i < |s'.order.ledger|
      ensures s'.order.ledger[i].eventId != e.eventId
    {
      OtherIdsDiffer(s, p, q, e, s'.order.ledger[i]);
    }
    SurvivesExtension(s.order, s'.order, s.issued, s'.issued, s.processes[q]);
  }

  lemma IdsStayApart(s: System, s': System, p: nat)
    requires Good(s) && p in s'.processes && s'.processes == s.processes[p := s'.processes[p]]
    requires forall e <- PendingOf(s'.processes[p]) :: OwnOrFresh(s, p, e)
    ensures OwnIds(s')
  {
    forall q, e, f | q in s.processes && q != p && e in PendingOf(s.processes[q]) && f in PendingOf(s'.processes[p])
      ensures f.eventId != e.eventId
    {
      OtherIdsDiffer(s, p, q, e, f);
    }
  }

  /** A move that extends the ledger by own or fresh entries and leaves its process in order. */
  lemma MoveIsGood(s: System, s': System, p: nat)
    requires Good(s) && p in s'.processes && s'.processes == s.processes[p := s'.processes[p]]
    requires Numbered(s'.order.ledger) && s'.order.ledgerSequence == |s'.order.ledger|
    requires s.order.ledger <= s'.order.ledger && s.issued <= s'.issued
    requires forall i :: |s.order.ledger| <= i < |s'.order.ledger| ==> OwnOrFresh(s, p, s'.order.ledger[i])
    requires forall i :: |s.order.ledger| <= i < |s'.order.ledger| ==> s'.order.ledger[i].eventId in s'.issued
    requires forall e <- PendingOf(s'.processes[p]) :: OwnOrFresh(s, p, e)
    requires ProcessOk(s'.order, s'.issued, s'.processes[p])
    ensures Good(s')
  {
    IdsStayApart(s, s', p);
    forall q <- s'.processes.Keys | q != p ensures ProcessOk(s'.order, s'.issued, s'.processes[q]) {
      OtherSurvives(s, s', p, q);
    }
    forall e <- s'.order.ledger ensures e.eventId in s'.issued {
      var i :| 0 <= i < |s'.order.ledger| && s'.order.ledger[i] == e;
      assert i < |s.order.ledger| ==> e in s.order.ledger;
    }
  }

  // ---------------------------------------------------------------- commits

  /**
   What a successful commit means: either nothing is written, or the ledger is exactly the session's
   base and becomes the base with its entries. Either way its entries follow its base.
   */
  lemma CommitExtends(order: Order, issued: set<string>, s: Session)
    requires Numbered(order.ledger) && order.ledgerSequence == |order.ledger|
    requires SessionOk(order, issued, s) && (Unwritten(order, s) || Extended(order, s))
    requires Commit(order, s).Some?
    ensures
      var order' := Commit(order, s).value;
      && Numbered(order'.ledger) && order'.ledgerSequence == |order'.ledger| && order.ledger <= order'.ledger
      && Extended(order', s)
      && (order'.ledger != order.ledger ==> order.ledger == s.base && order'.ledger == s.base + s.pendingEntries)
  {
    MaxOfNumbered(s.base);
    if NothingPending(s) {
      assert s.base + s.pendingEntries == s.base;
    } else if order.ledgerSequence != |s.base| {
      if s.pendingEntries == [] {
        assert s.base + s.pendingEntries == s.base;
      } else {
        assert HasId(order.ledger, s.pendingEntries[0].eventId);
        assert s.pendingEntries[0] in s.pendingEntries;
      }
    } else {
      assert order.ledger == s.base;
      assert s.pendingEntries != [] ==> |s.base + s.pendingEntries| > |order.ledger|;
      assert Continues(order.ledger, s.pendingEntries);
      PutAllNext(order.ledger, s.pendingEntries);
    }
  }

  lemma NewEntriesAreOwn(order: Order, order': Order, issued: set<string>, session: Session)
    requires SessionOk(order, issued, session)
    requires order'.ledger != order.ledger ==> order.ledger == session.base && order'.ledger == session.base + session.pendingEntries
    ensures forall i :: |order.ledger| <= i < |order'.ledger| ==>
              order'.ledger[i] in session.pendingEntries && order'.ledger[i].eventId in issued
  {
    forall i | |order.ledger| <= i < |order'.ledger|
      ensures order'.ledger[i] in session.pendingEntries && order'.ledger[i].eventId in issued
    {
      assert order'.ledger[i] == session.pendingEntries[i - |session.base|];
    }
  }

  predicate Committing(s: System, p: nat, session: Session, before: bool) {
    At(s, p) == (if before then Closed(session, true) else At(s, p))
    && (At(s, p) == Open(session) || At(s, p) == Closed(session, before))
  }

  lemma CommitIsGood(s: System, p: nat, session: Session, before: bool)
    requires Good(s) && p in s.processes && Committing(s, p, session, before)
    ensures Good(AfterCommit(s, p, session, before)) && s.order.ledger <= AfterCommit(s, p, session, before).order.ledger
  {
    assert ProcessOk(s.order, s.issued, s.processes[p]);
    var s' := AfterCommit(s, p, session, before);
    if Commit(s.order, session).Some? {
      CommitExtends(s.order, s.issued, session);
      NewEntriesAreOwn(s.order, s'.order, s.issued, session);
    }
    MoveIsGood(s, s', p);
  }

  // ---------------------------------------------------------------- the other moves

  lemma AppendIsGood(s: System, p: nat, session: Session, id: string, body: string)
    requires Good(s) && p in s.processes && s.processes[p] == Open(session) && id !in s.issued
    ensures Good(With(s.(issued := s.issued + {id}), p, Open(Appended(session, id, body))))
  {
    assert ProcessOk(s.order, s.issued, s.processes[p]);
    var s' := With(s.(issued := s.issued + {id}), p, Open(Appended(session, id, body)));
    AppendedSessionIsOk(s.order, s.issued, session, id, body);
    MoveIsGood(s, s', p);
  }

  lemma AppendedSessionIsOk(order: Order, issued: set<string>, session: Session, id: string, body: string)
    requires Numbered(order.ledger) && (forall e <- order.ledger :: e.eventId in issued) && id !in issued
    requires ProcessOk(order, issued, Open(session))
    ensures ProcessOk(order, issued + {id}, Open(Appended(session, id, body)))
    ensures forall e <- Appended(session, id, body).pendingEntries :: e in session.pendingEntries || e.eventId == id
  {
    BaseIsNumbered(order, session);
    assert !HasId(order.ledger, id);
  }

  lemma BaseIsNumbered(order: Order, session: Session)
    requires Numbered(order.ledger) && session.base <= order.ledger
    ensures MaxSequence(session.base) == |session.base|
  {
    MaxOfNumbered(session.base);
  }

  lemma DirectAppendIsGood(s: System, id: string, body: string)
    requires Good(s) && id !in s.issued
    ensures
      var s' := s.(issued := s.issued + {id}, order := AppendDirect(s.order, id, body));
      Good(s') && s.order.ledger <= s'.order.ledger
  {
    var s' := s.(issued := s.issued + {id}, order := AppendDirect(s.order, id, body));
    var e := Entry(s.order.ledgerSequence + 1, id, body);
    assert !HasId(s.order.ledger, id);
    PutNext(s.order.ledger, e);
    forall q <- s'.processes.Keys ensures ProcessOk(s'.order, s'.issued, s'.processes[q]) {
      forall x <- PendingOf(s.processes[q]) ensures x.eventId != id { PendingIsIssued(s, q, x); }
      SurvivesExtension(s.order, s'.order, s.issued, s'.issued, s.processes[q]);
    }
  }

  lemma SameLedgerIsGood(s: System, order: Order)
    requires Good(s) && order.ledger == s.order.ledger && order.ledgerSequence == s.order.ledgerSequence
    ensures Good(s.(order := order))
  {
    forall q <- s.processes.Keys ensures ProcessOk(order, s.issued, s.processes[q]) {
      SurvivesExtension(s.order, order, s.issued, s.issued, s.processes[q]);
    }
  }

  lemma OpenIsGood(s: System, move: Move)
    requires Good(s) && (move.ReadOrder? || move.ReadLedger? || move.Stage?)
    ensures Good(Advance(s, move)) && Advance(s, move).order == s.order
  {
    var s' := Advance(s, move);
    if s' != s {
      if move.Stage? { assert ProcessOk(s.order, s.issued, s.processes[move.p]); }
      MoveIsGood(s, s', move.p);
    }
  }

  lemma AdvanceIsGood(s: System, move: Move)
    requires Good(s)
    ensures Good(Advance(s, move)) && s.order.ledger <= Advance(s, move).order.ledger
  {
    match move
    case Append(p, id, body) =>
      if At(s, p).Open? && id !in s.issued { AppendIsGood(s, p, At(s, p).session, id, body); }
    case CommitSession(p) =>
      if At(s, p).Open? {
        CommitIsGood(s, p, At(s, p).session, false);
      } else if At(s, p).Closed? {
        CommitIsGood(s, p, At(s, p).session, At(s, p).succeeded);
      }
    case DirectAppend(id, body) => if id !in s.issued { DirectAppendIsGood(s, id, body); }
    case DirectStatus(status) => SameLedgerIsGood(s, s.order.(status := status));
    case _ => OpenIsGood(s, move);
  }

  lemma {:induction false} GoodAlways(start: System, moves: seq<Move>)
    requires Created(start)
    ensures Good(Play(start, moves))
  {
    if moves != [] {
      GoodAlways(start, moves[..|moves| - 1]);
      AdvanceIsGood(Play(start, moves[..|moves| - 1]), moves[|moves| - 1]);
    }
  }

  // ---------------------------------------------------------------- main results

  /** Main result. The ledger only grows by extension, and its sequence numbers are exactly 1..ledger_sequence. */
  lemma LedgerOnlyExtends(start: System, moves: seq<Move>, more: seq<Move>)
    requires Created(start)
    ensures
      var o, o' := Play(start, moves).order, Play(start, moves + more).order;
      && o.ledger <= o'.ledger
      && o'.ledgerSequence == |o'.ledger| && forall i :: 0 <= i < |o'.ledger| ==> o'.ledger[i].sequence == i + 1
  {
    LedgerGrows(start, moves, more);
    GoodAlways(start, moves + more);
  }

  lemma {:induction false} LedgerGrows(start: System, moves: seq<Move>, more: seq<Move>)
    requires Created(start)
    ensures Play(start, moves).order.ledger <= Play(start, moves + more).order.ledger
    decreases |more|
  {
    if more == [] {
      assert moves + more == moves;
    } else {
      var before := more[..|more| - 1];
      LedgerGrows(start, moves, before);
      GoodAlways(start, moves + before);
      AdvanceIsGood(Play(start, moves + before), more[|more| - 1]);
      PlayOfAppend(start, moves + before, more[|more| - 1]);
      assert moves + before + [more[|more| - 1]] == moves + more;
    }
  }

  /**
   Main result. A session whose commit succeeded, also when only a repeated attempt found it done, had
   seen exactly the ledger that its entries extend.
   */
  lemma CommittedSessionSawItsLedger(start: System, moves: seq<Move>, p: nat)
    requires Created(start) && At(Play(start, moves), p).Closed? && At(Play(start, moves), p).succeeded
    ensures
      var s, o := At(Play(start, moves), p).session, Play(start, moves).order;
      s.base + s.pendingEntries <= o.ledger
  {
    GoodAlways(start, moves);
    assert ProcessOk(Play(start, moves).order, Play(start, moves).issued, Play(start, moves).processes[p]);
  }

  /** And the commit that wrote them found the ledger unchanged since the session read it. */
  lemma WritingCommitFoundItsBase(start: System, moves: seq<Move>, p: nat)
    requires Created(start) && At(Play(start, moves), p).Open?
    requires
      var s := Play(start, moves);
      AfterCommit(s, p, At(s, p).session, false).order.ledger != s.order.ledger
    ensures
      var s := Play(start, moves);
      && s.order.ledger == At(s, p).session.base
      && AfterCommit(s, p, At(s, p).session, false).order.ledger == s.order.ledger + At(s, p).session.pendingEntries
  {
    GoodAlways(start, moves);
    var s := Play(start, moves);
    assert ProcessOk(s.order, s.issued, s.processes[p]);
    CommitExtends(s.order, s.issued, At(s, p).session);
  }

  lemma PlayOfAppend(start: System, moves: seq<Move>, move: Move)
    ensures Play(start, moves + [move]) == Advance(Play(start, moves), move)
  {
    assert (moves + [move])[..|moves|] == moves;
  }

  /** A session whose base is the current ledger commits, whatever became of the status meanwhile. */
  lemma CurrentBaseCommits(s: System, p: nat)
    requires Good(s) && At(s, p).Open? && At(s, p).session.base == s.order.ledger
    requires !NothingPending(At(s, p).session)
    ensures
      var s', session := Advance(s, CommitSession(p)), At(s, p).session;
      && At(s', p) == Closed(session, true) && s'.order.status == session.pendingStatus.GetOr(s.order.status)
      && s'.order.ledger == s.order.ledger + session.pendingEntries
  {
    var session := At(s, p).session;
    assert ProcessOk(s.order, s.issued, s.processes[p]);
    MaxOfNumbered(session.base);
    PutAllNext(s.order.ledger, session.pendingEntries);
  }
}
