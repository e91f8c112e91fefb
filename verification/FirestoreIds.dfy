/** Where the packets, decisions and dispatches of a session end up, over any number of processes. */
module FirestoreIds {
  import opened Wrappers
  import opened Lifecycle
  import opened Firestore
  import opened FirestoreSafety

  // ---------------------------------------------------------------- what a session was given

  /** The calls of the current session of `p`, oldest first. */
  function Calls(start: System, moves: seq<Move>, p: nat): seq<Move> {
    if moves == [] then []
    else
      var before, last := moves[..|moves| - 1], moves[|moves| - 1];
      var calls := Calls(start, before, p);
      if last == ReadOrder(p) || (last == ReadLedger(p) && At(Play(start, before), p).Opening?) then []
      else if At(Play(start, before), p).Open? && (last.Stage? || last.Append?) && last.p == p then calls + [last]
      else calls
  }

  predicate PutsPacket(calls: seq<Move>, id: string) {
    exists c <- calls :: c.Stage? && id in c.packets
  }

  predicate PutsDecision(calls: seq<Move>, id: string) {
    exists c <- calls :: c.Stage? && id in c.decisions
  }

  predicate PutsDispatch(calls: seq<Move>, id: string) {
    exists c <- calls :: c.Stage? && id in c.dispatches
  }

  /** The last status the session was given. */
  function LastStatus(calls: seq<Move>): Option<WorkStatus> {
    if calls == [] then None
    else if calls[|calls| - 1].Stage? && calls[|calls| - 1].status.Some? then calls[|calls| - 1].status
    else LastStatus(calls[..|calls| - 1])
  }

  /** The last lifecycle document the session was given. */
  function LastLifecycle(calls: seq<Move>): Option<string> {
    if calls == [] then None
    else if calls[|calls| - 1].Stage? && calls[|calls| - 1].lifecycle.Some? then calls[|calls| - 1].lifecycle
    else LastLifecycle(calls[..|calls| - 1])
  }

  /** The session holds exactly what it was given. */
  ghost predicate Holds(process: Process, calls: seq<Move>) {
    process.Open? || process.Closed? ==>
      && (forall id :: id in process.session.pendingPackets <==> PutsPacket(calls, id))
      && (forall id :: id in process.session.pendingDecisions <==> PutsDecision(calls, id))
      && (forall id :: id in process.session.pendingDispatches <==> PutsDispatch(calls, id))
      && process.session.pendingStatus == LastStatus(calls) && process.session.pendingLifecycle == LastLifecycle(calls)
  }

  lemma CallAppended(calls: seq<Move>, c: Move)
    ensures LastStatus(calls + [c]) == if c.Stage? && c.status.Some? then c.status else LastStatus(calls)
    ensures LastLifecycle(calls + [c]) == if c.Stage? && c.lifecycle.Some? then c.lifecycle else LastLifecycle(calls)
    ensures forall id :: PutsPacket(calls + [c], id) <==> PutsPacket(calls, id) || (c.Stage? && id in c.packets)
    ensures forall id :: PutsDecision(calls + [c], id) <==> PutsDecision(calls, id) || (c.Stage? && id in c.decisions)
    ensures forall id :: PutsDispatch(calls + [c], id) <==> PutsDispatch(calls, id) || (c.Stage? && id in c.dispatches)
  {
    assert (calls + [c])[..|calls|] == calls;
    assert forall x :: x in calls + [c] <==> x in calls || x == c;
  }

  lemma {:induction false} SessionHoldsCalls(start: System, moves: seq<Move>, p: nat)
    requires Created(start)
    ensures Holds(At(Play(start, moves), p), Calls(start, moves, p))
  {
    if moves != [] {
      var before, last := moves[..|moves| - 1], moves[|moves| - 1];
      SessionHoldsCalls(start, before, p);
      CallAppended(Calls(start, before, p), last);
      CallIsHeld(Play(start, before), last, p, Calls(start, before, p));
    }
  }

  lemma CallIsHeld(s: System, move: Move, p: nat, calls: seq<Move>)
    requires Holds(At(s, p), calls)
    requires LastStatus(calls + [move]) == if move.Stage? && move.status.Some? then move.status else LastStatus(calls)
    requires LastLifecycle(calls + [move]) == if move.Stage? && move.lifecycle.Some? then move.lifecycle else LastLifecycle(calls)
    requires forall id :: PutsPacket(calls + [move], id) <==> PutsPacket(calls, id) || (move.Stage? && id in move.packets)
    requires forall id :: PutsDecision(calls + [move], id) <==> PutsDecision(calls, id) || (move.Stage? && id in move.decisions)
    requires forall id :: PutsDispatch(calls + [move], id) <==> PutsDispatch(calls, id) || (move.Stage? && id in move.dispatches)
    ensures
      Holds(At(Advance(s, move), p),
            if move == ReadOrder(p) || (move == ReadLedger(p) && At(s, p).Opening?) then []
            else if At(s, p).Open? && (move.Stage? || move.Append?) && move.p == p then calls + [move]
            else calls)
  {
  }

  // ---------------------------------------------------------------- what a commit does with it

  /** Ids are never taken away. */
  predicate IdsGrow(o: Order, o': Order) {
    o.packets <= o'.packets && o.decisions <= o'.decisions && o.dispatches <= o'.dispatches
  }

  lemma MoveKeepsIds(s: System, move: Move)
    ensures IdsGrow(s.order, Advance(s, move).order)
    ensures !move.CommitSession? ==>
              && Advance(s, move).order.packets == s.order.packets && Advance(s, move).order.decisions == s.order.decisions
              && Advance(s, move).order.dispatches == s.order.dispatches
  {
  }

  /** Every document is where it belongs, and nothing else came along. */
  ghost predicate StoredAsCalled(o: Order, o': Order, calls: seq<Move>) {
    && (forall id :: PutsPacket(calls, id) ==> id in o'.packets) && (forall id <- o'.packets :: id in o.packets || PutsPacket(calls, id))
    && (forall id :: PutsDecision(calls, id) ==> id in o'.decisions)
    && (forall id <- o'.decisions :: id in o.decisions || PutsDecision(calls, id))
    && (forall id :: PutsDispatch(calls, id) ==> id in o'.dispatches)
    && (forall id <- o'.dispatches :: id in o.dispatches || PutsDispatch(calls, id))
    && (LastStatus(calls).Some? ==> o'.status == LastStatus(calls).value)
    && (LastStatus(calls).None? ==> o'.status == o.status)
  }

  lemma CommitStoresCalls(s: System, p: nat, calls: seq<Move>)
    requires At(s, p).Open? && Holds(At(s, p), calls)
    ensures
      var s' := Advance(s, CommitSession(p));
      && At(s', p).Closed?
      && (At(s', p).succeeded ==> StoredAsCalled(s.order, s'.order, calls))
      && (!At(s', p).succeeded ==> s'.order == s.order)
  {
  }

  /**
   Main result. Over any number of processes, a commit that succeeds leaves every packet, decision and dispatch
   the session was given in the collection of its kind, and the last status it was given; it adds no other id. A
   commit that fails writes nothing.
   */
  lemma CommittedDocumentsAreStored(start: System, moves: seq<Move>, p: nat)
    requires Created(start) && At(Play(start, moves), p).Open?
    ensures
      var s, s' := Play(start, moves), Advance(Play(start, moves), CommitSession(p));
      && At(s', p).Closed?
      && (At(s', p).succeeded ==> StoredAsCalled(s.order, s'.order, Calls(start, moves, p)))
      && (!At(s', p).succeeded ==> s'.order == s.order)
  {
    SessionHoldsCalls(start, moves, p);
    CommitStoresCalls(Play(start, moves), p, Calls(start, moves, p));
  }

  /**
   The lifecycle document is not one of those a commit looks for when the ledger has moved on: a successful commit
   writes it if and only if it found the ledger it had read.
   */
  lemma LifecycleIsStoredIff(start: System, moves: seq<Move>, p: nat)
    requires Created(start) && At(Play(start, moves), p).Open? && LastLifecycle(Calls(start, moves, p)).Some?
    requires At(Advance(Play(start, moves), CommitSession(p)), p).succeeded
    ensures
      var s, s' := Play(start, moves), Advance(Play(start, moves), CommitSession(p));
      s'.order.lifecycle ==
      if s.order.ledger == At(s, p).session.base then LastLifecycle(Calls(start, moves, p)) else s.order.lifecycle
  {
    var s := Play(start, moves);
    SessionHoldsCalls(start, moves, p);
    GoodAlways(start, moves);
    BaseIsNumbered(s.order, At(s, p).session);
  }

  /** Main result. Documents only accumulate. */
  lemma {:induction false} DocumentsAccumulate(start: System, moves: seq<Move>, more: seq<Move>)
    ensures IdsGrow(Play(start, moves).order, Play(start, moves + more).order)
    decreases |more|
  {
    if more == [] {
      assert moves + more == moves;
    } else {
      var all, before := moves + more, more[..|more| - 1];
      assert all[..|all| - 1] == moves + before && all[|all| - 1] == more[|more| - 1];
      DocumentsAccumulate(start, moves, before);
      MoveKeepsIds(Play(start, moves + before), more[|more| - 1]);
    }
  }

  // ---------------------------------------------------------------- a commit attempted again

  /** What a committed session put is there. */
  ghost predicate PutsAreStored(o: Order, s: Session) {
    && (forall id <- s.pendingPackets :: id in o.packets) && (forall id <- s.pendingDecisions :: id in o.decisions)
    && (forall id <- s.pendingDispatches :: id in o.dispatches)
  }

  lemma MoveKeepsPuts(s: System, move: Move, p: nat)
    requires At(s, p).Closed? && At(s, p).succeeded ==> PutsAreStored(s.order, At(s, p).session)
    ensures
      var s' := Advance(s, move);
      At(s', p).Closed? && At(s', p).succeeded ==> PutsAreStored(s'.order, At(s', p).session)
  {
    MoveKeepsIds(s, move);
  }

  lemma {:induction false} CommittedPutsAreStored(start: System, moves: seq<Move>, p: nat)
    requires Created(start) && At(Play(start, moves), p).Closed? && At(Play(start, moves), p).succeeded
    ensures PutsAreStored(Play(start, moves).order, At(Play(start, moves), p).session)
  {
    var before := moves[..|moves| - 1];
    if At(Play(start, before), p).Closed? && At(Play(start, before), p).succeeded {
      CommittedPutsAreStored(start, before, p);
    }
    MoveKeepsPuts(Play(start, before), moves[|moves| - 1], p);
  }

  /**
   Main result. A client that does not know whether its commit went through may commit again: a session with entries
   that has committed writes nothing more, and the attempt is refused if and only if the order has another status by now.
   */
  lemma RepeatedCommitIff(start: System, moves: seq<Move>, p: nat)
    requires Created(start) && At(Play(start, moves), p).Closed? && At(Play(start, moves), p).succeeded
    requires At(Play(start, moves), p).session.pendingEntries != []
    ensures
      var s, session := Play(start, moves), At(Play(start, moves), p).session;
      && Advance(s, CommitSession(p)) == s
      && (Commit(s.order, session).None? <==>
            session.pendingStatus.Some? && s.order.status != session.pendingStatus.value)
  {
    var s, session := Play(start, moves), At(Play(start, moves), p).session;
    GoodAlways(start, moves);
    CommittedPutsAreStored(start, moves, p);
    CommittedSessionSawItsLedger(start, moves, p);
    BaseIsNumbered(s.order, session);
    forall e <- session.pendingEntries ensures HasId(s.order.ledger, e.eventId) {
      var k :| 0 <= k < |session.pendingEntries| && session.pendingEntries[k] == e;
      assert s.order.ledger[|session.base| + k] == (session.base + session.pendingEntries)[|session.base| + k] == e;
    }
    assert Advance(s, CommitSession(p)).processes == s.processes;
  }

  /** The call that put this decision, in some session that committed. */
  ghost predicate DecisionHasSource(start: System, moves: seq<Move>, id: string) {
    exists i, p :: 0 <= i < |moves| && moves[i] == CommitSession(p) && PutsDecision(Calls(start, moves[..i], p), id)
  }

  /** Main result. Every stored decision was put as a decision by a session that committed. */
  lemma {:induction false} StoredDecisionsWerePut(start: System, moves: seq<Move>, id: string)
    requires Created(start) && id in Play(start, moves).order.decisions && id !in start.order.decisions
    ensures DecisionHasSource(start, moves, id)
  {
    var last := |moves| - 1;
    var before := moves[..last];
    if id in Play(start, before).order.decisions {
      StoredDecisionsWerePut(start, before, id);
      var i, p :| 0 <= i < |before| && before[i] == CommitSession(p) && PutsDecision(Calls(start, before[..i], p), id);
      assert moves[i] == before[i] && moves[..i] == before[..i];
    } else {
      MoveKeepsIds(Play(start, before), moves[last]);
      var p := moves[last].p;
      SessionHoldsCalls(start, before, p);
      assert moves[last] == CommitSession(p) && PutsDecision(Calls(start, moves[..last], p), id);
    }
  }
}
