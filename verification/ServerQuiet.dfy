/** Connections on which nothing that can be sent next touches a stream: what scheduling does to them. */
module ServerQuiet {
  import opened GoInt
  import opened Options
  import opened ServerStates
  import opened ServerSteps
  import opened ServerReceives

  /** A frame whose writing means nothing for any stream. */
  predicate Plain(r: Request) {
    r.write.WindowUpdate? || (r.stream == 0 && !r.write.StreamError?)
  }

  /** The same, when the streams S are registered. */
  predicate Inert(S: set<nat>, r: Request) {
    !r.Ends() && !r.write.HandlerPanicRST? && (r.write.StreamError? ==> r.StreamID() !in S)
  }

  lemma PlainInert(s: State, r: Request)
    requires CanStart(s, r)
    ensures Plain(r) ==> Inert(s.reg.streams, r) && !r.write.PushPromise?
  {
  }

  /** Of the queues of streams nothing can be sent but window updates. */
  ghost predicate Still(s: State) {
    Mute(s) || forall id :: id in s.queues && id > 0 ==> OnlyUpdates(s.queues[id]) || !Ready(s, id)
  }

  ghost predicate OnlyUpdates(q: seq<Request>) {
    forall r :: r in q ==> r.write.WindowUpdate?
  }

  ghost predicate Quiet(s: State) {
    s.out.writingFrame || Still(s)
  }

  /** Streams, windows and the decision to leave are the same, and all is still quiet. */
  ghost predicate Undisturbed(s: State, t: State) {
    && Quiet(t) && t.reg == s.reg && t.win == s.win && t.away == s.away.(needToSendGoAway := t.away.needToSendGoAway)
    && (t.away.needToSendGoAway ==> s.away.needToSendGoAway)
  }

  lemma UndisturbedSelf(s: State)
    requires Quiet(s)
    ensures Undisturbed(s, s)
  {
  }

  lemma UndisturbedOn(s: State, t: State, u: State)
    requires Undisturbed(s, t) && Undisturbed(t, u)
    ensures Undisturbed(s, u)
  {
  }

  lemma UndisturbedMeans(s: State, t: State)
    requires Undisturbed(s, t)
    ensures Quiet(t) && t.reg == s.reg && t.away.inGoAway == s.away.inGoAway && t.away.goAwayCode == s.away.goAwayCode
  {
  }

  /** A connection that is settled between two events is quiet. */
  lemma SettledQuiet(s: State)
    requires Settled(s) && AtRest(s)
    ensures Quiet(s)
  {
  }

  /** The flags of the loop do not matter. */
  lemma FlagsQuiet(s: State, t: State)
    requires LoopFlags(s, t) && (t.away.needToSendGoAway ==> s.away.needToSendGoAway)
    ensures Quiet(s) ==> Undisturbed(s, t)
  {
  }

  ghost predicate WrittenOut(s: State, t: State, r: Request) {
    t == Begun(s, r, true) || t == Finished(Begun(s, r, false))
  }

  lemma WrittenQuiet(s: State, t: State, r: Request)
    requires Quiet(s) && !s.out.writingFrame && WrittenOut(s, t, r)
    ensures Undisturbed(s, t)
  {
  }

  /** The loop takes a plain frame from a quiet connection. */
  lemma PoppedQuiet(s: State, id: nat, X: set<nat>)
    requires Queues(s, X) && Still(s) && !Mute(s) && Ready(s, id)
    ensures Plain(Part(s, id)) && Undisturbed(s, Popped(s, id))
  {
    hide Orderly, AllStreamless, AllAfterEnd;
    OwnQueue(s, id, X);
    var q := QueueOf(s, id);
    assert q[0] in q;
    assert Part(s, id) == q[0] && Rest(s, id) == q[1..];
    assert Popped(s, id) == s.(queues := s.queues[id := q[1..]]);
    assert forall r :: r in q[1..] ==> r in q;
  }

  /** A plain frame is handed over. */
  lemma OfferQuiet(s: State, r: Request)
    requires Quiet(s) && Plain(r) && MayOffer(s, r)
    ensures Undisturbed(s, Offer(s, r))
  {
    hide Ignored;
    if !Ignored(s, r) {
      var id := r.StreamID();
      var t := Pushed(s, r);
      assert Offer(s, r) == t;
      if !s.out.writingFrame && !Mute(s) {
        forall j | j in t.queues && j > 0 ensures OnlyUpdates(t.queues[j]) || !Ready(t, j) {
          if j != id { assert QueueOf(t, j) == QueueOf(s, j); }
        }
      }
    }
  }

  lemma UnlistedQuiet(s: State, id: nat)
    requires id in s.reg.records && Quiet(s)
    ensures Quiet(Unlisted(s, id))
  {
    var t := Unlisted(s, id);
    assert t.reg.records.Keys == s.reg.records.Keys;
    assert forall j :: j in s.queues ==> QueueOf(t, j) == QueueOf(s, j) && Ready(t, j) == Ready(s, j);
  }

  lemma UnlistedReg(s: State, id: nat)
    requires id in s.reg.records
    ensures Unlisted(s, id).reg.streams == s.reg.streams - {id} && Unlisted(s, id).away == s.away
  {
  }

  lemma DroppedIs(s: State, id: nat, t: State)
    requires t == s.(queues := s.queues - {id})
    ensures t == Dropped(s, id)
  {
  }

  lemma DroppedQuiet(s: State, id: nat)
    requires Quiet(s)
    ensures Undisturbed(s, Dropped(s, id))
  {
    assert forall j :: j in s.queues - {id} ==> QueueOf(Dropped(s, id), j) == QueueOf(s, j);
  }

  lemma GoneAwayQuiet(s: State, code: nat)
    requires Quiet(s)
    ensures Quiet(GoneAway(s, code))
  {
    assert forall j :: Ready(GoneAway(s, code), j) == Ready(s, j);
  }

  /** The same for a connection with all its invariants. */
  lemma QuietPop(s: State, id: nat, X: set<nat>, U: set<nat>)
    requires Inv(s, X, U) && Quiet(s) && !s.out.writingFrame && !Mute(s) && Ready(s, id)
    ensures Plain(Part(s, id)) && Undisturbed(s, Popped(s, id)) && Popped(s, id).out == s.out
  {
    hide Plain, Still, Undisturbed;
    InvParts(s, X, U);
    PoppedQuiet(s, id, X);
  }

  /** The streams are the same, and all is still quiet. */
  ghost predicate LeavesQuietly(s: State, t: State) {
    Quiet(t) && t.reg == s.reg
  }

  lemma LeavesSelf(s: State)
    requires Quiet(s)
    ensures LeavesQuietly(s, s)
  {
  }

  lemma Leaves(s: State, t: State, u: State)
    requires t == s.(away := t.away) && Undisturbed(t, u)
    ensures LeavesQuietly(s, u)
  {
  }

  // ---- Closing a stream

  /** The stream id has left the registry, and what it had not read, unread bytes at most, has been given back. */
  ghost predicate ClosedQuietly(s: State, t: State, a: Receiving, b: Receiving, id: nat, unread: nat) {
    && id in s.reg.records && t.reg == Unlisted(s, id).reg
    && (if s.reg.records[id].hasBody then Refunded(a, b, id, Min(unread, a.Of(id).buffered)) else b == a)
    && (s.reg.streams != {id} ==> t.away.inGoAway == s.away.inGoAway && t.away.goAwayCode == s.away.goAwayCode)
  }

  ghost predicate GivenUp(s: State, t: State, a: Receiving, b: Receiving, id: nat, hasBody: bool, unread: nat) {
    && t.reg == s.reg && (if hasBody then Refunded(a, b, id, Min(unread, a.Of(id).buffered)) else b == a)
    && (s.reg.streams != {} ==> t.away.inGoAway == s.away.inGoAway && t.away.goAwayCode == s.away.goAwayCode)
  }

  lemma GivenUpCloses(s: State, t: State, a: Receiving, b: Receiving, id: nat, hasBody: bool, unread: nat)
    requires id in s.reg.records && id in s.reg.streams && GivenUp(Unlisted(s, id), t, a, b, id, hasBody, unread) && hasBody == s.reg.records[id].hasBody
    ensures ClosedQuietly(s, Dropped(t, id), a, b, id, unread)
  {
    hide Refunded;
  }

  lemma ClosedTwice(s: State, t: State, a: Receiving, b: Receiving, id: nat, unread: nat)
    requires ClosedQuietly(s, t, a, b, id, unread)
    ensures id in s.reg.records && b.twice == a.twice + if s.reg.records[id].hasBody then Min(unread, a.Of(id).buffered) else 0
  {
  }
}
