/**
 * What the resource store keeps over every interleaving of its operations and of responses: one
 * live request at most, no stale write, and a poll timer that follows its subscribers.
 */
module ResourceStoreRuns {
  import opened Prelude
  import opened ResourceStore

  datatype Move =
    | Subscribe(listener: Listener, pollMs: Option<int>)
    | Unsubscribe(listener: Listener)
    | Refresh(owner: Option<Listener>, forceLoading: bool)
    | Tick
    | Publish(value: Data)
    | Evict
    | Settle(id: nat, outcome: Outcome)

  predicate Listens(subs: seq<Sub>, listener: Listener) {
    exists i :: 0 <= i < |subs| && subs[i].listener == listener
  }

  /** A listener subscribes once and unsubscribes once; a timer fires only while armed; a request settles once. */
  predicate Legal(s: State, m: Move) {
    match m
    case Subscribe(listener, _) => !Listens(s.subs, listener)
    case Unsubscribe(listener) => Listens(s.subs, listener)
    case Tick => s.timer.Some?
    case Settle(id, _) => id < |s.requests| && !s.requests[id].settled
    case _ => true
  }

  function Next(s: State, m: Move): State
    requires Legal(s, m)
  {
    match m
    case Subscribe(listener, pollMs) => Subscribed(s, listener, pollMs)
    case Unsubscribe(listener) => Unsubscribed(s, listener)
    case Refresh(owner, forceLoading) => Fetched(s, owner, true, forceLoading)
    case Tick => Ticked(s)
    case Publish(value) => AfterPublish(s, value)
    case Evict => Evicted(s)
    case Settle(id, outcome) => Settled(s, id, outcome)
  }

  /** A request whose response would still be read. */
  predicate Live(r: Request) {
    !r.aborted && !r.settled
  }

  predicate Changes(e: Event) {
    e.Started? || e.Published?
  }

  /** Nothing newer started or was published strictly between two moments. */
  predicate Quiet(log: seq<Event>, from: nat, to: nat) {
    forall j :: from < j < to && j < |log| ==> !Changes(log[j])
  }

  /** At most one live request, the one in flight; nothing newer happened since it began. */
  predicate OneLive(s: State) {
    && (forall i :: 0 <= i < |s.requests| && Live(s.requests[i]) ==> s.inflight == Some(i))
    && (s.inflight.Some? ==>
          s.inflight.value < |s.requests| && Live(s.requests[s.inflight.value])
          && s.requests[s.inflight.value].gen == s.generation
          && Quiet(s.log, s.requests[s.inflight.value].since, |s.log|))
  }

  /** Each request knows where its start is recorded. */
  predicate Recorded(s: State) {
    forall i :: 0 <= i < |s.requests| ==> s.requests[i].since < |s.log| && s.log[s.requests[i].since] == Started(i)
  }

  /** The write at a moment is by a request nothing newer had overtaken. */
  predicate FreshWrite(s: State, k: nat)
    requires k < |s.log|
  {
    s.log[k].Committed? || s.log[k].Failed? ==>
      s.log[k].id < |s.requests| && s.requests[s.log[k].id].since < k && Quiet(s.log, s.requests[s.log[k].id].since, k)
  }

  predicate NoStaleWrite(s: State) {
    forall k :: 0 <= k < |s.log| ==> FreshWrite(s, k)
  }

  /** The data of the last commit or publication. */
  function LastData(log: seq<Event>): Option<Data> {
    if log == [] then None
    else
      var e := log[|log| - 1];
      if e.Committed? then e.data else if e.Published? then Some(e.value) else LastData(log[..|log| - 1])
  }

  /** The last answer was an error, and nothing was committed or published since. */
  predicate LastFailed(log: seq<Event>) {
    log != [] && (log[|log| - 1].Failed? || (log[|log| - 1].Started? && LastFailed(log[..|log| - 1])))
  }

  predicate Shown(s: State) {
    s.snapshot.data == LastData(s.log) && s.snapshot.failed == LastFailed(s.log)
  }

  /** The timer runs exactly when someone polls, at the smallest interval asked for. */
  predicate Armed(s: State) {
    && s.pollMs == MinPoll(s.subs)
    && (s.timer.Some? <==> s.pollMs.Some?)
    && (s.timer.Some? ==> s.timer.value < s.timers)
  }

  predicate Counted(s: State) {
    && s.count == |s.subs|
    && forall i, j :: 0 <= i < j < |s.subs| ==> s.subs[i].listener != s.subs[j].listener
  }

  predicate Inv(s: State) {
    OneLive(s) && Recorded(s) && NoStaleWrite(s) && Shown(s) && Armed(s) && Counted(s)
  }

  /** The part about requests and data. */
  predicate DataInv(s: State) {
    OneLive(s) && Recorded(s) && NoStaleWrite(s) && Shown(s)
  }

  // ---------------------------------------------------------------------------
  // Requests and data
  // ---------------------------------------------------------------------------

  lemma LogGrows(s: State, t: State, e: Event)
    requires Recorded(s) && NoStaleWrite(s) && t.log == s.log + [e] && |t.requests| >= |s.requests|
    requires forall i :: 0 <= i < |s.requests| ==> t.requests[i].since == s.requests[i].since
    ensures forall k :: 0 <= k < |s.log| ==> FreshWrite(t, k)
    ensures forall i :: 0 <= i < |s.requests| ==> t.requests[i].since < |s.log| && t.log[t.requests[i].since] == Started(i)
  {
    forall k | 0 <= k < |s.log| ensures FreshWrite(t, k) {
      assert FreshWrite(s, k);
    }
  }

  lemma SameLog(s: State, t: State)
    requires Recorded(s) && NoStaleWrite(s) && Shown(s)
    requires t.log == s.log && |t.requests| == |s.requests| && t.snapshot.data == s.snapshot.data && t.snapshot.failed == s.snapshot.failed
    requires forall i :: 0 <= i < |s.requests| ==> t.requests[i].since == s.requests[i].since
    ensures Recorded(t) && NoStaleWrite(t) && Shown(t)
  {
    forall k | 0 <= k < |s.log| ensures FreshWrite(t, k) {
      assert FreshWrite(s, k);
    }
  }

  lemma AbortLeavesNone(s: State)
    requires OneLive(s)
    ensures var r := AbortRequest(s.requests, s.inflight);
      && |r| == |s.requests|
      && forall i :: 0 <= i < |r| ==> !Live(r[i]) && r[i].since == s.requests[i].since
  {
  }

  lemma FetchKeeps(s: State, owner: Option<Listener>, replaceInflight: bool, forceLoading: bool)
    requires DataInv(s)
    ensures DataInv(Fetched(s, owner, replaceInflight, forceLoading))
  {
    var t := Fetched(s, owner, replaceInflight, forceLoading);
    if !(s.inflight.Some? && !replaceInflight) {
      AbortLeavesNone(s);
      hide AbortRequest;
      LogGrows(s, t, Started(|s.requests|));
      assert t.log[..|s.log|] == s.log;
      assert FreshWrite(t, |s.log|);
      hide FreshWrite;
    }
  }

  /** A response is written exactly when its request is the one in flight. */
  lemma SettleCommitsExactly(s: State, id: nat, outcome: Outcome)
    requires DataInv(s) && id < |s.requests| && !s.requests[id].settled
    ensures MayCommit(s, id) <==> s.inflight == Some(id)
    ensures (Settled(s, id, outcome).log != s.log) <==> s.inflight == Some(id)
    ensures s.inflight == Some(id) ==> Quiet(s.log, s.requests[id].since, |s.log|)
  {
    hide Quiet, FreshWrite;
    var t := Settled(s, id, outcome);
    assert MayCommit(s, id) ==> Live(s.requests[id]);
    assert MayCommit(s, id) ==> |t.log| == |s.log| + 1;
  }

  lemma SettleKeeps(s: State, id: nat, outcome: Outcome)
    requires DataInv(s) && id < |s.requests| && !s.requests[id].settled
    ensures DataInv(Settled(s, id, outcome))
  {
    SettleCommitsExactly(s, id, outcome);
    var t := Settled(s, id, outcome);
    SettleLive(s, id, outcome);
    if MayCommit(s, id) {
      var e := if outcome.Resolved? then Committed(id, outcome.data) else Failed(id);
      LogGrows(s, t, e);
      assert t.log[..|s.log|] == s.log;
      QuietGrows(s.log, e, s.requests[id].since);
      assert FreshWrite(t, |s.log|);
    } else {
      SameLog(s, t);
    }
  }

  lemma QuietGrows(log: seq<Event>, e: Event, from: nat)
    requires Quiet(log, from, |log|)
    ensures Quiet(log + [e], from, |log|)
  {
  }

  lemma SettleLive(s: State, id: nat, outcome: Outcome)
    requires DataInv(s) && id < |s.requests| && !s.requests[id].settled
    requires MayCommit(s, id) <==> s.inflight == Some(id)
    ensures OneLive(Settled(s, id, outcome))
  {
    hide FreshWrite, LastData, LastFailed;
  }

  lemma DropKeeps(s: State, t: State)
    requires DataInv(s)
    requires t.requests == AbortRequest(s.requests, s.inflight) && t.inflight.None?
    requires t.log == s.log && t.snapshot.data == s.snapshot.data && t.snapshot.failed == s.snapshot.failed
    ensures DataInv(t)
  {
    AbortLeavesNone(s);
    hide AbortRequest;
    SameLog(s, t);
  }

  lemma PublishKeeps(s: State, value: Data)
    requires DataInv(s)
    ensures DataInv(AfterPublish(s, value))
  {
    var t := AfterPublish(s, value);
    AbortLeavesNone(s);
    hide AbortRequest;
    LogGrows(s, t, Published(value));
    assert FreshWrite(t, |s.log|);
  }

  /** Subscribers and timers play no part in it. */
  lemma OnlySubscribers(s: State, t: State)
    requires DataInv(s)
    requires t.requests == s.requests && t.inflight == s.inflight && t.generation == s.generation
    requires t.log == s.log && t.snapshot == s.snapshot
    ensures DataInv(t)
  {
    SameLog(s, t);
  }

  lemma OwnerKeeps(s: State, owner: Listener)
    requires DataInv(s)
    ensures DataInv(OwnerAborted(s, owner))
  {
    hide DataInv;
    if s.owner == Some(owner) { DropKeeps(s, OwnerAborted(s, owner)); }
  }

  lemma NextKeepsData(s: State, m: Move)
    requires DataInv(s) && Legal(s, m)
    ensures DataInv(Next(s, m))
  {
    match m {
      case Refresh(owner, forceLoading) => FetchKeeps(s, owner, true, forceLoading);
      case Tick => if Pick(s.subs).Some? { FetchKeeps(s, Pick(s.subs), false, false); }
      case Publish(value) => PublishKeeps(s, value);
      case Evict => if s.count == 0 { hide DataInv; DropKeeps(s, Evicted(s)); }
      case Settle(id, outcome) => SettleKeeps(s, id, outcome);
      case Subscribe(listener, pollMs) => SubscribeKeepsData(s, listener, pollMs);
      case Unsubscribe(listener) => UnsubscribeKeepsData(s, listener);
    }
  }

  lemma SubscribeKeepsData(s: State, listener: Listener, pollMs: Option<int>)
    requires DataInv(s)
    ensures DataInv(Subscribed(s, listener, pollMs))
  {
    hide DataInv, MinPoll, Fetched;
    var added := s.(subs := s.subs + [Sub(listener, pollMs)], count := s.count + 1);
    OnlySubscribers(s, added);
    FetchKeeps(added, Some(listener), true, false);
    var before := if added.count == 1 && added.snapshot.data.None? then Fetched(added, Some(listener), true, false) else added;
    OnlySubscribers(before, PollRecomputed(before));
  }

  lemma UnsubscribeKeepsData(s: State, listener: Listener)
    requires DataInv(s)
    ensures DataInv(Unsubscribed(s, listener))
  {
    hide DataInv, MinPoll, Fetched, Without, Pick, OwnerAborted;
    var gone := s.(subs := Without(s.subs, listener), count := s.count - 1);
    OnlySubscribers(s, gone);
    OwnerKeeps(gone, listener);
    var left := OwnerAborted(gone, listener);
    FetchKeeps(left, Pick(left.subs), true, false);
    var refetched := Fetched(left, Pick(left.subs), true, false);
    OnlySubscribers(left, PollCleared(left));
    OnlySubscribers(left, PollRecomputed(left));
    OnlySubscribers(refetched, PollRecomputed(refetched));
  }

  // ---------------------------------------------------------------------------
  // Subscribers and the timer
  // ---------------------------------------------------------------------------

  /** The least positive interval, if there is any. */
  lemma {:induction false} MinPollIsLeast(subs: seq<Sub>)
    ensures MinPoll(subs).Some? <==> exists i :: 0 <= i < |subs| && Polls(subs[i])
    ensures MinPoll(subs).Some? ==> MinPoll(subs).value > 0
    ensures MinPoll(subs).Some? ==> exists i :: 0 <= i < |subs| && Polls(subs[i]) && subs[i].pollMs == MinPoll(subs)
    ensures forall i :: 0 <= i < |subs| && Polls(subs[i]) ==> MinPoll(subs).Some? && MinPoll(subs).value <= subs[i].pollMs.value
  {
    hide Polls;
    if subs != [] {
      var n := |subs| - 1;
      MinPollIsLeast(subs[..n]);
      PollsMeans(subs[n]);
      assert forall i :: 0 <= i < n ==> subs[i] == subs[..n][i];
    }
  }

  lemma PollsMeans(sub: Sub)
    ensures Polls(sub) ==> sub.pollMs.Some? && sub.pollMs.value > 0
  {
  }

  lemma {:induction false} WithoutOne(subs: seq<Sub>, listener: Listener)
    requires forall i, j :: 0 <= i < j < |subs| ==> subs[i].listener != subs[j].listener
    ensures var r := Without(subs, listener);
      && |r| == |subs| - (if Listens(subs, listener) then 1 else 0)
      && (forall i, j :: 0 <= i < j < |r| ==> r[i].listener != r[j].listener)
      && (forall i :: 0 <= i < |r| ==> Listens(subs, r[i].listener))
  {
    if subs != [] {
      WithoutOne(subs[1..], listener);
      var r, rest := Without(subs, listener), Without(subs[1..], listener);
      forall l | Listens(subs[1..], l) ensures Listens(subs, l) {
        var i :| 0 <= i < |subs[1..]| && subs[1..][i].listener == l;
        assert subs[i + 1].listener == l;
      }
      forall l | Listens(subs, l) && subs[0].listener != l ensures Listens(subs[1..], l) {
        var i :| 0 <= i < |subs| && subs[i].listener == l;
        assert subs[1..][i - 1].listener == l;
      }
      if subs[0].listener == listener {
        assert r == rest;
      } else {
        assert r == [subs[0]] + rest;
        forall j | 0 <= j < |rest| ensures rest[j].listener != subs[0].listener {
          assert Listens(subs[1..], rest[j].listener);
          var i :| 0 <= i < |subs[1..]| && subs[1..][i].listener == rest[j].listener;
          assert subs[i + 1].listener == rest[j].listener;
        }
      }
    }
  }

  lemma RecomputeArms(s: State)
    requires s.timer.Some? ==> s.timer.value < s.timers
    requires s.timer.Some? ==> s.pollMs.Some?
    ensures Armed(PollRecomputed(s))
  {
    hide MinPoll;
  }

  lemma NextKeepsTimer(s: State, m: Move)
    requires Armed(s) && Counted(s) && Legal(s, m)
    ensures Armed(Next(s, m)) && Counted(Next(s, m))
  {
    hide MinPoll, Without, AbortRequest, Pick;
    match m {
      case Subscribe(listener, pollMs) => SubscribeKeepsTimer(s, listener, pollMs);
      case Unsubscribe(listener) => UnsubscribeKeepsTimer(s, listener);
      case _ =>
    }
  }

  lemma SubscribeKeepsTimer(s: State, listener: Listener, pollMs: Option<int>)
    requires Armed(s) && Counted(s) && !Listens(s.subs, listener)
    ensures Armed(Subscribed(s, listener, pollMs)) && Counted(Subscribed(s, listener, pollMs))
  {
    hide MinPoll, AbortRequest, PollRecomputed, Armed;
    ArmedMeans(s);
    var added := s.(subs := s.subs + [Sub(listener, pollMs)], count := s.count + 1);
    var before := if added.count == 1 && added.snapshot.data.None? then Fetched(added, Some(listener), true, false) else added;
    RecomputeArms(before);
    RecomputeFrame(before);
  }

  lemma ArmedMeans(s: State)
    requires Armed(s)
    ensures (s.timer.Some? ==> s.timer.value < s.timers) && (s.timer.Some? ==> s.pollMs.Some?)
  {
  }

  lemma RecomputeFrame(s: State)
    ensures PollRecomputed(s).subs == s.subs && PollRecomputed(s).count == s.count
  {
  }

  lemma UnsubscribeKeepsTimer(s: State, listener: Listener)
    requires Armed(s) && Counted(s) && Listens(s.subs, listener)
    ensures Armed(Unsubscribed(s, listener)) && Counted(Unsubscribed(s, listener))
  {
    hide MinPoll, AbortRequest, PollRecomputed, Without, Pick, Listens;
    WithoutOne(s.subs, listener);
    var left := OwnerAborted(s.(subs := Without(s.subs, listener), count := s.count - 1), listener);
    var refetched := Fetched(left, Pick(left.subs), true, false);
    RecomputeArms(left);
    RecomputeArms(refetched);
    RecomputeFrame(left);
    RecomputeFrame(refetched);
    NobodyPolls();
  }

  lemma NobodyPolls()
    ensures MinPoll([]) == None
  {
  }

  // ---------------------------------------------------------------------------
  // Whole runs
  // ---------------------------------------------------------------------------

  /** States the store can reach. */
  predicate Run(s: State, moves: seq<Move>, t: State)
    decreases moves
  {
    if moves == [] then s == t else Legal(s, moves[0]) && Run(Next(s, moves[0]), moves[1..], t)
  }

  lemma NextKeeps(s: State, m: Move)
    requires Inv(s) && Legal(s, m)
    ensures Inv(Next(s, m))
  {
    NextKeepsData(s, m);
    NextKeepsTimer(s, m);
  }

  lemma {:induction false} RunKeeps(s: State, moves: seq<Move>, t: State)
    requires Inv(s) && Run(s, moves, t)
    ensures Inv(t)
    decreases moves
  {
    hide Inv, Legal, Next;
    if moves != [] {
      NextKeeps(s, moves[0]);
      RunKeeps(Next(s, moves[0]), moves[1..], t);
    }
  }

  /**
   * In every reachable state at most one request is live and it is the one in flight, no response
   * was ever written after something newer started or was published, the data and the error shown are those of the last
   * answer or publication, and the timer runs exactly at the smallest interval some subscriber asks for.
   */
  lemma StoreIsConsistent(moves: seq<Move>, s: State)
    requires Run(Empty(), moves, s)
    ensures Inv(s)
  {
    hide Run;
    RunKeeps(Empty(), moves, s);
  }

  /** A subscriber that asks for nothing faster leaves the running countdown alone. */
  lemma SlowerSubscriberKeepsCountdown(s: State, listener: Listener, pollMs: Option<int>)
    requires Armed(s) && s.timer.Some? && (pollMs.Some? ==> pollMs.value >= s.pollMs.value)
    ensures Subscribed(s, listener, pollMs).timer == s.timer
  {
    MinPollIsLeast(s.subs);
    var subs := s.subs + [Sub(listener, pollMs)];
    assert subs[..|s.subs|] == s.subs;
    assert MinPoll(subs) == MinPoll(s.subs);
    hide MinPoll, AbortRequest;
  }

  /** When the subscriber owning the request leaves, the request is aborted and others get a new one. */
  lemma OrphanedRequestIsReplaced(s: State, listener: Listener)
    requires OneLive(s) && Counted(s) && Listens(s.subs, listener) && s.inflight.Some? && s.owner == Some(listener)
    ensures var t := Unsubscribed(s, listener);
      && t.requests[s.inflight.value].aborted
      && (t.inflight.Some? <==> |s.subs| > 1)
      && (t.inflight.Some? ==> t.inflight.value == |s.requests| && t.owner == Pick(t.subs))
  {
    WithoutOne(s.subs, listener);
    hide Without, MinPoll, FirstPolling, Listens, Quiet;
  }

  // ---------------------------------------------------------------------------
  // Nobody waits for nothing
  // ---------------------------------------------------------------------------

  /** Who has no data waits for a request, or has had an answer that brought none. */
  predicate Served(s: State) {
    || s.subs == []
    || s.snapshot.data.Some?
    || s.inflight.Some?
    || (s.log != [] && (s.log[|s.log| - 1].Failed? || s.log[|s.log| - 1].Committed?))
  }

  /** A request in flight comes before its owner. */
  predicate Owned(s: State) {
    s.owner.Some? ==> s.inflight.Some?
  }

  lemma AfterRecompute(s: State)
    ensures var t := PollRecomputed(s);
      t == s.(timer := t.timer, timers := t.timers, pollMs := t.pollMs)
  {
    hide MinPoll;
  }

  lemma SomeoneIsPicked(subs: seq<Sub>)
    ensures Pick(subs).Some? <==> subs != []
  {
  }

  lemma SubscribeServes(s: State, listener: Listener, pollMs: Option<int>)
    requires Counted(s) && Owned(s) && Served(s)
    ensures Owned(Subscribed(s, listener, pollMs)) && Served(Subscribed(s, listener, pollMs))
  {
    hide PollRecomputed, AbortRequest;
    var added := s.(subs := s.subs + [Sub(listener, pollMs)], count := s.count + 1);
    AfterRecompute(if added.count == 1 && added.snapshot.data.None? then Fetched(added, Some(listener), true, false) else added);
  }

  lemma UnsubscribeServes(s: State, listener: Listener)
    requires Counted(s) && Listens(s.subs, listener) && Owned(s) && Served(s)
    ensures Owned(Unsubscribed(s, listener)) && Served(Unsubscribed(s, listener))
  {
    WithoutOne(s.subs, listener);
    hide PollRecomputed, AbortRequest, Without, Pick, Listens;
    var left := OwnerAborted(s.(subs := Without(s.subs, listener), count := s.count - 1), listener);
    SomeoneIsPicked(left.subs);
    AfterRecompute(left);
    AfterRecompute(Fetched(left, Pick(left.subs), true, false));
  }

  lemma NextServes(s: State, m: Move)
    requires Inv(s) && Owned(s) && Served(s) && Legal(s, m)
    ensures Owned(Next(s, m)) && Served(Next(s, m))
  {
    hide Quiet, FreshWrite, LastData, LastFailed, MinPoll, AbortRequest, Pick;
    match m {
      case Subscribe(listener, pollMs) => SubscribeServes(s, listener, pollMs);
      case Unsubscribe(listener) => UnsubscribeServes(s, listener);
      case Settle(id, outcome) => SettleCommitsExactly(s, id, outcome);
      case _ =>
    }
  }

  lemma {:induction false} RunServes(s: State, moves: seq<Move>, t: State)
    requires Inv(s) && Owned(s) && Served(s) && Run(s, moves, t)
    ensures Inv(t) && Owned(t) && Served(t)
    decreases moves
  {
    hide Inv, Owned, Served, Legal, Next;
    if moves != [] {
      NextKeeps(s, moves[0]);
      NextServes(s, moves[0]);
      RunServes(Next(s, moves[0]), moves[1..], t);
    }
  }

  /** In every reachable state, a store with subscribers and no data has a request in flight or got an answer without data last. */
  lemma EveryoneIsServed(moves: seq<Move>, s: State)
    requires Run(Empty(), moves, s)
    ensures Served(s)
  {
    hide Run;
    RunServes(Empty(), moves, s);
  }

  /** Subscribers see `loading`, but nothing is being loaded. */
  predicate Stuck(s: State) {
    s.subs != [] && s.snapshot.loading && s.inflight.None?
  }

  lemma SubscribeSticks(s: State, listener: Listener, pollMs: Option<int>)
    requires Counted(s) && !Stuck(s)
    ensures Stuck(Subscribed(s, listener, pollMs)) <==>
      s.subs == [] && s.snapshot.loading && s.inflight.None? && s.snapshot.data.Some?
  {
    hide PollRecomputed, AbortRequest;
    var added := s.(subs := s.subs + [Sub(listener, pollMs)], count := s.count + 1);
    AfterRecompute(if added.count == 1 && added.snapshot.data.None? then Fetched(added, Some(listener), true, false) else added);
  }

  lemma UnsubscribeFrees(s: State, listener: Listener)
    requires Counted(s) && Listens(s.subs, listener) && !Stuck(s)
    ensures !Stuck(Unsubscribed(s, listener))
  {
    WithoutOne(s.subs, listener);
    hide PollRecomputed, AbortRequest, Without, Pick;
    var left := OwnerAborted(s.(subs := Without(s.subs, listener), count := s.count - 1), listener);
    SomeoneIsPicked(left.subs);
    AfterRecompute(left);
    AfterRecompute(Fetched(left, Pick(left.subs), true, false));
  }

  /**
   * The replacement of aborted work keeps subscribers from waiting forever, with one exception: from a state that
   * is not stuck, an operation leads to a stuck one exactly when it is a first subscription to a store that holds
   * data and still says `loading` although its request was dropped with the last subscriber.
   */
  lemma LoadingSticksExactly(s: State, m: Move)
    requires Inv(s) && !Stuck(s) && Legal(s, m)
    ensures Stuck(Next(s, m)) <==>
      m.Subscribe? && s.subs == [] && s.snapshot.loading && s.inflight.None? && s.snapshot.data.Some?
  {
    hide Quiet, FreshWrite, LastData, LastFailed, MinPoll, AbortRequest, Pick;
    match m {
      case Subscribe(listener, pollMs) => SubscribeSticks(s, listener, pollMs);
      case Unsubscribe(listener) => UnsubscribeFrees(s, listener);
      case Settle(id, outcome) => SettleCommitsExactly(s, id, outcome);
      case _ =>
    }
  }

  lemma RunStep(s: State, m: Move, rest: seq<Move>, t: State)
    requires Legal(s, m) && Run(Next(s, m), rest, t)
    ensures Run(s, [m] + rest, t)
  {
    hide Legal, Next;
    assert ([m] + rest)[1..] == rest;
  }

  /** A subscriber with data reloads, leaves and comes back before the store is evicted: now it waits for nothing. */
  lemma LeavingWhileReloading(s: State, listener: Listener, data: Data) returns (t: State)
    requires s.subs == [Sub(listener, None)] && s.count == 1 && s.snapshot.data == Some(data)
    ensures Run(s, [Refresh(Some(listener), true), Unsubscribe(listener), Subscribe(listener, None)], t) && Stuck(t)
  {
    hide AbortRequest;
    var c := Next(s, Refresh(Some(listener), true));
    assert c.subs[0].listener == listener;
    var d := Next(c, Unsubscribe(listener));
    assert Without(c.subs, listener) == [] by { assert c.subs[1..] == []; }
    assert d.subs == [] && d.count == 0 && d.inflight.None? && d.snapshot == Snapshot(Some(data), s.snapshot.failed, true);
    t := Next(d, Subscribe(listener, None));
    hide Subscribed, Unsubscribed, Fetched;
    RunStep(d, Subscribe(listener, None), [], t);
    RunStep(c, Unsubscribe(listener), [Subscribe(listener, None)], t);
    RunStep(s, Refresh(Some(listener), true), [Unsubscribe(listener), Subscribe(listener, None)], t);
    assert Stuck(t) by { SubscribeOnEmpty(d, listener); }
  }

  lemma SubscribeOnEmpty(s: State, listener: Listener)
    requires s.subs == [] && s.count == 0 && s.snapshot.data.Some?
    ensures var t := Subscribed(s, listener, None);
      t.subs != [] && t.snapshot == s.snapshot && t.inflight == s.inflight
  {
    hide PollRecomputed, Fetched;
    AfterRecompute(s.(subs := s.subs + [Sub(listener, None)], count := s.count + 1));
  }

  lemma {:induction false} RunsJoin(s: State, first: seq<Move>, t: State, second: seq<Move>, u: State)
    requires Run(s, first, t) && Run(t, second, u)
    ensures Run(s, first + second, u)
    decreases first
  {
    hide Legal, Next;
    if first == [] {
      assert first + second == second;
    } else {
      assert (first + second)[1..] == first[1..] + second;
      RunsJoin(Next(s, first[0]), first[1..], t, second, u);
    }
  }

  lemma FirstLoad(data: Data) returns (s: State)
    ensures Run(Empty(), [Subscribe(1, None), Settle(0, Resolved(Some(data)))], s)
    ensures s.subs == [Sub(1, None)] && s.count == 1 && s.snapshot.data == Some(data)
  {
    var a := Empty();
    AfterRecompute(Fetched(a.(subs := [Sub(1, None)], count := 1), Some(1), true, false));
    assert a.subs + [Sub(1, None)] == [Sub(1, None)];
    hide PollRecomputed;
    var b := Next(a, Subscribe(1, None));
    s := Next(b, Settle(0, Resolved(Some(data))));
    hide Subscribed, Settled;
    RunStep(b, Settle(0, Resolved(Some(data))), [], s);
    RunStep(a, Subscribe(1, None), [Settle(0, Resolved(Some(data)))], s);
  }

  /** It does happen, for any data. */
  lemma ReloadCanStick(data: Data)
    ensures exists moves, s :: Run(Empty(), moves, s) && Stuck(s)
  {
    hide Run, Stuck;
    var s := FirstLoad(data);
    var t := LeavingWhileReloading(s, 1, data);
    var load := [Subscribe(1, None), Settle(0, Resolved(Some(data)))];
    var leave := [Refresh(Some(1), true), Unsubscribe(1), Subscribe(1, None)];
    RunsJoin(Empty(), load, s, leave, t);
  }
}
