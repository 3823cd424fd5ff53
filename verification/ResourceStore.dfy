/**
 * One store of the dashboard's fetch cache (gui/src/client-resource.ts): subscribers share one
 * snapshot, one in-flight request and one poll timer.
 */
module ResourceStore {
  import opened Prelude

  type Listener = nat
  type Data = int

  datatype Snapshot = Snapshot(data: Option<Data>, failed: bool, loading: bool)

  /** A subscriber and the poll interval it asks for. */
  datatype Sub = Sub(listener: Listener, pollMs: Option<int>)

  /** A started request: its generation, whether its controller is aborted, whether it has settled. */
  datatype Request = Request(gen: nat, aborted: bool, settled: bool, since: nat)

  /** What happened to the shared data, in order. */
  datatype Event = Started(id: nat) | Committed(id: nat, data: Option<Data>) | Failed(id: nat) | Published(value: Data)

  /** How a fetch ends; a fetcher may also resolve to undefined. */
  datatype Outcome = Resolved(data: Option<Data>) | Rejected

  datatype State = State(
    snapshot: Snapshot,
    subs: seq<Sub>,
    count: int,
    timer: Option<nat>,
    timers: nat,
    pollMs: Option<int>,
    inflight: Option<nat>,
    owner: Option<Listener>,
    generation: nat,
    requests: seq<Request>,
    log: seq<Event>)

  function Empty(): State {
    State(Snapshot(None, false, false), [], 0, None, 0, None, None, None, 0, [], [])
  }

  // ---------------------------------------------------------------------------
  // Subscribers
  // ---------------------------------------------------------------------------

  predicate Polls(sub: Sub) {
    sub.pollMs.Some? && sub.pollMs.value > 0
  }

  function Smaller(best: Option<int>, ms: int): Option<int> {
    if best.None? || ms < best.value then Some(ms) else best
  }

  /** The smallest positive interval asked for. */
  function MinPoll(subs: seq<Sub>): Option<int> {
    if subs == [] then None
    else
      var best := MinPoll(subs[..|subs| - 1]);
      var last := subs[|subs| - 1];
      if Polls(last) then Smaller(best, last.pollMs.value) else best
  }

  /** The first polling subscriber, otherwise the first subscriber. */
  function FirstPolling(subs: seq<Sub>): Option<Listener> {
    if subs == [] then None
    else if Polls(subs[0]) then Some(subs[0].listener)
    else FirstPolling(subs[1..])
  }

  function Pick(subs: seq<Sub>): Option<Listener> {
    if FirstPolling(subs).Some? then FirstPolling(subs)
    else if subs != [] then Some(subs[0].listener) else None
  }

  function Without(subs: seq<Sub>, listener: Listener): seq<Sub> {
    if subs == [] then []
    else (if subs[0].listener == listener then [] else [subs[0]]) + Without(subs[1..], listener)
  }

  // ---------------------------------------------------------------------------
  // Steps as functions of the state
  // ---------------------------------------------------------------------------

  function AbortRequest(requests: seq<Request>, inflight: Option<nat>): seq<Request> {
    if inflight.Some? && inflight.value < |requests|
    then requests[inflight.value := requests[inflight.value].(aborted := true)] else requests
  }

  function Fetched(s: State, owner: Option<Listener>, replaceInflight: bool, forceLoading: bool): State {
    if s.inflight.Some? && !replaceInflight then s
    else
      s.(requests := AbortRequest(s.requests, s.inflight) + [Request(s.generation + 1, false, false, |s.log|)],
         inflight := Some(|s.requests|), owner := owner, generation := s.generation + 1,
         log := s.log + [Started(|s.requests|)],
         snapshot := if s.snapshot.data.None? || forceLoading then s.snapshot.(loading := true) else s.snapshot)
  }

  /** A request may still write: nothing newer, and not aborted. */
  predicate MayCommit(s: State, id: nat)
    requires id < |s.requests|
  {
    s.requests[id].gen == s.generation && !s.requests[id].aborted
  }

  function Settled(s: State, id: nat, outcome: Outcome): State
    requires id < |s.requests|
  {
    var done := s.(requests := s.requests[id := s.requests[id].(settled := true)],
                   inflight := if s.inflight == Some(id) then None else s.inflight,
                   owner := if s.inflight == Some(id) then None else s.owner);
    if !MayCommit(s, id) then done
    else if outcome.Resolved? then
      done.(snapshot := Snapshot(outcome.data, false, false), log := s.log + [Committed(id, outcome.data)])
    else done.(snapshot := s.snapshot.(failed := true, loading := false), log := s.log + [Failed(id)])
  }

  function OwnerAborted(s: State, owner: Listener): State {
    if s.owner != Some(owner) then s
    else s.(requests := AbortRequest(s.requests, s.inflight), inflight := None, owner := None, generation := s.generation + 1)
  }

  function PollCleared(s: State): State {
    s.(timer := None, pollMs := None)
  }

  /** The countdown is kept when the effective interval is unchanged. */
  function PollRecomputed(s: State): State {
    var ms := MinPoll(s.subs);
    if ms == s.pollMs && (ms.None? || s.timer.Some?) then s
    else if ms.None? then PollCleared(s)
    else s.(timer := Some(s.timers), timers := s.timers + 1, pollMs := ms)
  }

  function Subscribed(s: State, listener: Listener, pollMs: Option<int>): State {
    var added := s.(subs := s.subs + [Sub(listener, pollMs)], count := s.count + 1);
    PollRecomputed(if added.count == 1 && added.snapshot.data.None? then Fetched(added, Some(listener), true, false) else added)
  }

  function Unsubscribed(s: State, listener: Listener): State {
    var left := OwnerAborted(s.(subs := Without(s.subs, listener), count := s.count - 1), listener);
    if left.count == 0 then PollCleared(left)
    else if s.owner == Some(listener) && Pick(left.subs).Some? then PollRecomputed(Fetched(left, Pick(left.subs), true, false))
    else PollRecomputed(left)
  }

  function Ticked(s: State): State {
    if Pick(s.subs).None? then s else Fetched(s, Pick(s.subs), false, false)
  }

  function AfterPublish(s: State, data: Data): State {
    s.(requests := AbortRequest(s.requests, s.inflight), inflight := None, owner := None, generation := s.generation + 1,
       snapshot := Snapshot(Some(data), false, false), log := s.log + [Published(data)])
  }

  /** The delayed eviction drops a store nobody subscribed to meanwhile. */
  function Evicted(s: State): State {
    if s.count != 0 then s
    else s.(requests := AbortRequest(s.requests, s.inflight), inflight := None, owner := None)
  }

  // ---------------------------------------------------------------------------
  // The store
  // ---------------------------------------------------------------------------

  class Store {
    var snapshot: Snapshot
    var subs: seq<Sub>
    var subscriberCount: int
    var pollTimer: Option<nat>
    var timers: nat
    var pollIntervalMs: Option<int>
    var inflight: Option<nat>
    var inflightOwner: Option<Listener>
    var generation: nat
    var requests: seq<Request>
    /** What happened to the data so far; it only serves the specification. */
    var log: seq<Event>

    ghost function Value(): State
      reads this
    {
      State(snapshot, subs, subscriberCount, pollTimer, timers, pollIntervalMs, inflight, inflightOwner, generation, requests, log)
    }

    constructor ()
      ensures Value() == Empty()
    {
      snapshot := Snapshot(None, false, false);
      subs, subscriberCount := [], 0;
      pollTimer, timers, pollIntervalMs := None, 0, None;
      inflight, inflightOwner, generation := None, None, 0;
      requests, log := [], [];
    }

    method AbortInflight()
      modifies this
      ensures Value() == old(Value()).(requests := AbortRequest(old(requests), old(inflight)))
    {
      if inflight.Some? && inflight.value < |requests| {
        requests := requests[inflight.value := requests[inflight.value].(aborted := true)];
      }
    }

    /** The part of a fetch that runs before the response. */
    method RunFetch(owner: Option<Listener>, replaceInflight: bool, forceLoading: bool)
      modifies this
      ensures Value() == Fetched(old(Value()), owner, replaceInflight, forceLoading)
    {
      if inflight.Some? && !replaceInflight { return; }
      if replaceInflight { AbortInflight(); }
      generation := generation + 1;
      log := log + [Started(|requests|)];
      inflight, inflightOwner := Some(|requests|), owner;
      requests := requests + [Request(generation, false, false, |log| - 1)];
      if snapshot.data.None? || forceLoading {
        snapshot := snapshot.(loading := true);
      }
    }

    /** The part of a fetch that runs when the response or an error arrives. */
    method Settle(id: nat, outcome: Outcome)
      requires id < |requests|
      modifies this
      ensures Value() == Settled(old(Value()), id, outcome)
    {
      var request := requests[id];
      requests := requests[id := request.(settled := true)];
      if request.gen == generation && !request.aborted {
        match outcome {
          case Resolved(data) =>
            snapshot := Snapshot(data, false, false);
            log := log + [Committed(id, data)];
          case Rejected =>
            snapshot := snapshot.(failed := true, loading := false);
            log := log + [Failed(id)];
        }
      }
      if inflight == Some(id) {
        inflight, inflightOwner := None, None;
      }
    }

    method AbortInflightOwnedBy(owner: Listener) returns (aborted: bool)
      modifies this
      ensures Value() == OwnerAborted(old(Value()), owner)
      ensures aborted <==> old(inflightOwner) == Some(owner)
    {
      if inflightOwner != Some(owner) { return false; }
      AbortInflight();
      inflight, inflightOwner := None, None;
      generation := generation + 1;
      return true;
    }

    method ClearPollTimer()
      modifies this
      ensures Value() == PollCleared(old(Value()))
    {
      pollTimer, pollIntervalMs := None, None;
    }

    method RecomputePoll()
      modifies this
      ensures Value() == PollRecomputed(old(Value()))
    {
      var pollMs := EffectivePoll(subs);
      if pollMs == pollIntervalMs && (pollMs.None? || pollTimer.Some?) { return; }
      ClearPollTimer();
      pollIntervalMs := pollMs;
      if pollMs.None? { return; }
      pollTimer := Some(timers);
      timers := timers + 1;
    }

    method Subscribe(listener: Listener, pollMs: Option<int>)
      modifies this
      ensures Value() == Subscribed(old(Value()), listener, pollMs)
    {
      subs := subs + [Sub(listener, pollMs)];
      subscriberCount := subscriberCount + 1;
      if subscriberCount == 1 && snapshot.data.None? {
        RunFetch(Some(listener), true, false);
      }
      RecomputePoll();
    }

    method Unsubscribe(listener: Listener)
      modifies this
      ensures Value() == Unsubscribed(old(Value()), listener)
    {
      subs := Without(subs, listener);
      subscriberCount := subscriberCount - 1;
      var abortedOwned := AbortInflightOwnedBy(listener);
      if subscriberCount == 0 {
        ClearPollTimer();
        return;
      }
      if abortedOwned {
        var entry := PickFetcherEntry(subs);
        if entry.Some? { RunFetch(entry, true, false); }
      }
      RecomputePoll();
    }

    /** The interval timer fires; a running request is left to finish. */
    method Tick()
      modifies this
      ensures Value() == Ticked(old(Value()))
    {
      var entry := PickFetcherEntry(subs);
      if entry.None? { return; }
      RunFetch(entry, false, false);
    }

    method SetData(data: Data)
      modifies this
      ensures Value() == AfterPublish(old(Value()), data)
    {
      AbortInflight();
      inflight, inflightOwner := None, None;
      generation := generation + 1;
      snapshot := Snapshot(Some(data), false, false);
      log := log + [Published(data)];
    }

    method Evict()
      modifies this
      ensures Value() == Evicted(old(Value()))
    {
      if subscriberCount != 0 { return; }
      AbortInflight();
      inflight, inflightOwner := None, None;
    }
  }

  method EffectivePoll(subs: seq<Sub>) returns (pollMs: Option<int>)
    ensures pollMs == MinPoll(subs)
  {
    pollMs := None;
    var i := 0;
    while i < |subs|
      invariant 0 <= i <= |subs|
      invariant pollMs == MinPoll(subs[..i])
    {
      assert subs[..i + 1][..i] == subs[..i];
      if Polls(subs[i]) {
        pollMs := if pollMs.None? || subs[i].pollMs.value < pollMs.value then subs[i].pollMs else pollMs;
      }
      i := i + 1;
    }
    assert subs[..i] == subs;
  }

  method PickFetcherEntry(subs: seq<Sub>) returns (entry: Option<Listener>)
    ensures entry == Pick(subs)
  {
    var i := 0;
    while i < |subs|
      invariant 0 <= i <= |subs|
      invariant FirstPolling(subs) == FirstPolling(subs[i..])
    {
      assert subs[i..][1..] == subs[i + 1..];
      if Polls(subs[i]) { return Some(subs[i].listener); }
      i := i + 1;
    }
    entry := if subs != [] then Some(subs[0].listener) else None;
  }
}
