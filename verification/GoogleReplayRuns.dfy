/**
 * What the replay cache guarantees over whole runs of observations, requests and clears:
 * it never outgrows its bound, and a signature put on a call is the last one observed for that
 * model, session, name and arguments.
 */
module GoogleReplayRuns {
  import opened Prelude
  import opened CanonicalJson
  import opened CallKey
  import opened GoogleReplay

  // ---------------------------------------------------------------------------
  // Slots have distinct keys
  // ---------------------------------------------------------------------------

  predicate Absent(key: Str, slots: seq<Slot>) {
    forall s :: s in slots ==> s.key != key
  }

  predicate Unique(slots: seq<Slot>) {
    slots == [] || (Absent(slots[0].key, slots[1..]) && Unique(slots[1..]))
  }

  lemma {:induction false} LookupFinds(slots: seq<Slot>, s: Slot)
    requires Unique(slots) && s in slots
    ensures Lookup(slots, s.key) == Some(s)
  {
    if s != slots[0] {
      assert s in slots[1..];
      LookupFinds(slots[1..], s);
    }
  }

  lemma {:induction false} StoredMembers(slots: seq<Slot>, slot: Slot)
    requires Unique(slots)
    ensures var r := Stored(slots, slot);
      && Unique(r) && slot in r && |r| == |slots| + (if Absent(slot.key, slots) then 1 else 0)
      && (forall s :: s in r ==> s == slot || (s in slots && s.key != slot.key))
  {
    var r := Stored(slots, slot);
    if slots != [] {
      if slots[0].key == slot.key {
        assert r[1..] == slots[1..];
      } else {
        StoredMembers(slots[1..], slot);
        assert r[1..] == Stored(slots[1..], slot);
        assert slot in r[1..];
      }
    }
  }

  lemma {:induction false} DeletedMembers(slots: seq<Slot>, key: Str)
    requires Unique(slots)
    ensures var r := Deleted(slots, key);
      && Unique(r) && |r| == |slots| - (if Absent(key, slots) then 0 else 1)
      && (forall s :: s in r <==> s in slots && s.key != key)
  {
    if slots != [] {
      DeletedMembers(slots[1..], key);
      var r := Deleted(slots, key);
      assert forall s :: s in slots <==> s == slots[0] || s in slots[1..];
      if slots[0].key != key {
        assert r[1..] == Deleted(slots[1..], key);
        assert forall s :: s in r <==> s == r[0] || s in r[1..];
      } else {
        assert r == Deleted(slots[1..], key);
      }
    }
  }

  // ---------------------------------------------------------------------------
  // Eviction
  // ---------------------------------------------------------------------------

  predicate Aged(slots: seq<Slot>) {
    slots == [] || ((forall s :: s in slots[1..] ==> slots[0].expires <= s.expires) && Aged(slots[1..]))
  }

  lemma {:induction false} InsertedMembers(s: Slot, sorted: seq<Slot>)
    requires Aged(sorted) && Unique(sorted) && Absent(s.key, sorted)
    ensures var r := InsertByExpiry(s, sorted);
      && Aged(r) && Unique(r) && forall x :: x in r <==> x == s || x in sorted
  {
    var r := InsertByExpiry(s, sorted);
    if sorted == [] || s.expires <= sorted[0].expires {
      assert r[1..] == sorted;
    } else {
      InsertedMembers(s, sorted[1..]);
      assert r[1..] == InsertByExpiry(s, sorted[1..]);
      assert forall x :: x in r <==> x == sorted[0] || x in r[1..];
      assert forall x :: x in sorted <==> x == sorted[0] || x in sorted[1..];
    }
  }

  lemma {:induction false} ByExpiryMembers(slots: seq<Slot>)
    requires Unique(slots)
    ensures var r := ByExpiry(slots); Aged(r) && Unique(r) && forall x :: x in r <==> x in slots
  {
    hide InsertByExpiry, Aged;
    if slots != [] {
      ByExpiryMembers(slots[1..]);
      InsertedMembers(slots[0], ByExpiry(slots[1..]));
    } else {
      NothingIsAged();
    }
  }

  lemma NothingIsAged()
    ensures Aged([])
  {
  }

  lemma {:induction false} DeletedAllMembers(slots: seq<Slot>, doomed: seq<Slot>)
    requires Unique(slots) && Unique(doomed) && forall s :: s in doomed ==> s in slots
    ensures var r := DeletedAll(slots, doomed);
      && Unique(r) && |r| == |slots| - |doomed|
      && forall s :: s in r <==> s in slots && s !in doomed
    decreases doomed
  {
    hide Deleted;
    if doomed != [] {
      var d, less := doomed[0], Deleted(slots, doomed[0].key);
      DeletedMembers(slots, d.key);
      forall s | s in doomed[1..] ensures s in less {
        assert s.key != d.key;
      }
      DeletedAllMembers(less, doomed[1..]);
      forall s | s in slots ensures s.key == d.key <==> s == d {
        if s.key == d.key { LookupFinds(slots, s); LookupFinds(slots, d); }
      }
    }
  }

  /** Eviction keeps the bound, and no evicted slot expires after a kept one. */
  lemma EvictionDropsTheOldest(slots: seq<Slot>)
    requires Unique(slots)
    ensures var kept := Evicted(slots);
      && Unique(kept)
      && |kept| == (if |slots| <= REPLAY_MAX_ENTRIES then |slots| else |slots| - REPLAY_EVICT_BATCH)
      && (forall s :: s in kept ==> s in slots)
      && (forall s, t :: s in slots && s !in kept && t in kept ==> s.expires <= t.expires)
  {
    hide ByExpiry, DeletedAll, Unique;
    if |slots| > REPLAY_MAX_ENTRIES {
      var sorted := ByExpiry(slots);
      ByExpiryMembers(slots);
      var doomed := sorted[..REPLAY_EVICT_BATCH];
      UniquePrefix(sorted, REPLAY_EVICT_BATCH);
      DeletedAllMembers(slots, doomed);
      forall s, t | s in slots && s in doomed && t in slots && t !in doomed ensures s.expires <= t.expires {
        OldestFirst(sorted, REPLAY_EVICT_BATCH, s, t);
      }
    }
  }

  lemma {:induction false} OldestFirst(sorted: seq<Slot>, n: nat, s: Slot, t: Slot)
    requires Aged(sorted) && n <= |sorted| && s in sorted[..n] && t in sorted && t !in sorted[..n]
    ensures s.expires <= t.expires
  {
    assert sorted[..n] == [sorted[0]] + sorted[1..][..n - 1];
    assert sorted == [sorted[0]] + sorted[1..];
    if s != sorted[0] { OldestFirst(sorted[1..], n - 1, s, t); }
  }

  lemma {:induction false} UniquePrefix(slots: seq<Slot>, n: nat)
    requires Unique(slots) && n <= |slots|
    ensures Unique(slots[..n])
  {
    if n > 0 {
      UniquePrefix(slots[1..], n - 1);
      assert slots[..n][1..] == slots[1..][..n - 1];
    }
  }

  // ---------------------------------------------------------------------------
  // Runs
  // ---------------------------------------------------------------------------

  datatype Event =
    | Observe(now: int, model: Str, session: Str, parts: Option<seq<Part>>)
    | Apply(now: int, model: Str, session: Str)
    | Clear(model: Str, session: Str)

  function After(slots: seq<Slot>, e: Event): seq<Slot> {
    match e
    case Observe(now, model, session, parts) => Observed(slots, now, model, session, parts)
    case Apply(now, model, session) => AfterApply(slots, now, model, session)
    case Clear(model, session) => Deleted(slots, ReplayKey(model, session))
  }

  /** The cache after a run, starting empty. */
  function Run(events: seq<Event>): seq<Slot> {
    if events == [] then [] else After(Run(events[..|events| - 1]), events[|events| - 1])
  }

  /** The last signature a list of parts gives for a call key. */
  function LastForKey(parts: seq<Part>, ck: Str): (sig: Option<Str>)
    ensures sig.Some? ==> |sig.value| >= MIN_SIGNATURE_LEN
  {
    if parts == [] then None
    else if LastForKey(parts[1..], ck).Some? then LastForKey(parts[1..], ck)
    else if Signs(parts[0]) && KeyOf(parts[0]) == Some(ck) then ExtractSignature(parts[0])
    else None
  }

  function GivenFor(e: Event, key: Str, ck: Str): (sig: Option<Str>)
    ensures sig.Some? ==> |sig.value| >= MIN_SIGNATURE_LEN
  {
    if e.Observe? && UsesReplayCache(e.model) && e.parts.Some? && ReplayKey(e.model, e.session) == key
    then LastForKey(e.parts.value, ck) else None
  }

  /** The last signature a run gave for a slot key and a call key. */
  function LastGiven(events: seq<Event>, key: Str, ck: Str): (sig: Option<Str>)
    ensures sig.Some? ==> |sig.value| >= MIN_SIGNATURE_LEN
  {
    if events == [] then None
    else
      var last := GivenFor(events[|events| - 1], key, ck);
      if last.Some? then last else LastGiven(events[..|events| - 1], key, ck)
  }

  lemma {:induction false} RecordedIs(byCall: map<Str, Str>, parts: seq<Part>, ck: Str)
    ensures var r, last := RecordedAll(byCall, parts), LastForKey(parts, ck);
      && (ck in r <==> ck in byCall || last.Some?)
      && (ck in r ==> r[ck] == if last.Some? then last.value else byCall[ck])
    decreases parts
  {
    hide KeyOf, ExtractSignature;
    if parts != [] { RecordedIs(Recorded(byCall, parts[0]), parts[1..], ck); }
  }

  lemma {:induction false} NothingNew(byCall: map<Str, Str>, parts: seq<Part>)
    requires !Changes(byCall, parts)
    ensures RecordedAll(byCall, parts) == byCall
    decreases parts
  {
    hide Recorded;
    if parts != [] { NothingNew(byCall, parts[1..]); }
  }

  /** Every remembered signature is the last one given. */
  predicate Current(s: Slot, events: seq<Event>) {
    forall ck :: ck in s.byCall ==> LastGiven(events, s.key, ck) == Some(s.byCall[ck])
  }

  predicate Tracks(slots: seq<Slot>, events: seq<Event>) {
    && Unique(slots) && |slots| <= REPLAY_MAX_ENTRIES
    && forall s :: s in slots ==> Current(s, events)
  }

  lemma OneMore(events: seq<Event>, e: Event, key: Str, ck: Str)
    ensures LastGiven(events + [e], key, ck) ==
      if GivenFor(e, key, ck).Some? then GivenFor(e, key, ck) else LastGiven(events, key, ck)
  {
    assert (events + [e])[..|events|] == events;
  }

  /** A slot an event gives nothing for stays current. */
  lemma StaysCurrent(s: Slot, events: seq<Event>, e: Event)
    requires Current(s, events) && forall ck :: ck in s.byCall ==> GivenFor(e, s.key, ck).None?
    ensures Current(s, events + [e])
  {
    hide GivenFor, LastGiven;
    forall ck | ck in s.byCall ensures LastGiven(events + [e], s.key, ck) == Some(s.byCall[ck]) {
      OneMore(events, e, s.key, ck);
    }
  }

  /** A slot that took in everything an observation gave is current. */
  lemma TakesIn(before: map<Str, Str>, s: Slot, events: seq<Event>, e: Event)
    requires e.Observe? && UsesReplayCache(e.model) && e.parts.Some?
    requires s.key == ReplayKey(e.model, e.session) && s.byCall == RecordedAll(before, e.parts.value)
    requires forall ck :: ck in before ==> LastGiven(events, s.key, ck) == Some(before[ck])
    ensures Current(s, events + [e])
  {
    hide LastForKey, LastGiven, RecordedAll, UsesReplayCache;
    forall ck | ck in s.byCall ensures LastGiven(events + [e], s.key, ck) == Some(s.byCall[ck]) {
      OneMore(events, e, s.key, ck);
      RecordedIs(before, e.parts.value, ck);
    }
  }

  lemma ObserveTracks(slots: seq<Slot>, events: seq<Event>, e: Event)
    requires Tracks(slots, events) && e.Observe?
    requires UsesReplayCache(e.model) && e.parts.Some? && e.parts.value != []
    ensures Tracks(After(slots, e), events + [e])
  {
    hide UsesReplayCache, RecordedAll, Changes, Unique, Stored, Evicted, Current, LastForKey, ReplayKey;
    var key := ReplayKey(e.model, e.session);
    var entry := Lookup(slots, key);
    var before: map<Str, Str> := if entry.Some? then entry.value.byCall else map[];
    if entry.Some? { CurrentMeans(entry.value, events); }
    var slot := Slot(key, RecordedAll(before, e.parts.value), e.now + REPLAY_TTL_MS);
    TakesIn(before, slot, events, e);
    forall s | s in slots && s.key != key ensures Current(s, events + [e]) {
      StaysCurrent(s, events, e);
    }
    if !Changes(before, e.parts.value) && entry.Some? {
      NothingNew(before, e.parts.value);
      TakesIn(before, entry.value, events, e);
      forall s | s in slots ensures Current(s, events + [e]) {
        LookupFinds(slots, s);
      }
    } else {
      StoredMembers(slots, slot);
      EvictionDropsTheOldest(Stored(slots, slot));
    }
  }

  lemma CurrentMeans(s: Slot, events: seq<Event>)
    requires Current(s, events)
    ensures forall ck :: ck in s.byCall ==> LastGiven(events, s.key, ck) == Some(s.byCall[ck])
  {
  }

  lemma AfterTracks(slots: seq<Slot>, events: seq<Event>, e: Event)
    requires Tracks(slots, events)
    ensures Tracks(After(slots, e), events + [e])
  {
    hide UsesReplayCache, Unique, Current, ReplayKey, RecordedAll, Changes, Stored, Evicted;
    if e.Observe? && UsesReplayCache(e.model) && e.parts.Some? && e.parts.value != [] {
      ObserveTracks(slots, events, e);
    } else {
      forall s | s in slots ensures Current(s, events + [e]) {
        StaysCurrent(s, events, e);
      }
      if !e.Observe? { DeletedMembers(slots, ReplayKey(e.model, e.session)); }
    }
  }

  /** In every run the cache stays within its bound and remembers only last-given signatures. */
  lemma {:induction false} RunTracks(events: seq<Event>)
    ensures Tracks(Run(events), events)
  {
    hide After, Current;
    if events != [] {
      var init, e := events[..|events| - 1], events[|events| - 1];
      RunTracks(init);
      AfterTracks(Run(init), init, e);
      assert init + [e] == events;
    }
  }

  // ---------------------------------------------------------------------------
  // Which models and sessions share a slot
  // ---------------------------------------------------------------------------

  /** Two models whose slot keys can meet. */
  predicate Collide(m: Str, n: Str) {
    m != n && (m + SESSION_MARK <= n + SESSION_MARK || n + SESSION_MARK <= m + SESSION_MARK)
  }

  lemma SessionKeyIsExact(m: Str, s: Str, n: Str, t: Str)
    requires !Collide(m, n)
    ensures ReplayKey(m, s) == ReplayKey(n, t) <==> m == n && s == t
  {
    if ReplayKey(m, s) == ReplayKey(n, t) {
      var key, a, b := ReplayKey(m, s), m + SESSION_MARK, n + SESSION_MARK;
      assert a == key[..|a|] && b == key[..|b|];
      assert s == key[|a|..] && t == key[|b|..];
      assert |a| <= |b| ==> a == b[..|a|];
      assert |b| <= |a| ==> b == a[..|b|];
    }
  }

  /** The guard is exact: colliding models do share a slot for some sessions. */
  lemma CollidingModelsShareASlot(m: Str, n: Str)
    requires Collide(m, n)
    ensures exists s, t :: ReplayKey(m, s) == ReplayKey(n, t)
  {
    var a, b := m + SESSION_MARK, n + SESSION_MARK;
    if a <= b {
      assert ReplayKey(m, b[|a|..]) == b + [] == ReplayKey(n, []);
    } else {
      assert ReplayKey(n, a[|b|..]) == a + [] == ReplayKey(m, []);
    }
  }

  // ---------------------------------------------------------------------------
  // The replay is faithful
  // ---------------------------------------------------------------------------

  predicate ProperPart(part: Part) {
    part.Part? && part.call.Some? ==> Proper(ArgsOf(part.call.value.args))
  }

  predicate ProperEvent(e: Event) {
    e.Observe? && e.parts.Some? ==> forall i :: 0 <= i < |e.parts.value| ==> ProperPart(e.parts.value[i])
  }

  /** The part makes this call: same name, arguments equal up to key order. */
  predicate Calls(part: Part, name: Str, args: Option<Json>) {
    && part.Part? && part.call.Some? && part.call.value.name == Some(Text(name))
    && Meaning(ArgsOf(part.call.value.args)) == Meaning(ArgsOf(args))
  }

  /** The last signature a list of parts carries for a call. */
  function LastSigned(parts: seq<Part>, name: Str, args: Option<Json>): Option<Str> {
    if parts == [] then None
    else if LastSigned(parts[1..], name, args).Some? then LastSigned(parts[1..], name, args)
    else if Calls(parts[0], name, args) then ExtractSignature(parts[0])
    else None
  }

  /** The last signature a run observed for a model, session and call. */
  function LastSeen(events: seq<Event>, model: Str, session: Str, name: Str, args: Option<Json>): Option<Str> {
    if events == [] then None
    else
      var e := events[|events| - 1];
      var last := if e.Observe? && e.model == model && e.session == session && e.parts.Some?
        then LastSigned(e.parts.value, name, args) else None;
      if last.Some? then last else LastSeen(events[..|events| - 1], model, session, name, args)
  }

  lemma KeyMeansCall(part: Part, name: Str, args: Option<Json>)
    requires ProperPart(part) && Proper(ArgsOf(args)) && name != []
    ensures KeyOf(part).Some? && KeyOf(part) == FunctionCallKey(Some(Text(name)), args) <==> Calls(part, name, args)
  {
    hide Canonical, Meaning, ArgsOf, Proper;
    if part.Part? && part.call.Some? {
      var call := part.call.value;
      if call.name.Some? && call.name.value.Text? && call.name.value.s != [] {
        KeyIsExact(call.name.value.s, name, call.args, args);
      }
    }
  }

  lemma {:induction false} LastSignedIs(parts: seq<Part>, name: Str, args: Option<Json>)
    requires forall i :: 0 <= i < |parts| ==> ProperPart(parts[i])
    requires Proper(ArgsOf(args)) && name != []
    ensures LastForKey(parts, FunctionCallKey(Some(Text(name)), args).value) == LastSigned(parts, name, args)
  {
    hide KeyOf, Calls, ProperPart, Proper, ArgsOf, ExtractSignature, Canonical;
    if parts != [] {
      LastSignedIs(parts[1..], name, args);
      KeyMeansCall(parts[0], name, args);
      if Calls(parts[0], name, args) { CallsAPart(parts[0], name, args); }
    }
  }

  lemma CallsAPart(part: Part, name: Str, args: Option<Json>)
    requires Calls(part, name, args)
    ensures part.Part?
  {
  }

  lemma {:induction false} LastSeenIs(events: seq<Event>, model: Str, session: Str, name: Str, args: Option<Json>)
    requires UsesReplayCache(model) && Proper(ArgsOf(args)) && name != []
    requires forall i :: 0 <= i < |events| ==> ProperEvent(events[i])
    requires forall i :: 0 <= i < |events| && events[i].Observe? ==> !Collide(events[i].model, model)
    ensures LastGiven(events, ReplayKey(model, session), FunctionCallKey(Some(Text(name)), args).value)
         == LastSeen(events, model, session, name, args)
  {
    hide UsesReplayCache, Proper, ArgsOf, Collide, Canonical, LastForKey, LastSigned, ReplayKey, FunctionCallKey;
    KeyOfName(name, args);
    if events != [] {
      var e := events[|events| - 1];
      LastSeenIs(events[..|events| - 1], model, session, name, args);
      if e.Observe? {
        assert ProperEvent(e);
        SessionKeyIsExact(e.model, e.session, model, session);
        if e.parts.Some? { LastSignedIs(e.parts.value, name, args); }
      }
    }
  }

  lemma KeyOfName(name: Str, args: Option<Json>)
    requires name != []
    ensures FunctionCallKey(Some(Text(name)), args).Some?
  {
  }

  /** An unsigned call in a model turn. */
  predicate Unsigned(c: Content, part: Part) {
    && c.Content? && c.role == Some(MODEL_ROLE)
    && part.Part? && part.call.Some? && part.camel.None? && part.snake.None?
  }

  /** The signature a request part is to get from these remembered calls. */
  function Owed(byCall: map<Str, Str>, c: Content, part: Part): Option<Str> {
    if Unsigned(c, part) && KeyOf(part).Some? && KeyOf(part).value in byCall && byCall[KeyOf(part).value] != []
    then Some(byCall[KeyOf(part).value]) else None
  }

  predicate HasPart(contents: seq<Content>, i: nat, j: nat) {
    i < |contents| && contents[i].Content? && contents[i].parts.Some? && j < |contents[i].parts.value|
  }

  /**
   * The request as a whole: at every position of every content the part carries what it is owed by
   * the live slot, and is otherwise as it was; nothing is added, dropped or moved.
   */
  lemma RequestIsFilled(slots: seq<Slot>, now: int, model: Str, session: Str, contents: seq<Content>)
    ensures var out, byCall := Replayed(slots, now, model, session, contents), Live(slots, now, model, session);
      && |out| == |contents|
      && (forall i: nat :: i < |out| ==>
            if contents[i].Content? && contents[i].parts.Some?
            then out[i].Content? && out[i].role == contents[i].role && out[i].parts.Some?
                 && |out[i].parts.value| == |contents[i].parts.value|
            else out[i] == contents[i])
      && (forall i: nat, j: nat :: HasPart(contents, i, j) ==>
            var part := contents[i].parts.value[j];
            out[i].parts.value[j] == match Owed(byCall, contents[i], part)
              case Some(sig) => part.(camel := Some(Text(sig)))
              case None => part)
  {
    hide Live, KeyOf;
    var out, byCall := Replayed(slots, now, model, session, contents), Live(slots, now, model, session);
    forall i: nat, j: nat | HasPart(contents, i, j)
      ensures out[i].Content? && out[i].parts.Some? && |out[i].parts.value| == |contents[i].parts.value|
      ensures var part := contents[i].parts.value[j];
        out[i].parts.value[j] == match Owed(byCall, contents[i], part)
          case Some(sig) => part.(camel := Some(Text(sig)))
          case None => part
    {
      assert out[i] == InjectContent(byCall, contents[i]);
    }
  }

  // ---------------------------------------------------------------------------
  // What a slot remembers, exactly
  // ---------------------------------------------------------------------------

  /** The last signature given for a slot key and a call key since that slot was last created. */
  function GivenSince(events: seq<Event>, key: Str, ck: Str): Option<Str> {
    if events == [] || Lookup(Run(events), key).None? then None
    else
      var last := GivenFor(events[|events| - 1], key, ck);
      if last.Some? then last else GivenSince(events[..|events| - 1], key, ck)
  }

  /** The slot remembers exactly these. */
  ghost predicate Holds(s: Slot, events: seq<Event>) {
    forall ck :: GivenSince(events, s.key, ck) == if ck in s.byCall then Some(s.byCall[ck]) else None
  }

  ghost predicate AllHold(slots: seq<Slot>, events: seq<Event>) {
    forall s :: s in slots ==> Holds(s, events)
  }

  /** A slot after an event: one the event left alone, or one that took in all it gave. */
  lemma SlotAfter(slots: seq<Slot>, e: Event, s: Slot)
    requires Unique(slots) && s in After(slots, e)
    ensures
      if e.Observe? && UsesReplayCache(e.model) && e.parts.Some? && ReplayKey(e.model, e.session) == s.key then
        var entry := Lookup(slots, s.key);
        s.byCall == RecordedAll(if entry.Some? then entry.value.byCall else map[], e.parts.value)
      else s in slots
  {
    hide UsesReplayCache, RecordedAll, Changes, Unique, Stored, Evicted, Deleted, ReplayKey, Lookup;
    if e.Observe? {
      if UsesReplayCache(e.model) && e.parts.Some? {
        if e.parts.value == [] { NothingRecorded(slots, s); } else { ObservedAfter(slots, e, s); }
      }
    } else {
      DeletedMembers(slots, ReplayKey(e.model, e.session));
    }
  }

  lemma NothingRecorded(slots: seq<Slot>, s: Slot)
    requires Unique(slots) && s in slots
    ensures Lookup(slots, s.key) == Some(s) && RecordedAll(s.byCall, []) == s.byCall
  {
    LookupFinds(slots, s);
  }

  lemma ObservedAfter(slots: seq<Slot>, e: Event, s: Slot)
    requires Unique(slots) && e.Observe? && UsesReplayCache(e.model) && e.parts.Some? && e.parts.value != [] && s in After(slots, e)
    ensures
      if ReplayKey(e.model, e.session) == s.key then
        var entry := Lookup(slots, s.key);
        s.byCall == RecordedAll(if entry.Some? then entry.value.byCall else map[], e.parts.value)
      else s in slots
  {
    hide UsesReplayCache, RecordedAll, Changes, Unique, Stored, Evicted, ReplayKey, Lookup;
    var key := ReplayKey(e.model, e.session);
    var entry := Lookup(slots, key);
    var before: map<Str, Str> := if entry.Some? then entry.value.byCall else map[];
    if Changes(before, e.parts.value) || entry.None? {
      var slot := Slot(key, RecordedAll(before, e.parts.value), e.now + REPLAY_TTL_MS);
      StoredMembers(slots, slot);
      EvictionDropsTheOldest(Stored(slots, slot));
    } else {
      NothingNew(before, e.parts.value);
      LookupFinds(slots, s);
    }
  }

  lemma HoldsAfter(events: seq<Event>, s: Slot)
    requires events != [] && s in Run(events)
    requires AllHold(Run(events[..|events| - 1]), events[..|events| - 1])
    ensures Holds(s, events)
  {
    hide Run, Holds, GivenSince, UsesReplayCache, ReplayKey, RecordedAll, LastForKey;
    var before, e := events[..|events| - 1], events[|events| - 1];
    RunTracks(before);
    RunTracks(events);
    assert Run(events) == After(Run(before), e) by { RunLast(events); }
    LookupFinds(Run(events), s);
    SlotAfter(Run(before), e, s);
    hide After;
    forall ck ensures GivenSince(events, s.key, ck) == if ck in s.byCall then Some(s.byCall[ck]) else None {
      SinceLast(events, s.key, ck);
      var entry := Lookup(Run(before), s.key);
      if e.Observe? && UsesReplayCache(e.model) && e.parts.Some? && ReplayKey(e.model, e.session) == s.key {
        RecordedIs(if entry.Some? then entry.value.byCall else map[], e.parts.value, ck);
      } else {
        LookupFinds(Run(before), s);
      }
      if entry.Some? { HoldsMeans(entry.value, before, ck); } else { SinceNothing(before, s.key, ck); }
    }
    HoldsIf(s, events);
  }

  lemma RunLast(events: seq<Event>)
    requires events != []
    ensures Run(events) == After(Run(events[..|events| - 1]), events[|events| - 1])
  {
  }

  lemma SinceLast(events: seq<Event>, key: Str, ck: Str)
    requires events != [] && Lookup(Run(events), key).Some?
    ensures GivenSince(events, key, ck) ==
      var last := GivenFor(events[|events| - 1], key, ck);
      if last.Some? then last else GivenSince(events[..|events| - 1], key, ck)
  {
  }

  lemma SinceNothing(events: seq<Event>, key: Str, ck: Str)
    requires Lookup(Run(events), key).None?
    ensures GivenSince(events, key, ck).None?
  {
  }

  lemma HoldsMeans(s: Slot, events: seq<Event>, ck: Str)
    requires Holds(s, events)
    ensures GivenSince(events, s.key, ck) == if ck in s.byCall then Some(s.byCall[ck]) else None
  {
  }

  lemma HoldsIf(s: Slot, events: seq<Event>)
    requires forall ck :: GivenSince(events, s.key, ck) == if ck in s.byCall then Some(s.byCall[ck]) else None
    ensures Holds(s, events)
  {
  }

  /** In every run a slot remembers exactly the signatures given since it was last created, the last one for each call. */
  lemma {:induction false} RunHolds(events: seq<Event>)
    ensures AllHold(Run(events), events)
  {
    hide After, Holds;
    if events != [] {
      RunHolds(events[..|events| - 1]);
      forall s | s in Run(events) { HoldsAfter(events, s); }
    }
  }

  /** The last signature a run observed for a model, session and call since their slot was last created. */
  function SeenSince(events: seq<Event>, model: Str, session: Str, name: Str, args: Option<Json>): Option<Str> {
    if events == [] || Lookup(Run(events), ReplayKey(model, session)).None? then None
    else
      var e := events[|events| - 1];
      var last := if e.Observe? && e.model == model && e.session == session && e.parts.Some?
        then LastSigned(e.parts.value, name, args) else None;
      if last.Some? then last else SeenSince(events[..|events| - 1], model, session, name, args)
  }

  lemma {:induction false} SeenSinceIs(events: seq<Event>, model: Str, session: Str, name: Str, args: Option<Json>)
    requires UsesReplayCache(model) && Proper(ArgsOf(args)) && name != []
    requires forall i :: 0 <= i < |events| ==> ProperEvent(events[i])
    requires forall i :: 0 <= i < |events| && events[i].Observe? ==> !Collide(events[i].model, model)
    ensures GivenSince(events, ReplayKey(model, session), FunctionCallKey(Some(Text(name)), args).value)
         == SeenSince(events, model, session, name, args)
    ensures SeenSince(events, model, session, name, args).Some? ==>
      SeenSince(events, model, session, name, args) == LastSeen(events, model, session, name, args)
  {
    hide UsesReplayCache, Proper, ArgsOf, Collide, Canonical, LastForKey, LastSigned, ReplayKey, FunctionCallKey, Run;
    KeyOfName(name, args);
    if events != [] {
      var e := events[|events| - 1];
      SeenSinceIs(events[..|events| - 1], model, session, name, args);
      if e.Observe? {
        assert ProperEvent(e);
        SessionKeyIsExact(e.model, e.session, model, session);
        if e.parts.Some? { LastSignedIs(e.parts.value, name, args); }
      }
    }
  }

  /** The signature a part is owed after a run, said of the observed events alone. */
  function OwedAfter(events: seq<Event>, now: int, model: Str, session: Str, c: Content, part: Part): Option<Str> {
    var last := LastChange(events, ReplayKey(model, session));
    if Unsigned(c, part) && UsesReplayCache(model) && last.Some? && now < last.value + REPLAY_TTL_MS
       && part.call.value.name.Some? && part.call.value.name.value.Text? && part.call.value.name.value.s != []
    then SeenSince(events, model, session, part.call.value.name.value.s, part.call.value.args) else None
  }

  /** What the live slot owes a part is what the events say. */
  lemma OwedIs(events: seq<Event>, now: int, model: Str, session: Str, c: Content, part: Part)
    requires ProperPart(part)
    requires forall k :: 0 <= k < |events| ==> ProperEvent(events[k])
    requires forall k :: 0 <= k < |events| && events[k].Observe? ==> !Collide(events[k].model, model)
    ensures Owed(Live(Run(events), now, model, session), c, part) == OwedAfter(events, now, model, session, c, part)
    ensures OwedAfter(events, now, model, session, c, part).Some? ==>
      |OwedAfter(events, now, model, session, c, part).value| >= MIN_SIGNATURE_LEN
  {
    hide Run, ProperEvent, Proper, ArgsOf, Collide, Canonical, ReplayKey, LastChange, GivenSince, UsesReplayCache, Holds;
    if Unsigned(c, part) && KeyOf(part).Some? && UsesReplayCache(model) {
      var name, args := part.call.value.name.value.s, part.call.value.args;
      var key, ck := ReplayKey(model, session), KeyOf(part).value;
      SeenSinceIs(events, model, session, name, args);
      var entry := Lookup(Run(events), key);
      if entry.Some? {
        RunHolds(events);
        HoldsMeans(entry.value, events, ck);
        ExpiresAfterLastChange(events, entry.value);
        if GivenSince(events, key, ck).Some? { GivenSinceText(events, key, ck); }
      } else {
        SinceNothing(events, key, ck);
      }
    }
  }

  lemma {:induction false} GivenSinceText(events: seq<Event>, key: Str, ck: Str)
    requires GivenSince(events, key, ck).Some?
    ensures |GivenSince(events, key, ck).value| >= MIN_SIGNATURE_LEN
  {
    hide Run;
    if GivenFor(events[|events| - 1], key, ck).None? { GivenSinceText(events[..|events| - 1], key, ck); }
  }

  /**
   * After any run, for models that do not collide: a part of the request is signed if and only if it
   * is an unsigned call of a model turn, the slot of its model and session is within its hour, and a
   * signature for its name and arguments, key order aside, was observed since that slot was created;
   * it then gets the last one observed for that model, session and call, where an observation of the
   * same part would find it. Every other part stays.
   */
  lemma ReplayIsFaithful(events: seq<Event>, now: int, model: Str, session: Str, contents: seq<Content>, i: nat, j: nat)
    requires HasPart(contents, i, j) && ProperPart(contents[i].parts.value[j])
    requires forall k :: 0 <= k < |events| ==> ProperEvent(events[k])
    requires forall k :: 0 <= k < |events| && events[k].Observe? ==> !Collide(events[k].model, model)
    ensures var c, out := contents[i], Replayed(Run(events), now, model, session, contents);
      var part := c.parts.value[j];
      var sig := OwedAfter(events, now, model, session, c, part);
      && |Run(events)| <= REPLAY_MAX_ENTRIES
      && |out| == |contents| && out[i].Content? && out[i].role == c.role
      && out[i].parts.Some? && |out[i].parts.value| == |c.parts.value|
      && out[i].parts.value[j] == (if sig.Some? then part.(camel := Some(Text(sig.value))) else part)
      && (sig.Some? ==> sig == LastSeen(events, model, session, part.call.value.name.value.s, part.call.value.args))
      && (sig.Some? ==> ExtractSignature(out[i].parts.value[j]) == sig)
  {
    hide Run, Live, Replayed, ProperEvent, Collide, Current, Unique, SeenSince, LastSeen, LastChange, Owed, KeyOf, ReplayKey, UsesReplayCache, Proper, ArgsOf;
    RunTracks(events);
    var c, part := contents[i], contents[i].parts.value[j];
    RequestIsFilled(Run(events), now, model, session, contents);
    OwedIs(events, now, model, session, c, part);
    if OwedAfter(events, now, model, session, c, part).Some? {
      SeenSinceIs(events, model, session, part.call.value.name.value.s, part.call.value.args);
    }
  }

  /**
   * What one observation records, the next request gets, at every position: each unsigned call of a
   * model turn that the parts signed carries the last signature they gave it, if and only if the slot
   * is still there and within its hour.
   */
  lemma ObservedIsReplayed(slots: seq<Slot>, now: int, later: int, model: Str, session: Str, parts: seq<Part>,
                           contents: seq<Content>, i: nat, j: nat)
    requires Unique(slots) && UsesReplayCache(model) && HasPart(contents, i, j)
    requires var part := contents[i].parts.value[j];
      Unsigned(contents[i], part) && KeyOf(part).Some? && LastForKey(parts, KeyOf(part).value).Some?
    ensures var after := Observed(slots, now, model, session, Some(parts));
      var entry := Lookup(after, ReplayKey(model, session));
      var part := contents[i].parts.value[j];
      Replayed(after, later, model, session, contents)[i].parts.value[j] ==
        if entry.Some? && entry.value.expires > later
        then part.(camel := Some(Text(LastForKey(parts, KeyOf(part).value).value))) else part
  {
    hide UsesReplayCache, KeyOf, LastForKey, Unique, ReplayKey, Lookup, Observed, Replayed;
    var part := contents[i].parts.value[j];
    ObservedSlot(slots, now, model, session, parts, KeyOf(part).value);
    RequestIsFilled(Observed(slots, now, model, session, Some(parts)), later, model, session, contents);
  }

  /** The observed slot, if it is still there, remembers the last signature given for a call. */
  lemma ObservedSlot(slots: seq<Slot>, now: int, model: Str, session: Str, parts: seq<Part>, ck: Str)
    requires Unique(slots) && UsesReplayCache(model) && LastForKey(parts, ck).Some?
    ensures var entry := Lookup(Observed(slots, now, model, session, Some(parts)), ReplayKey(model, session));
      entry.Some? ==> ck in entry.value.byCall && entry.value.byCall[ck] == LastForKey(parts, ck).value
  {
    hide UsesReplayCache, LastForKey, RecordedAll, Changes, Stored, Evicted, Unique, ReplayKey, Lookup;
    var key := ReplayKey(model, session);
    var entry := Lookup(slots, key);
    var before: map<Str, Str> := if entry.Some? then entry.value.byCall else map[];
    var slot := Slot(key, RecordedAll(before, parts), now + REPLAY_TTL_MS);
    RecordedIs(before, parts, ck);
    SomeParts(parts, ck);
    if !Changes(before, parts) && entry.Some? {
      NothingNew(before, parts);
    } else {
      StoredMembers(slots, slot);
      EvictionDropsTheOldest(Stored(slots, slot));
      var kept := Lookup(Evicted(Stored(slots, slot)), key);
      if kept.Some? {
        LookupFinds(Stored(slots, slot), kept.value);
        LookupFinds(Stored(slots, slot), slot);
      }
    }
  }

  lemma SomeParts(parts: seq<Part>, ck: Str)
    requires LastForKey(parts, ck).Some?
    ensures parts != []
  {
  }

  // ---------------------------------------------------------------------------
  // Clearing
  // ---------------------------------------------------------------------------

  /**
   * After a clear, requests for that model and session go out unsigned at any time, and exactly the
   * requests whose slot key differs are filled as before; without colliding models those are the
   * requests for any other model or session.
   */
  lemma ClearForgetsOne(slots: seq<Slot>, model: Str, session: Str, later: int, contents: seq<Content>, n: Str, t: Str)
    ensures var after := Deleted(slots, ReplayKey(model, session));
      && Replayed(after, later, model, session, contents) == contents
      && (ReplayKey(n, t) != ReplayKey(model, session) ==>
            Replayed(after, later, n, t, contents) == Replayed(slots, later, n, t, contents))
      && (!Collide(model, n) && (n != model || t != session) ==> ReplayKey(n, t) != ReplayKey(model, session))
  {
    hide UsesReplayCache, ReplayKey, Collide, InjectAll;
    DeletedLookup(slots, ReplayKey(model, session), ReplayKey(model, session));
    DeletedLookup(slots, ReplayKey(model, session), ReplayKey(n, t));
    InjectNothing(contents);
    if !Collide(model, n) { SessionKeyIsExact(model, session, n, t); }
  }

  // ---------------------------------------------------------------------------
  // Expiry
  // ---------------------------------------------------------------------------

  /** The observation creates the slot of that key or changes a signature in it. */
  predicate Refreshes(slots: seq<Slot>, e: Event, key: Str) {
    && e.Observe? && UsesReplayCache(e.model) && e.parts.Some? && e.parts.value != []
    && ReplayKey(e.model, e.session) == key
    && (Lookup(slots, key).None? || Changes(Lookup(slots, key).value.byCall, e.parts.value))
  }

  /** A slot left after an event has a new expiry if it was refreshed, and is the old slot otherwise. */
  lemma ExpiryMovesExactly(slots: seq<Slot>, e: Event, s: Slot)
    requires Unique(slots) && s in After(slots, e)
    ensures if Refreshes(slots, e, s.key) then s.expires == e.now + REPLAY_TTL_MS else s in slots
  {
    hide UsesReplayCache, RecordedAll, Changes, Unique, Stored, Evicted, Deleted, ReplayKey, Lookup;
    if e.Observe? {
      if UsesReplayCache(e.model) && e.parts.Some? && e.parts.value != [] {
        var key := ReplayKey(e.model, e.session);
        var entry := Lookup(slots, key);
        var before: map<Str, Str> := if entry.Some? then entry.value.byCall else map[];
        if Changes(before, e.parts.value) || entry.None? {
          var slot := Slot(key, RecordedAll(before, e.parts.value), e.now + REPLAY_TTL_MS);
          StoredMembers(slots, slot);
          EvictionDropsTheOldest(Stored(slots, slot));
        }
      }
    } else {
      DeletedMembers(slots, ReplayKey(e.model, e.session));
    }
  }

  /** When a slot was last refreshed in a run. */
  function LastChange(events: seq<Event>, key: Str): Option<int> {
    if events == [] then None
    else
      var before, e := events[..|events| - 1], events[|events| - 1];
      if Refreshes(Run(before), e, key) then Some(e.now) else LastChange(before, key)
  }

  /** In every run a slot expires one hour after the last observation that changed it, however often it was seen since. */
  lemma {:induction false} ExpiresAfterLastChange(events: seq<Event>, s: Slot)
    requires s in Run(events)
    ensures LastChange(events, s.key).Some? && s.expires == LastChange(events, s.key).value + REPLAY_TTL_MS
  {
    hide After, Refreshes;
    var before, e := events[..|events| - 1], events[|events| - 1];
    RunTracks(before);
    ExpiryMovesExactly(Run(before), e, s);
    if Refreshes(Run(before), e, s.key) {
      assert e.Observe? by { RefreshesObserves(Run(before), e, s.key); }
    } else {
      ExpiresAfterLastChange(before, s);
    }
  }

  lemma RefreshesObserves(slots: seq<Slot>, e: Event, key: Str)
    requires Refreshes(slots, e, key)
    ensures e.Observe?
  {
  }

  /**
   * A slot's signatures are replayed exactly while it is in the cache and less than one hour has
   * passed since its last change. A session whose turns only repeat known signatures loses them.
   */
  lemma LiveUntilTtl(events: seq<Event>, later: int, model: Str, session: Str, contents: seq<Content>)
    requires UsesReplayCache(model)
    ensures var key := ReplayKey(model, session);
      var entry, last := Lookup(Run(events), key), LastChange(events, key);
      if entry.Some? && last.Some? && later < last.value + REPLAY_TTL_MS
      then Live(Run(events), later, model, session) == entry.value.byCall
      else Live(Run(events), later, model, session) == map[] && Replayed(Run(events), later, model, session, contents) == contents
  {
    hide Run, LastChange, ReplayKey, UsesReplayCache;
    InjectNothing(contents);
    var entry := Lookup(Run(events), ReplayKey(model, session));
    if entry.Some? { ExpiresAfterLastChange(events, entry.value); }
  }

  /** A concrete loss: the same signed call is seen again half an hour later, and is forgotten after one hour. */
  lemma SeenAgainStillForgotten(now: int, model: Str, session: Str, part: Part, contents: seq<Content>)
    requires UsesReplayCache(model) && Signs(part)
    ensures var twice := [Observe(now, model, session, Some([part])), Observe(now + REPLAY_TTL_MS / 2, model, session, Some([part]))];
      && Live(Run(twice), now + REPLAY_TTL_MS - 1, model, session) != map[]
      && Replayed(Run(twice), now + REPLAY_TTL_MS, model, session, contents) == contents
  {
    var first := Observe(now, model, session, Some([part]));
    var again := Observe(now + REPLAY_TTL_MS / 2, model, session, Some([part]));
    SeenTwice(now, model, session, part);
    var byCall: map<Str, Str> := map[KeyOf(part).value := ExtractSignature(part).value];
    assert KeyOf(part).value in byCall;
    hide UsesReplayCache, Signs, KeyOf, ExtractSignature, ReplayKey, After, Run;
    InjectNothing(contents);
  }

  lemma FirstChange(byCall: map<Str, Str>, part: Part)
    ensures Changes(byCall, [part]) <==> Recorded(byCall, part) != byCall
  {
    hide Recorded;
    assert [part][1..] == [] && !Changes(Recorded(byCall, part), []);
  }

  lemma SeenTwice(now: int, model: Str, session: Str, part: Part)
    requires UsesReplayCache(model) && Signs(part)
    ensures var twice := [Observe(now, model, session, Some([part])), Observe(now + REPLAY_TTL_MS / 2, model, session, Some([part]))];
      Run(twice) == [Slot(ReplayKey(model, session), map[KeyOf(part).value := ExtractSignature(part).value], now + REPLAY_TTL_MS)]
  {
    hide UsesReplayCache, KeyOf, ExtractSignature, ReplayKey;
    var first := Observe(now, model, session, Some([part]));
    var again := Observe(now + REPLAY_TTL_MS / 2, model, session, Some([part]));
    assert [first, again][..1] == [first] && [first][..0] == [] && [part][1..] == [];
    var byCall: map<Str, Str> := map[KeyOf(part).value := ExtractSignature(part).value];
    assert KeyOf(part).value in byCall;
    assert Recorded(map[], part) == byCall && Recorded(byCall, part) == byCall;
    assert byCall != map[];
    FirstChange(map[], part);
    FirstChange(byCall, part);
    assert RecordedAll(map[], [part]) == byCall by { assert RecordedAll(byCall, []) == byCall; }
    assert Run([first]) == [Slot(ReplayKey(model, session), byCall, now + REPLAY_TTL_MS)];
  }
}
