/**
 * Hand-edit protection of the `claudeCode` subtree (src/config.ts): every save of a live config
 * compares memory and disk with the baseline of the last save and adopts a hand edit when memory
 * did not change.
 */
module ConfigMerge {
  import opened Prelude

  /** A value as it sits in memory; a property may be present and undefined. */
  datatype V =
    | Undefined
    | Null
    | Bool(b: bool)
    | Num(r: real)
    | Text(s: Str)
    | Arr(items: seq<V>)
    | Obj(fields: map<Str, V>)

  /** Structural comparison, in which an undefined property counts as absent. */
  predicate DeepEqual(a: V, b: V)
    decreases a
  {
    if a.Arr? && b.Arr? then
      |a.items| == |b.items| && forall i :: 0 <= i < |a.items| ==> DeepEqual(a.items[i], b.items[i])
    else if a.Obj? && b.Obj? then
      && (forall k :: k in a.fields ==>
            if k in b.fields then DeepEqual(a.fields[k], b.fields[k]) else a.fields[k].Undefined?)
      && (forall k :: k in b.fields && k !in a.fields ==> b.fields[k].Undefined?)
    else a == b
  }

  /** The value without its undefined properties, at every depth. */
  function Dropped(v: V): V
    decreases v
  {
    match v
    case Arr(items) => Arr(seq(|items|, i requires 0 <= i < |items| => Dropped(items[i])))
    case Obj(fields) => Obj(map k | k in fields && !fields[k].Undefined? :: Dropped(fields[k]))
    case _ => v
  }

  lemma DroppedKind(v: V)
    ensures Dropped(v).Undefined? <==> v.Undefined?
    ensures Dropped(v).Arr? <==> v.Arr?
    ensures Dropped(v).Obj? <==> v.Obj?
    ensures !v.Arr? && !v.Obj? ==> Dropped(v) == v
  {
  }

  /** The comparison holds exactly when the values agree after dropping undefined properties. */
  lemma {:induction false} DeepEqualIsAgreement(a: V, b: V)
    ensures DeepEqual(a, b) <==> Dropped(a) == Dropped(b)
    decreases a
  {
    DroppedKind(a);
    DroppedKind(b);
    if a.Arr? && b.Arr? {
      ItemsAgree(a.items, b.items, a);
    } else if a.Obj? && b.Obj? {
      FieldsAgree(a.fields, b.fields, a);
    } else {
      assert DeepEqual(a, b) <==> a == b;
    }
  }

  lemma {:induction false} ItemsAgree(a: seq<V>, b: seq<V>, parent: V)
    requires parent == Arr(a)
    ensures DeepEqual(Arr(a), Arr(b)) <==> Dropped(Arr(a)) == Dropped(Arr(b))
    decreases parent, 0
  {
    forall i | 0 <= i < |a| && i < |b| ensures DeepEqual(a[i], b[i]) <==> Dropped(a[i]) == Dropped(b[i]) {
      DeepEqualIsAgreement(a[i], b[i]);
    }
    var x, y := Dropped(Arr(a)).items, Dropped(Arr(b)).items;
    assert |x| == |a| && |y| == |b|;
    assert forall i :: 0 <= i < |a| ==> x[i] == Dropped(a[i]);
    assert forall i :: 0 <= i < |b| ==> y[i] == Dropped(b[i]);
    if DeepEqual(Arr(a), Arr(b)) {
      assert forall i :: 0 <= i < |a| ==> DeepEqual(a[i], b[i]);
      assert x == y;
    }
    if x == y {
      assert forall i :: 0 <= i < |a| ==> x[i] == y[i];
      assert forall i :: 0 <= i < |a| ==> DeepEqual(a[i], b[i]);
    }
  }

  lemma {:induction false} FieldsAgree(a: map<Str, V>, b: map<Str, V>, parent: V)
    requires parent == Obj(a)
    ensures DeepEqual(Obj(a), Obj(b)) <==> Dropped(Obj(a)) == Dropped(Obj(b))
    decreases parent, 0
  {
    forall k | k in a && k in b ensures DeepEqual(a[k], b[k]) <==> Dropped(a[k]) == Dropped(b[k]) {
      DeepEqualIsAgreement(a[k], b[k]);
    }
    var x, y := Dropped(Obj(a)).fields, Dropped(Obj(b)).fields;
    assert forall k :: k in x <==> k in a && !a[k].Undefined?;
    assert forall k :: k in y <==> k in b && !b[k].Undefined?;
    assert forall k :: k in x ==> x[k] == Dropped(a[k]);
    assert forall k :: k in y ==> y[k] == Dropped(b[k]);
    if DeepEqual(Obj(a), Obj(b)) {
      forall k ensures k in x <==> k in y { UndefinedPair(a, b, k); }
      forall k | k in x ensures k in y && x[k] == y[k] { UndefinedPair(a, b, k); }
      assert x == y;
    }
    if x == y {
      forall k | k in a ensures if k in b then DeepEqual(a[k], b[k]) else a[k].Undefined? {
        if k in b { UndefinedAlike(a[k], b[k]); }
        assert k in x <==> k in y;
      }
      forall k | k in b && k !in a ensures b[k].Undefined? { assert k in x <==> k in y; }
    }
  }

  lemma UndefinedPair(a: map<Str, V>, b: map<Str, V>, k: Str)
    requires DeepEqual(Obj(a), Obj(b))
    ensures k in a && k in b ==> DeepEqual(a[k], b[k]) && (a[k].Undefined? <==> b[k].Undefined?)
    ensures k in a && k !in b ==> a[k].Undefined?
    ensures k in b && k !in a ==> b[k].Undefined?
  {
  }

  lemma UndefinedAlike(a: V, b: V)
    ensures a.Undefined? && b.Undefined? ==> DeepEqual(a, b)
  {
  }

  // ---------------------------------------------------------------------------
  // Through the file and back
  // ---------------------------------------------------------------------------

  /** What reading the file back yields: undefined properties are gone, undefined elements are null. */
  function Reread(v: V): V
    decreases v
  {
    match v
    case Arr(items) =>
      Arr(seq(|items|, i requires 0 <= i < |items| => if items[i].Undefined? then Null else Reread(items[i])))
    case Obj(fields) => Obj(map k | k in fields && !fields[k].Undefined? :: Reread(fields[k]))
    case _ => v
  }

  /** No array holds an undefined element. */
  predicate Solid(v: V)
    decreases v
  {
    match v
    case Arr(items) => forall i :: 0 <= i < |items| ==> !items[i].Undefined? && Solid(items[i])
    case Obj(fields) => forall k :: k in fields ==> Solid(fields[k])
    case _ => true
  }

  /** The file gives back the value, undefined properties aside, exactly when no array has an undefined element. */
  lemma {:induction false} RereadAgrees(v: V)
    ensures Reread(v) == Dropped(v) <==> Solid(v)
    ensures Dropped(Reread(v)) == Reread(v)
    ensures Reread(v).Undefined? <==> v.Undefined?
    decreases v
  {
    match v {
      case Arr(items) => RereadItems(items, v);
      case Obj(fields) => RereadFields(fields, v);
      case _ =>
    }
  }

  lemma {:induction false} RereadItems(items: seq<V>, parent: V)
    requires parent == Arr(items)
    ensures Reread(Arr(items)) == Dropped(Arr(items)) <==> Solid(Arr(items))
    ensures Dropped(Reread(Arr(items))) == Reread(Arr(items))
    decreases parent, 0
  {
    var x, y := Reread(Arr(items)).items, Dropped(Arr(items)).items;
    forall i | 0 <= i < |items|
      ensures x[i] == y[i] <==> !items[i].Undefined? && Solid(items[i])
      ensures Dropped(x[i]) == x[i]
    {
      RereadAgrees(items[i]);
      DroppedKind(items[i]);
    }
    if Solid(Arr(items)) { assert x == y; }
    assert Dropped(Arr(x)).items == x;
  }

  lemma {:induction false} RereadFields(fields: map<Str, V>, parent: V)
    requires parent == Obj(fields)
    ensures Reread(Obj(fields)) == Dropped(Obj(fields)) <==> Solid(Obj(fields))
    ensures Dropped(Reread(Obj(fields))) == Reread(Obj(fields))
    decreases parent, 0
  {
    var x, y := Reread(Obj(fields)).fields, Dropped(Obj(fields)).fields;
    assert x.Keys == y.Keys;
    forall k | k in x
      ensures x[k] == y[k] <==> Solid(fields[k])
      ensures Dropped(x[k]) == x[k] && !x[k].Undefined?
    {
      RereadAgrees(fields[k]);
    }
    if Solid(Obj(fields)) { assert x == y; }
    if x == y {
      forall k | k in fields ensures Solid(fields[k]) {
        if !fields[k].Undefined? { assert k in x && x[k] == y[k]; }
      }
    }
    assert Dropped(Obj(x)).fields == x;
  }

  // ---------------------------------------------------------------------------
  // Saving
  // ---------------------------------------------------------------------------

  /** One live config: the subtree in memory, the armed baseline, and the subtree on disk if the file reads. */
  datatype State = State(memory: V, baseline: Option<V>, disk: Option<V>)

  /** The subtree a save keeps. */
  function Merged(s: State): V {
    if s.baseline.Some? && s.disk.Some?
       && !DeepEqual(s.disk.value, s.baseline.value) && DeepEqual(s.memory, s.baseline.value)
    then s.disk.value else s.memory
  }

  function Saved(s: State, written: bool): State {
    var kept := Merged(s);
    if !written then s.(memory := kept)
    else State(kept, if s.baseline.Some? then Some(kept) else None, Some(Reread(kept)))
  }

  /** Arming takes the memory value as the agreed one. */
  function Armed(s: State): State {
    s.(baseline := Some(s.memory))
  }

  class LiveConfig {
    var memory: V
    var baseline: Option<V>
    var disk: Option<V>

    ghost function Value(): State
      reads this
    {
      State(memory, baseline, disk)
    }

    constructor (memory: V, disk: Option<V>)
      ensures Value() == State(memory, None, disk)
    {
      this.memory, this.disk, baseline := memory, disk, None;
    }

    method ArmBaseline()
      modifies this
      ensures Value() == Armed(old(Value()))
    {
      baseline := Some(memory);
    }

    /** Saves, unless writing the file fails. */
    method SavePreserving(written: bool)
      modifies this
      ensures Value() == Saved(old(Value()), written)
    {
      if baseline.Some? {
        if disk.Some? {
          var diskChanged := !DeepEqual(disk.value, baseline.value);
          var weChanged := !DeepEqual(memory, baseline.value);
          if diskChanged && !weChanged { memory := disk.value; }
        }
      }
      if !written { return; }
      disk := Some(Reread(memory));
      if baseline.Some? { baseline := Some(memory); }
    }
  }

  // ---------------------------------------------------------------------------
  // Runs
  // ---------------------------------------------------------------------------

  datatype Move = EditMemory(v: V) | EditFile(v: V) | BreakFile | Save(written: bool)

  /** Values read from a file hold no undefined at any depth below the subtree itself. */
  predicate FromFile(v: V) {
    Reread(v) == v
  }

  predicate Legal(m: Move) {
    match m
    case EditMemory(v) => Solid(v)
    case EditFile(v) => FromFile(v)
    case _ => true
  }

  function Next(s: State, m: Move): State {
    match m
    case EditMemory(v) => s.(memory := v)
    case EditFile(v) => s.(disk := Some(v))
    case BreakFile => s.(disk := None)
    case Save(written) => Saved(s, written)
  }

  function Run(s: State, moves: seq<Move>): State
    decreases moves
  {
    if moves == [] then s else Run(Next(s, moves[0]), moves[1..])
  }

  /** The policy on plain values: the last agreed value, and what memory and disk say now. */
  datatype Policy = Policy(agreed: V, memory: V, disk: Option<V>)

  /** Memory's change wins; otherwise the file's value is taken, if it can be read. */
  function Choice(p: Policy): V {
    if p.memory != p.agreed || p.disk.None? then p.memory else p.disk.value
  }

  function PolicyNext(p: Policy, m: Move): Policy {
    match m
    case EditMemory(v) => p.(memory := Dropped(v))
    case EditFile(v) => p.(disk := Some(v))
    case BreakFile => p.(disk := None)
    case Save(written) =>
      if written then Policy(Choice(p), Choice(p), Some(Choice(p))) else p.(memory := Choice(p))
  }

  function PolicyRun(p: Policy, moves: seq<Move>): Policy
    decreases moves
  {
    if moves == [] then p else PolicyRun(PolicyNext(p, moves[0]), moves[1..])
  }

  /** The config stands for this policy state. */
  predicate StandsFor(s: State, p: Policy) {
    && Solid(s.memory) && Dropped(s.memory) == p.memory
    && s.baseline.Some? && Dropped(s.baseline.value) == p.agreed
    && s.disk == p.disk && (s.disk.Some? ==> FromFile(s.disk.value))
  }

  lemma FileValuesAreSolid(v: V)
    requires FromFile(v)
    ensures Solid(v) && Dropped(v) == v
  {
    RereadAgrees(v);
  }

  lemma SaveFollowsPolicy(s: State, p: Policy, written: bool)
    requires StandsFor(s, p)
    ensures StandsFor(Saved(s, written), PolicyNext(p, Save(written)))
  {
    hide DeepEqual, Dropped, Reread, Solid;
    DeepEqualIsAgreement(s.memory, s.baseline.value);
    if s.disk.Some? {
      DeepEqualIsAgreement(s.disk.value, s.baseline.value);
      FileValuesAreSolid(s.disk.value);
    }
    RereadAgrees(Merged(s));
    RereadTwice(Merged(s));
  }

  lemma NextFollowsPolicy(s: State, p: Policy, m: Move)
    requires StandsFor(s, p) && Legal(m)
    ensures StandsFor(Next(s, m), PolicyNext(p, m))
  {
    hide DeepEqual, Dropped, Reread, Solid;
    if m.Save? { SaveFollowsPolicy(s, p, m.written); }
  }

  /** Every run of an armed config follows the policy, and each written save leaves all three equal. */
  lemma {:induction false} RunFollowsPolicy(s: State, p: Policy, moves: seq<Move>)
    requires StandsFor(s, p) && forall i :: 0 <= i < |moves| ==> Legal(moves[i])
    ensures StandsFor(Run(s, moves), PolicyRun(p, moves))
    decreases moves
  {
    hide StandsFor, Legal, Next, PolicyNext;
    if moves != [] {
      NextFollowsPolicy(s, p, moves[0]);
      RunFollowsPolicy(Next(s, moves[0]), PolicyNext(p, moves[0]), moves[1..]);
    }
  }

  /**
   * At any save of any run: a change made in memory since the last save is kept; a hand edit is
   * lost only if memory changed too; and a written save leaves disk, memory and baseline agreeing.
   */
  lemma NoEditIsLostSilently(s: State, p: Policy, moves: seq<Move>, written: bool)
    requires StandsFor(s, p) && forall i :: 0 <= i < |moves| ==> Legal(moves[i])
    ensures var before := Run(s, moves);
      var after := Saved(before, written);
      && before.baseline.Some? && after.baseline.Some?
      && (!DeepEqual(before.memory, before.baseline.value) ==> after.memory == before.memory)
      && (before.disk.Some? && !DeepEqual(after.memory, before.disk.value) ==> !DeepEqual(before.memory, before.baseline.value))
      && (written ==> after.disk.Some? && DeepEqual(after.disk.value, after.memory) && DeepEqual(after.memory, after.baseline.value))
  {
    hide Run, PolicyRun, DeepEqual, Dropped, Reread, Solid, StandsFor;
    RunFollowsPolicy(s, p, moves);
    var before, q := Run(s, moves), PolicyRun(p, moves);
    SaveFollowsPolicy(before, q, written);
    StandsMeans(before, q);
    StandsMeans(Saved(before, written), PolicyNext(q, Save(written)));
    var after := Saved(before, written);
    DeepEqualIsAgreement(before.memory, before.baseline.value);
    DeepEqualIsAgreement(after.memory, after.baseline.value);
    if before.disk.Some? {
      DeepEqualIsAgreement(after.memory, before.disk.value);
      DeepEqualIsAgreement(before.disk.value, before.baseline.value);
    }
    if after.disk.Some? { DeepEqualIsAgreement(after.disk.value, after.memory); }
  }

  lemma StandsMeans(s: State, p: Policy)
    requires StandsFor(s, p)
    ensures s.baseline.Some? && Dropped(s.memory) == p.memory && Dropped(s.baseline.value) == p.agreed && s.disk == p.disk
    ensures s.disk.Some? ==> Dropped(s.disk.value) == s.disk.value
  {
    if s.disk.Some? { FileValuesAreSolid(s.disk.value); }
  }

  /** Whatever memory and file hold when the baseline is armed, the policy starts from the memory value. */
  lemma ArmingStarts(s: State)
    requires Solid(s.memory) && (s.disk.Some? ==> FromFile(s.disk.value))
    ensures StandsFor(Armed(s), Policy(Dropped(s.memory), Dropped(s.memory), s.disk))
  {
  }

  /** Every run from the arming on follows the policy that takes the memory of that moment as agreed. */
  lemma ArmedRunFollowsPolicy(s: State, moves: seq<Move>)
    requires Solid(s.memory) && (s.disk.Some? ==> FromFile(s.disk.value)) && forall i :: 0 <= i < |moves| ==> Legal(moves[i])
    ensures StandsFor(Run(Armed(s), moves), PolicyRun(Policy(Dropped(s.memory), Dropped(s.memory), s.disk), moves))
  {
    hide StandsFor, Solid, Dropped, Legal, FromFile;
    ArmingStarts(s);
    RunFollowsPolicy(Armed(s), Policy(Dropped(s.memory), Dropped(s.memory), s.disk), moves);
  }

  /** The moves of people with an editor: memory is left alone. */
  predicate ByHand(m: Move) {
    m.BreakFile? || (m.EditFile? && FromFile(m.v))
  }

  lemma {:induction false} HandMoves(s: State, moves: seq<Move>)
    requires (s.disk.Some? ==> FromFile(s.disk.value)) && forall i :: 0 <= i < |moves| ==> ByHand(moves[i])
    ensures var r := Run(s, moves); r == s.(disk := r.disk) && (r.disk.Some? ==> FromFile(r.disk.value))
    decreases moves
  {
    if moves != [] { HandMoves(Next(s, moves[0]), moves[1..]); }
  }

  /**
   * Whatever is done to the file by hand after arming or after a written save: as long as memory is
   * not changed, the next save takes over what the file then says, and keeps memory only when the
   * file cannot be read.
   */
  lemma HandEditsAreAdopted(s: State, moves: seq<Move>, written: bool)
    requires Solid(s.memory) && (s.disk.Some? ==> FromFile(s.disk.value)) && forall i :: 0 <= i < |moves| ==> ByHand(moves[i])
    ensures var before := Run(Armed(s), moves);
      var after := Saved(before, written);
      && DeepEqual(after.memory, if before.disk.Some? then before.disk.value else s.memory)
      && (written ==> after.disk.Some? && DeepEqual(after.disk.value, after.memory))
  {
    hide DeepEqual, Dropped, Reread, Solid;
    HandMoves(Armed(s), moves);
    var before := Run(Armed(s), moves);
    ArmingStarts(State(s.memory, None, before.disk));
    var p := Policy(Dropped(s.memory), Dropped(s.memory), before.disk);
    SaveFollowsPolicy(before, p, written);
    var after := Saved(before, written);
    StandsMeans(after, PolicyNext(p, Save(written)));
    DeepEqualIsAgreement(after.memory, if before.disk.Some? then before.disk.value else s.memory);
    if before.disk.Some? { FileValuesAreSolid(before.disk.value); }
    if after.disk.Some? { DeepEqualIsAgreement(after.disk.value, after.memory); }
  }

  lemma RereadTwice(memory: V)
    requires Solid(memory)
    ensures FromFile(Reread(memory))
  {
    RereadAgrees(memory);
    RereadAgrees(Reread(memory));
    SolidReread(memory);
  }

  lemma {:induction false} SolidReread(v: V)
    ensures Solid(Reread(v))
    decreases v
  {
    match v {
      case Arr(items) =>
        forall i | 0 <= i < |items| ensures Solid(Reread(v).items[i]) && !Reread(v).items[i].Undefined? {
          SolidReread(items[i]);
          RereadAgrees(items[i]);
        }
      case Obj(fields) =>
        forall k | k in fields ensures Solid(Reread(fields[k])) { SolidReread(fields[k]); }
      case _ =>
    }
  }

  /** The guard is exact: after a written save the disk agrees with memory just when no array held undefined. */
  lemma SavedDiskAgrees(s: State)
    ensures var after := Saved(s, true);
      DeepEqual(after.disk.value, after.memory) <==> Solid(after.memory)
  {
    hide DeepEqual, Dropped, Reread, Solid, Merged;
    var after := Saved(s, true);
    DeepEqualIsAgreement(after.disk.value, after.memory);
    RereadAgrees(after.memory);
  }
}
