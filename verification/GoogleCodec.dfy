/**
 * The tool-name codec (`toolNameCodec` in src/adapters/google-wire-compiler.ts): arbitrary tool
 * names to pairwise distinct names in Google's grammar, and back.
 */
module GoogleCodec {
  import opened Prelude
  import C = CanonicalJson

  const UNDERSCORE: CodeUnit := 95
  const PREFIX_LIMIT: nat := 55
  const NAME_LIMIT: nat := 64

  predicate NameStart(c: CodeUnit) {
    65 <= c <= 90 || 97 <= c <= 122 || c == UNDERSCORE
  }

  predicate NameUnit(c: CodeUnit) {
    NameStart(c) || 48 <= c <= 57 || c == 45
  }

  /** Google's grammar: a letter or underscore, then at most 63 letters, digits, `_` or `-`. */
  predicate ValidName(s: Str) {
    1 <= |s| <= NAME_LIMIT && NameStart(s[0]) && forall i :: 0 <= i < |s| ==> NameUnit(s[i])
  }

  /** Foreign code units replaced, and a legal first one put in front when needed. */
  function Cleaned(name: Str): (r: Str)
    ensures r != [] && NameStart(r[0]) && forall i :: 0 <= i < |r| ==> NameUnit(r[i])
  {
    var units := seq(|name|, i requires 0 <= i < |name| => if NameUnit(name[i]) then name[i] else UNDERSCORE);
    if units == [] || !NameStart(units[0]) then [UNDERSCORE] + units else units
  }

  function Shortened(s: Str): Str {
    if |s| <= PREFIX_LIMIT then s else s[..PREFIX_LIMIT]
  }

  /** What is hashed: the name alone, later the name with a salt. */
  function HashInput(name: Str, salt: nat): Str {
    if salt == 0 then name else name + [35] + C.Digits(salt)
  }

  /** A hash cut to eight characters, all legal in a name. */
  ghost predicate HexDigest(digest: Str -> Str) {
    forall x: Str :: |digest(x)| == 8 && forall i :: 0 <= i < 8 ==> NameUnit(digest(x)[i])
  }

  function Candidate(digest: Str -> Str, name: Str, salt: nat): Str {
    Shortened(Cleaned(name)) + [UNDERSCORE] + digest(HashInput(name, salt))
  }

  lemma CandidateIsValid(digest: Str -> Str, name: Str, salt: nat)
    requires HexDigest(digest)
    ensures ValidName(Candidate(digest, name, salt))
  {
    var d := digest(HashInput(name, salt));
    assert |d| == 8 && forall i :: 0 <= i < 8 ==> NameUnit(d[i]);
    hide HexDigest, HashInput, Cleaned;
    var p := Shortened(Cleaned(name));
    assert p != [] && |p| <= PREFIX_LIMIT && NameStart(p[0]) && forall i :: 0 <= i < |p| ==> NameUnit(p[i]);
  }

  /** A name needs a letter or underscore in front when it is empty or begins with a digit or a dash. */
  predicate Prefixed(name: Str) {
    name == [] || (NameUnit(name[0]) && !NameStart(name[0]))
  }

  /**
   * A candidate can be read: the first 55 units of the name behind its prefix, every legal one kept and every
   * other one an underscore, then an underscore and the digest.
   */
  lemma CandidateReads(digest: Str -> Str, name: Str, salt: nat)
    ensures var shift, r := if Prefixed(name) then 1 else 0, Candidate(digest, name, salt);
      var kept := if |name| + shift < 55 then |name| + shift else 55;
      && (shift == 1 ==> r[0] == UNDERSCORE)
      && (forall i :: 0 <= i < |name| && i + shift < 55 ==> r[i + shift] == if NameUnit(name[i]) then name[i] else UNDERSCORE)
      && kept <= |r| && r[kept..] == [UNDERSCORE] + digest(if salt == 0 then name else name + [35] + C.Digits(salt))
  {
    hide NameUnit, NameStart;
    UnderscoreStarts();
    var shift := if Prefixed(name) then 1 else 0;
    var kept := if |name| + shift < 55 then |name| + shift else 55;
    assert |Cleaned(name)| == |name| + shift;
    var p := Shortened(Cleaned(name));
    assert |p| == kept;
    var tail := [UNDERSCORE] + digest(HashInput(name, salt));
    assert Candidate(digest, name, salt) == p + tail;
  }

  lemma UnderscoreStarts()
    ensures NameStart(UNDERSCORE) && NameUnit(UNDERSCORE) && forall c :: NameStart(c) ==> NameUnit(c)
  {
  }

  /** The salts reach a fresh name as long as no more than `n` are taken. */
  ghost predicate Spreads(digest: Str -> Str, n: nat) {
    forall name: Str, used: set<Str> :: |used| <= n ==> HasFree(digest, name, used)
  }

  ghost predicate HasFree(digest: Str -> Str, name: Str, used: set<Str>) {
    exists salt: nat :: Candidate(digest, name, salt) !in used
  }

  /** The wire name of a salted name: the first candidate that was not taken. */
  ghost predicate FirstFree(digest: Str -> Str, name: Str, wire: Str, taken: set<Str>) {
    exists salt: nat :: wire == Candidate(digest, name, salt) && forall t: nat :: t < salt ==> Candidate(digest, name, t) in taken
  }

  /** The two maps are inverse to each other. */
  ghost predicate Inverse(toWire: map<Str, Str>, fromWire: map<Str, Str>) {
    && (forall n :: n in toWire ==> toWire[n] in fromWire && fromWire[toWire[n]] == n)
    && (forall w :: w in fromWire ==> fromWire[w] in toWire && toWire[fromWire[w]] == w)
  }

  /**
   * What the codec promises for a list of names: the maps are inverse, every wire name is in the
   * grammar, a legal name keeps itself unless another name took it, and a renamed one gets its
   * first free candidate.
   */
  ghost predicate IsCodec(digest: Str -> Str, names: seq<Str>, toWire: map<Str, Str>, fromWire: map<Str, Str>) {
    && (forall n :: n in toWire <==> n in names)
    && Inverse(toWire, fromWire)
    && forall n :: n in toWire ==> WellNamed(digest, n, toWire[n], fromWire.Keys)
  }

  ghost predicate WellNamed(digest: Str -> Str, name: Str, wire: Str, taken: set<Str>) {
    && ValidName(wire)
    && (wire == name || ((ValidName(name) ==> name in taken) && FirstFree(digest, name, wire, taken)))
  }

  ghost predicate Covers(toWire: map<Str, Str>, names: seq<Str>) {
    forall n :: n in toWire <==> n in names
  }

  ghost predicate AllWellNamed(digest: Str -> Str, toWire: map<Str, Str>, taken: set<Str>) {
    forall n :: n in toWire ==> WellNamed(digest, n, toWire[n], taken)
  }

  /** Legal names alone are never renamed. */
  ghost predicate KeepsLegal(names: seq<Str>, toWire: map<Str, Str>) {
    (forall i :: 0 <= i < |names| ==> ValidName(names[i])) ==> forall n :: n in toWire ==> toWire[n] == n
  }

  method ToolNameCodec(digest: Str -> Str, names: seq<Str>) returns (toWire: map<Str, Str>, fromWire: map<Str, Str>)
    requires HexDigest(digest) && Spreads(digest, |names|)
    ensures IsCodec(digest, names, toWire, fromWire) && KeepsLegal(names, toWire)
  {
    hide ValidName, HexDigest, WellNamed, Candidate, HasFree, Inverse, Covers, AllWellNamed, KeepsLegal;
    toWire, fromWire := map[], map[];
    var used: set<Str> := {};
    NoNames(digest);
    var i := 0;
    assert names[..0] == [];
    while i < |names|
      invariant 0 <= i <= |names|
      invariant used == fromWire.Keys && |used| <= i
      invariant Covers(toWire, names[..i]) && Inverse(toWire, fromWire)
      invariant AllWellNamed(digest, toWire, used) && KeepsLegal(names[..i], toWire)
    {
      var name := names[i];
      assert names[..i + 1] == names[..i] + [name];
      if name in toWire {
        SeenAgain(names[..i], name, toWire);
      } else {
        var wire := name;
        if ValidName(name) && name !in used {
          NamedItself(digest, name, used + {name});
        } else {
          wire := SaltedName(digest, name, used);
        }
        TakenBySomeone(names[..i], name, toWire, fromWire);
        OneMoreName(names[..i], name, wire, toWire, fromWire);
        MoreTaken(digest, name, wire, toWire, used);
        toWire := toWire[name := wire];
        fromWire := fromWire[wire := name];
        used := used + {wire};
      }
      i := i + 1;
    }
    assert names[..i] == names;
    Assembled(digest, names, toWire, fromWire);
  }

  lemma Assembled(digest: Str -> Str, names: seq<Str>, toWire: map<Str, Str>, fromWire: map<Str, Str>)
    requires Covers(toWire, names) && Inverse(toWire, fromWire) && AllWellNamed(digest, toWire, fromWire.Keys)
    ensures IsCodec(digest, names, toWire, fromWire)
  {
    hide WellNamed, Inverse;
  }

  lemma NoNames(digest: Str -> Str)
    ensures Covers(map[], []) && Inverse(map[], map[]) && AllWellNamed(digest, map[], {}) && KeepsLegal([], map[])
  {
  }

  lemma SeenAgain(names: seq<Str>, name: Str, toWire: map<Str, Str>)
    requires Covers(toWire, names) && KeepsLegal(names, toWire) && name in toWire
    ensures Covers(toWire, names + [name]) && KeepsLegal(names + [name], toWire)
  {
    hide ValidName;
    assert forall i :: 0 <= i < |names| ==> (names + [name])[i] == names[i];
  }

  /** While all names are legal, no other name can have taken this one. */
  lemma TakenBySomeone(names: seq<Str>, name: Str, toWire: map<Str, Str>, fromWire: map<Str, Str>)
    requires Inverse(toWire, fromWire) && KeepsLegal(names, toWire) && name !in toWire
    ensures (forall i :: 0 <= i < |names| ==> ValidName(names[i])) ==> name !in fromWire
  {
    hide ValidName;
  }

  lemma OneMoreName(names: seq<Str>, name: Str, wire: Str, toWire: map<Str, Str>, fromWire: map<Str, Str>)
    requires Covers(toWire, names) && Inverse(toWire, fromWire) && KeepsLegal(names, toWire)
    requires name !in toWire && wire !in fromWire
    requires wire != name ==> ValidName(name) ==> name in fromWire
    requires (forall i :: 0 <= i < |names| ==> ValidName(names[i])) ==> name !in fromWire
    ensures Covers(toWire[name := wire], names + [name]) && Inverse(toWire[name := wire], fromWire[wire := name])
    ensures KeepsLegal(names + [name], toWire[name := wire])
  {
    hide ValidName;
    assert forall i :: 0 <= i < |names| ==> (names + [name])[i] == names[i];
    assert (names + [name])[|names|] == name;
  }

  lemma NamedItself(digest: Str -> Str, name: Str, taken: set<Str>)
    requires ValidName(name)
    ensures WellNamed(digest, name, name, taken)
  {
  }

  lemma MoreTaken(digest: Str -> Str, name: Str, wire: Str, toWire: map<Str, Str>, taken: set<Str>)
    requires AllWellNamed(digest, toWire, taken) && WellNamed(digest, name, wire, taken + {wire})
    ensures AllWellNamed(digest, toWire[name := wire], taken + {wire})
  {
    hide ValidName, Candidate;
  }

  /** Tries salts until a candidate is free. */
  method SaltedName(digest: Str -> Str, name: Str, used: set<Str>) returns (wire: Str)
    requires HexDigest(digest) && HasFree(digest, name, used)
    requires !ValidName(name) || name in used
    ensures wire !in used && WellNamed(digest, name, wire, used + {wire})
    ensures wire != name ==> ValidName(name) ==> name in used
  {
    var salt: nat := 0;
    ghost var bound: nat :| Candidate(digest, name, bound) !in used;
    hide Candidate, HexDigest, HasFree, ValidName;
    while Candidate(digest, name, salt) in used
      invariant salt <= bound
      invariant forall t: nat :: t < salt ==> Candidate(digest, name, t) in used
      decreases bound - salt
    {
      salt := salt + 1;
    }
    wire := Candidate(digest, name, salt);
    CandidateIsValid(digest, name, salt);
    assert FirstFree(digest, name, wire, used + {wire});
  }

  function Rename(toWire: map<Str, Str>, name: Str): Str {
    if name in toWire then toWire[name] else name
  }

  /** Distinct names get distinct wire names, and each wire name restores to its own. */
  lemma CodecIsInjective(digest: Str -> Str, names: seq<Str>, toWire: map<Str, Str>, fromWire: map<Str, Str>, a: Str, b: Str)
    requires IsCodec(digest, names, toWire, fromWire) && a in names && b in names
    ensures Rename(toWire, a) == Rename(toWire, b) <==> a == b
    ensures ValidName(Rename(toWire, a)) && Rename(fromWire, Rename(toWire, a)) == a
  {
    hide ValidName, FirstFree;
  }
}
