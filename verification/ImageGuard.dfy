/** The last-resort image limits on built wire messages (src/adapters/anthropic-image-guard.ts). */
module ImageGuard {
  import opened Prelude

  const MANY_IMAGE_THRESHOLD: nat := 20
  const MANY_IMAGE_MAX_DIMENSION: nat := 2000
  const ABSOLUTE_MAX_DIMENSION: nat := 8000
  const MAX_IMAGES_PER_REQUEST: nat := 100
  const MAX_IMAGE_BASE64_LENGTH: nat := 5 * 1024 * 1024
  const TOTAL_IMAGE_BASE64_BUDGET: nat := 20 * 1024 * 1024

  datatype Note = Oversized | TooLarge | Omitted | ByteBudget

  /** A content block; `base64` is None for URL and file sources; a plain-text tool result is an Other. */
  datatype Block =
    | Image(base64: Option<Str>)
    | ToolResult(id: Str, content: seq<Block>)
    | Notice(note: Note)
    | Other(json: Str)

  /** A header sniffer: deterministic, None when the format is not recognized. */
  type Sniffer = Str -> Option<Dims>

  // ---------------------------------------------------------------------------
  // Image references in wire order
  // ---------------------------------------------------------------------------

  /** `collectImageRefs` over one content array, descending into tool results. */
  function Images(blocks: seq<Block>): seq<Option<Str>> {
    if blocks == [] then [] else BlockImages(blocks[0]) + Images(blocks[1..])
  }

  function BlockImages(b: Block): seq<Option<Str>> {
    match b
    case Image(base64) => [base64]
    case ToolResult(_, content) => Images(content)
    case _ => []
  }

  /** The array with the i-th image replaced by a notice wherever `notes[i]` has one. */
  function Rewrite(blocks: seq<Block>, notes: seq<Option<Note>>): seq<Block>
    requires |notes| == |Images(blocks)|
  {
    if blocks == [] then []
    else
      var n := |BlockImages(blocks[0])|;
      [RewriteBlock(blocks[0], notes[..n])] + Rewrite(blocks[1..], notes[n..])
  }

  function RewriteBlock(b: Block, notes: seq<Option<Note>>): Block
    requires |notes| == |BlockImages(b)|
  {
    match b
    case Image(_) => if notes[0].Some? then Notice(notes[0].value) else b
    case ToolResult(id, content) => ToolResult(id, Rewrite(content, notes))
    case _ => b
  }

  /** The images whose note stays None. */
  function Survivors(images: seq<Option<Str>>, notes: seq<Option<Note>>): seq<Option<Str>>
    requires |images| == |notes|
  {
    if images == [] then []
    else (if notes[0].None? then [images[0]] else []) + Survivors(images[1..], notes[1..])
  }

  // ---------------------------------------------------------------------------
  // The rules, on the list of images
  // ---------------------------------------------------------------------------

  function DimsOf(sniff: Sniffer, image: Option<Str>): Option<Dims> {
    if image.Some? && image.value != [] then sniff(image.value) else None
  }

  function Length(image: Option<Str>): nat {
    if image.Some? then |image.value| else 0
  }

  predicate TooWide(sniff: Sniffer, image: Option<Str>) {
    var d := DimsOf(sniff, image);
    d.Some? && (d.value.width > ABSOLUTE_MAX_DIMENSION || d.value.height > ABSOLUTE_MAX_DIMENSION)
  }

  /** Unknown dimensions count as risky. */
  predicate Risky(sniff: Sniffer, image: Option<Str>) {
    var d := DimsOf(sniff, image);
    d.None? || d.value.width > MANY_IMAGE_MAX_DIMENSION || d.value.height > MANY_IMAGE_MAX_DIMENSION
  }

  /** Rules 1 and 1b. */
  function PerImage(sniff: Sniffer, images: seq<Option<Str>>): (notes: seq<Option<Note>>)
    ensures |notes| == |images|
  {
    seq(|images|, i requires 0 <= i < |images| =>
      if TooWide(sniff, images[i]) then Some(Oversized)
      else if Length(images[i]) > MAX_IMAGE_BASE64_LENGTH then Some(TooLarge)
      else None)
  }

  function Live(notes: seq<Option<Note>>): nat {
    if notes == [] then 0 else (if notes[0].None? then 1 else 0) + Live(notes[1..])
  }

  predicate AnyRisky(sniff: Sniffer, images: seq<Option<Str>>, notes: seq<Option<Note>>)
    requires |images| == |notes|
  {
    exists i :: 0 <= i < |images| && notes[i].None? && Risky(sniff, images[i])
  }

  /** The oldest `excess` live images are omitted. */
  function DropOldest(notes: seq<Option<Note>>, excess: nat): (r: seq<Option<Note>>)
    ensures |r| == |notes|
  {
    if notes == [] || excess == 0 then notes
    else if notes[0].None? then [Some(Omitted)] + DropOldest(notes[1..], excess - 1)
    else [notes[0]] + DropOldest(notes[1..], excess)
  }

  function KeepNewest(notes: seq<Option<Note>>, limit: nat): (r: seq<Option<Note>>)
    ensures |r| == |notes|
  {
    DropOldest(notes, if Live(notes) > limit then Live(notes) - limit else 0)
  }

  function Weight(images: seq<Option<Str>>, notes: seq<Option<Note>>): nat
    requires |images| == |notes|
  {
    if images == [] then 0
    else (if notes[0].None? then Length(images[0]) else 0) + Weight(images[1..], notes[1..])
  }

  /** Rule 4 from here on: oldest base64 images go while `sum` exceeds the budget. */
  function FitBudget(images: seq<Option<Str>>, notes: seq<Option<Note>>, sum: int): (r: seq<Option<Note>>)
    requires |images| == |notes|
    ensures |r| == |notes|
  {
    if notes == [] || sum <= TOTAL_IMAGE_BASE64_BUDGET then notes
    else if notes[0].None? && Length(images[0]) > 0 then
      [Some(ByteBudget)] + FitBudget(images[1..], notes[1..], sum - Length(images[0]))
    else [notes[0]] + FitBudget(images[1..], notes[1..], sum)
  }

  /** `enforceAnthropicImageLimits` on the list of references. */
  function Decide(sniff: Sniffer, images: seq<Option<Str>>): (notes: seq<Option<Note>>)
    ensures |notes| == |images|
  {
    var n1 := PerImage(sniff, images);
    var n2 := if AnyRisky(sniff, images, n1) then KeepNewest(n1, MANY_IMAGE_THRESHOLD) else n1;
    var n3 := KeepNewest(n2, MAX_IMAGES_PER_REQUEST);
    FitBudget(images, n3, Weight(images, n3))
  }

  function Enforce(sniff: Sniffer, blocks: seq<Block>): seq<Block> {
    Rewrite(blocks, Decide(sniff, Images(blocks)))
  }

  // ---------------------------------------------------------------------------
  // What each rule does
  // ---------------------------------------------------------------------------

  /** `after` keeps everything `before` had decided. */
  predicate Extends(before: seq<Option<Note>>, after: seq<Option<Note>>) {
    |before| == |after| && forall i :: 0 <= i < |before| && before[i].Some? ==> after[i] == before[i]
  }

  /** An oldest run of the live images was omitted: no live survivor is older than a newly omitted one. */
  predicate OldestRun(before: seq<Option<Note>>, after: seq<Option<Note>>) {
    && Extends(before, after)
    && forall i, j :: 0 <= i < j < |before| && before[i].None? && before[j].None? && after[i].None? ==> after[j].None?
  }

  lemma {:induction false} DropOldestRun(notes: seq<Option<Note>>, excess: nat)
    requires excess <= Live(notes)
    ensures OldestRun(notes, DropOldest(notes, excess))
    ensures Live(DropOldest(notes, excess)) == Live(notes) - excess
  {
    if notes != [] && excess > 0 {
      var rest := notes[1..];
      var r := DropOldest(notes, excess);
      var drop := notes[0].None?;
      DropOldestRun(rest, if drop then excess - 1 else excess);
      var tail := DropOldest(rest, if drop then excess - 1 else excess);
      assert r[1..] == tail;
      assert forall i :: 0 < i < |notes| ==> notes[i] == rest[i - 1] && r[i] == tail[i - 1];
    }
  }

  /** Rule 4: the survivors fit, oldest base64 images went first, images without weight stayed. */
  lemma {:induction false} FitBudgetFits(images: seq<Option<Str>>, notes: seq<Option<Note>>)
    requires |images| == |notes|
    ensures var r := FitBudget(images, notes, Weight(images, notes));
      && Extends(notes, r) && Live(r) <= Live(notes)
      && Weight(images, r) <= TOTAL_IMAGE_BASE64_BUDGET
      && (forall i, j :: 0 <= i < j < |notes| && notes[i].None? && Length(images[i]) > 0 && notes[j].None? && r[i].None?
            ==> r[j].None?)
      && (forall i :: 0 <= i < |notes| && Length(images[i]) == 0 ==> r[i] == notes[i])
  {
    if notes != [] && Weight(images, notes) > TOTAL_IMAGE_BASE64_BUDGET {
      var images1, notes1 := images[1..], notes[1..];
      var r := FitBudget(images, notes, Weight(images, notes));
      FitBudgetFits(images1, notes1);
      var tail := FitBudget(images1, notes1, Weight(images1, notes1));
      assert r[1..] == tail;
      assert forall i :: 0 < i < |notes| ==> notes[i] == notes1[i - 1] && images[i] == images1[i - 1] && r[i] == tail[i - 1];
    }
  }

  /** What the upstream accepts of the images that are left. */
  predicate WithinLimits(sniff: Sniffer, images: seq<Option<Str>>, notes: seq<Option<Note>>)
    requires |images| == |notes|
  {
    && (forall i :: 0 <= i < |images| && notes[i].None? ==> !TooWide(sniff, images[i]) && Length(images[i]) <= MAX_IMAGE_BASE64_LENGTH)
    && Live(notes) <= MAX_IMAGES_PER_REQUEST
    && Weight(images, notes) <= TOTAL_IMAGE_BASE64_BUDGET
    && (Live(notes) <= MANY_IMAGE_THRESHOLD || !AnyRisky(sniff, images, notes))
  }

  lemma ExtendsTransitive(a: seq<Option<Note>>, b: seq<Option<Note>>, c: seq<Option<Note>>)
    requires Extends(a, b) && Extends(b, c)
    ensures Extends(a, c)
  {
  }

  lemma KeepNewestKeeps(notes: seq<Option<Note>>, limit: nat)
    ensures var r := KeepNewest(notes, limit);
      OldestRun(notes, r) && Live(r) == if Live(notes) > limit then limit else Live(notes)
  {
    DropOldestRun(notes, if Live(notes) > limit then Live(notes) - limit else 0);
  }

  /** For every list of images: what survives is within every limit at once. */
  lemma SurvivorsWithinLimits(sniff: Sniffer, images: seq<Option<Str>>)
    ensures WithinLimits(sniff, images, Decide(sniff, images))
  {
    hide TooWide, Live, Weight, DropOldest, FitBudget, KeepNewest;
    var n1 := PerImage(sniff, images);
    KeepNewestKeeps(n1, MANY_IMAGE_THRESHOLD);
    var n2 := if AnyRisky(sniff, images, n1) then KeepNewest(n1, MANY_IMAGE_THRESHOLD) else n1;
    KeepNewestKeeps(n2, MAX_IMAGES_PER_REQUEST);
    var n3 := KeepNewest(n2, MAX_IMAGES_PER_REQUEST);
    FitBudgetFits(images, n3);
    var n4 := Decide(sniff, images);
    ExtendsTransitive(n1, n2, n3);
    ExtendsTransitive(n1, n3, n4);
    assert forall i :: 0 <= i < |images| && n4[i].None? ==> n1[i].None?;
    assert Live(n4) > MANY_IMAGE_THRESHOLD ==> !AnyRisky(sniff, images, n1);
  }

  // ---------------------------------------------------------------------------
  // Which image goes, and why
  // ---------------------------------------------------------------------------

  /** The image's bytes are here and their header gives one edge above `most`. */
  ghost predicate Wider(sniff: Sniffer, image: Option<Str>, most: nat) {
    image.Some? && image.value != [] && exists d :: sniff(image.value) == Some(d) && (d.width > most || d.height > most)
  }

  /** No header was read: a link, or bytes in an unknown format. */
  predicate Unread(sniff: Sniffer, image: Option<Str>) {
    image == None || image.value == [] || sniff(image.value) == None
  }

  ghost predicate Acceptable(sniff: Sniffer, image: Option<Str>) {
    !Wider(sniff, image, 8000) && (image == None || |image.value| <= 5242880)
  }

  /** How many images are acceptable in themselves. */
  ghost function Fine(sniff: Sniffer, images: seq<Option<Str>>): nat {
    if images == [] then 0 else (if Acceptable(sniff, images[0]) then 1 else 0) + Fine(sniff, images[1..])
  }

  /** The bytes of those among them that have fewer than `limit` acceptable ones behind them. */
  ghost function HeldBytes(sniff: Sniffer, images: seq<Option<Str>>, limit: nat): nat {
    if images == [] then 0
    else
      (if Acceptable(sniff, images[0]) && Fine(sniff, images[1..]) < limit then Length(images[0]) else 0) +
      HeldBytes(sniff, images[1..], limit)
  }

  /** Twenty images once one of them is wider than 2000, or unread; a hundred otherwise. */
  ghost function Allowed(sniff: Sniffer, images: seq<Option<Str>>): nat {
    if exists k :: 0 <= k < |images| && Acceptable(sniff, images[k]) && (Unread(sniff, images[k]) || Wider(sniff, images[k], 2000))
    then 20 else 100
  }

  lemma WideMeans(sniff: Sniffer, image: Option<Str>)
    ensures TooWide(sniff, image) <==> Wider(sniff, image, 8000)
    ensures Risky(sniff, image) <==> Unread(sniff, image) || Wider(sniff, image, 2000)
  {
    var d := DimsOf(sniff, image);
    if d.Some? { assert sniff(image.value) == Some(d.value); }
  }

  lemma {:induction false} DropOldestAt(notes: seq<Option<Note>>, excess: nat, i: nat)
    requires i < |notes|
    ensures excess <= Live(notes) ==>
      DropOldest(notes, excess)[i] == (if notes[i].None? && Live(notes[i..]) > Live(notes) - excess then Some(Omitted) else notes[i])
  {
    if excess <= Live(notes) {
      if i == 0 {
        assert notes[0..] == notes;
      } else if excess > 0 {
        var drop := notes[0].None?;
        DropOldestAt(notes[1..], if drop then excess - 1 else excess, i - 1);
        assert notes[1..][i - 1..] == notes[i..];
      } else {
        SuffixLive(notes, i);
      }
    }
  }

  lemma {:induction false} SuffixLive(notes: seq<Option<Note>>, i: nat)
    requires i <= |notes|
    ensures Live(notes[i..]) <= Live(notes)
  {
    if i == 0 {
      assert notes[0..] == notes;
    } else {
      SuffixLive(notes[1..], i - 1);
      assert notes[1..][i - 1..] == notes[i..];
    }
  }

  lemma {:induction false} FitBudgetAt(images: seq<Option<Str>>, notes: seq<Option<Note>>, i: nat)
    requires |images| == |notes| && i < |notes|
    ensures FitBudget(images, notes, Weight(images, notes))[i] ==
      (if notes[i].None? && Length(images[i]) > 0 && Weight(images[i..], notes[i..]) > TOTAL_IMAGE_BASE64_BUDGET
       then Some(ByteBudget) else notes[i])
  {
    if i == 0 {
      assert images[0..] == images && notes[0..] == notes;
    } else if Weight(images, notes) <= TOTAL_IMAGE_BASE64_BUDGET {
      SuffixWeight(images, notes, i);
      hide Weight;
    } else {
      FitBudgetRest(images, notes);
      FitBudgetAt(images[1..], notes[1..], i - 1);
      hide FitBudget, Weight;
      assert images[1..][i - 1..] == images[i..] && notes[1..][i - 1..] == notes[i..];
      assert FitBudget(images, notes, Weight(images, notes))[i] == FitBudget(images, notes, Weight(images, notes))[1..][i - 1];
    }
  }

  /** Over the budget, the rest is judged by its own weight. */
  lemma FitBudgetRest(images: seq<Option<Str>>, notes: seq<Option<Note>>)
    requires |images| == |notes| && notes != [] && Weight(images, notes) > TOTAL_IMAGE_BASE64_BUDGET
    ensures FitBudget(images, notes, Weight(images, notes))[1..] == FitBudget(images[1..], notes[1..], Weight(images[1..], notes[1..]))
  {
    var sum, rest := Weight(images, notes), Weight(images[1..], notes[1..]);
    assert sum == rest + (if notes[0].None? then Length(images[0]) else 0);
    hide Weight, Length;
    if notes[0].None? && Length(images[0]) > 0 {
      assert FitBudget(images, notes, sum) == [Some(ByteBudget)] + FitBudget(images[1..], notes[1..], rest);
    } else {
      assert FitBudget(images, notes, sum) == [notes[0]] + FitBudget(images[1..], notes[1..], rest);
    }
  }

  lemma {:induction false} SuffixWeight(images: seq<Option<Str>>, notes: seq<Option<Note>>, i: nat)
    requires |images| == |notes| && i <= |notes|
    ensures Weight(images[i..], notes[i..]) <= Weight(images, notes)
  {
    if i == 0 {
      assert images[0..] == images && notes[0..] == notes;
    } else {
      SuffixWeight(images[1..], notes[1..], i - 1);
      assert images[1..][i - 1..] == images[i..] && notes[1..][i - 1..] == notes[i..];
    }
  }

  lemma PerImageAt(sniff: Sniffer, images: seq<Option<Str>>, i: nat)
    requires i < |images|
    ensures PerImage(sniff, images)[i] ==
      (if Wider(sniff, images[i], 8000) then Some(Oversized) else if !Acceptable(sniff, images[i]) then Some(TooLarge) else None)
  {
    WideMeans(sniff, images[i]);
    hide TooWide, Wider;
  }

  lemma PerImageRest(sniff: Sniffer, images: seq<Option<Str>>)
    requires images != []
    ensures PerImage(sniff, images)[1..] == PerImage(sniff, images[1..])
  {
    hide TooWide;
  }

  /** Live after the per-image rules means acceptable. */
  lemma {:induction false} LiveIsFine(sniff: Sniffer, images: seq<Option<Str>>)
    ensures Live(PerImage(sniff, images)) == Fine(sniff, images)
  {
    hide PerImage, Acceptable, Wider;
    if images != [] {
      PerImageAt(sniff, images, 0);
      WiderIsUnacceptable(sniff, images[0]);
      PerImageRest(sniff, images);
      LiveIsFine(sniff, images[1..]);
    }
  }

  lemma PerImageFrom(sniff: Sniffer, images: seq<Option<Str>>, i: nat)
    requires i <= |images|
    ensures PerImage(sniff, images)[i..] == PerImage(sniff, images[i..])
  {
    hide TooWide;
  }

  lemma AllowedIs(sniff: Sniffer, images: seq<Option<Str>>)
    ensures AnyRisky(sniff, images, PerImage(sniff, images)) <==> Allowed(sniff, images) == 20
  {
    hide PerImage, Risky, Acceptable, Wider, Unread;
    forall k | 0 <= k < |images|
      ensures PerImage(sniff, images)[k].None? <==> Acceptable(sniff, images[k])
      ensures Risky(sniff, images[k]) <==> Unread(sniff, images[k]) || Wider(sniff, images[k], 2000)
    {
      PerImageAt(sniff, images, k);
      WiderIsUnacceptable(sniff, images[k]);
      WideMeans(sniff, images[k]);
    }
  }

  lemma WiderIsUnacceptable(sniff: Sniffer, image: Option<Str>)
    ensures Wider(sniff, image, 8000) ==> !Acceptable(sniff, image)
  {
  }

  /** What the two counting rules leave. */
  function Counted(sniff: Sniffer, images: seq<Option<Str>>): (notes: seq<Option<Note>>)
    ensures |notes| == |images|
  {
    var n1 := PerImage(sniff, images);
    KeepNewest(if AnyRisky(sniff, images, n1) then KeepNewest(n1, MANY_IMAGE_THRESHOLD) else n1, MAX_IMAGES_PER_REQUEST)
  }

  lemma CountedAt(sniff: Sniffer, images: seq<Option<Str>>, i: nat)
    requires i < |images|
    ensures Counted(sniff, images)[i] ==
      (if Acceptable(sniff, images[i]) && Fine(sniff, images[i + 1..]) >= Allowed(sniff, images) then Some(Omitted)
       else PerImage(sniff, images)[i])
  {
    hide PerImage, Acceptable, Wider, Fine, Allowed, DropOldest, Live, AnyRisky;
    var n1 := PerImage(sniff, images);
    var allowed := if AnyRisky(sniff, images, n1) then MANY_IMAGE_THRESHOLD else MAX_IMAGES_PER_REQUEST;
    AllowedIs(sniff, images);
    AllowedValues(sniff, images);
    KeepNewestKeeps(n1, MANY_IMAGE_THRESHOLD);
    NothingToDrop(KeepNewest(n1, MANY_IMAGE_THRESHOLD));
    assert Counted(sniff, images) == KeepNewest(n1, allowed);
    var excess := if Live(n1) > allowed then Live(n1) - allowed else 0;
    DropOldestAt(n1, excess, i);
    PerImageAt(sniff, images, i);
    WiderIsUnacceptable(sniff, images[i]);
    LiveFrom(sniff, images, i);
  }

  lemma AllowedValues(sniff: Sniffer, images: seq<Option<Str>>)
    ensures Allowed(sniff, images) == 20 || Allowed(sniff, images) == 100
  {
  }

  lemma NothingToDrop(notes: seq<Option<Note>>)
    ensures DropOldest(notes, 0) == notes
  {
  }

  /** From an acceptable image on, one more is live than behind it. */
  lemma LiveFrom(sniff: Sniffer, images: seq<Option<Str>>, i: nat)
    requires i < |images|
    ensures var n1 := PerImage(sniff, images);
      && Live(n1[i..]) <= Live(n1)
      && (Acceptable(sniff, images[i]) ==> Live(n1[i..]) == 1 + Fine(sniff, images[i + 1..]))
  {
    PerImageFrom(sniff, images, i);
    LiveIsFine(sniff, images[i..]);
    SuffixLive(PerImage(sniff, images), i);
    assert images[i..][1..] == images[i + 1..];
    hide PerImage, Acceptable;
  }

  /** From `i` on, the counted images weigh what `HeldBytes` says. */
  lemma {:induction false} CountedWeight(sniff: Sniffer, images: seq<Option<Str>>, i: nat)
    requires i <= |images|
    ensures Weight(images[i..], Counted(sniff, images)[i..]) == HeldBytes(sniff, images[i..], Allowed(sniff, images))
    decreases |images| - i
  {
    hide PerImage, Acceptable, Wider, Fine, Allowed, Counted;
    if i < |images| {
      CountedWeight(sniff, images, i + 1);
      CountedAt(sniff, images, i);
      PerImageAt(sniff, images, i);
      WiderIsUnacceptable(sniff, images[i]);
      assert images[i..][1..] == images[i + 1..] && Counted(sniff, images)[i..][1..] == Counted(sniff, images)[i + 1..];
    }
  }

  /**
   * For every list of images and every position: the decision, as a property of the image and of those behind it.
   * The first rule that applies names the reason, and an image to which none applies stays.
   */
  lemma DecidedExactly(sniff: Sniffer, images: seq<Option<Str>>, i: nat)
    requires i < |images|
    ensures var allowed := Allowed(sniff, images);
      Decide(sniff, images)[i] ==
        if Wider(sniff, images[i], 8000) then Some(Oversized)
        else if !Acceptable(sniff, images[i]) then Some(TooLarge)
        else if Fine(sniff, images[i + 1..]) >= allowed then Some(Omitted)
        else if Length(images[i]) > 0 && HeldBytes(sniff, images[i..], allowed) > 20971520 then Some(ByteBudget)
        else None
  {
    hide PerImage, Acceptable, Wider, Fine, Allowed, HeldBytes, FitBudget, Weight, Counted;
    var n3 := Counted(sniff, images);
    DecideIs(sniff, images);
    FitBudgetAt(images, n3, i);
    CountedAt(sniff, images, i);
    CountedWeight(sniff, images, i);
    PerImageAt(sniff, images, i);
    WiderIsUnacceptable(sniff, images[i]);
  }

  lemma DecideIs(sniff: Sniffer, images: seq<Option<Str>>)
    ensures var n3 := Counted(sniff, images);
      Decide(sniff, images) == FitBudget(images, n3, Weight(images, n3))
  {
    hide PerImage, AnyRisky, FitBudget, Weight, KeepNewest;
  }

  // ---------------------------------------------------------------------------
  // Running it twice
  // ---------------------------------------------------------------------------

  predicate AllLive(notes: seq<Option<Note>>) {
    forall i :: 0 <= i < |notes| ==> notes[i].None?
  }

  lemma {:induction false} AllLiveCounts(images: seq<Option<Str>>, notes: seq<Option<Note>>)
    requires |images| == |notes| && AllLive(notes)
    ensures Live(notes) == |notes| && Survivors(images, notes) == images
  {
    if notes != [] {
      AllLiveCounts(images[1..], notes[1..]);
    }
  }

  /** The survivors, listed on their own, carry the counts, sizes and risks they had in place. */
  lemma {:induction false} SurvivorsCarryOver(sniff: Sniffer, images: seq<Option<Str>>, notes: seq<Option<Note>>, free: seq<Option<Note>>)
    requires |images| == |notes| && free == seq(|Survivors(images, notes)|, _ => None)
    ensures var left := Survivors(images, notes);
      && |left| == Live(notes)
      && Weight(left, free) == Weight(images, notes)
      && (forall x :: x in left ==> exists i :: 0 <= i < |images| && notes[i].None? && images[i] == x)
  {
    if images != [] {
      var left := Survivors(images, notes);
      var rest := Survivors(images[1..], notes[1..]);
      var free1: seq<Option<Note>> := seq(|rest|, _ => None);
      SurvivorsCarryOver(sniff, images[1..], notes[1..], free1);
      if notes[0].None? {
        assert left[1..] == rest && free[1..] == free1;
      } else {
        assert left == rest && free == free1;
      }
      forall x | x in left ensures exists i :: 0 <= i < |images| && notes[i].None? && images[i] == x {
        if x in rest {
          var j :| 0 <= j < |images[1..]| && notes[1..][j].None? && images[1..][j] == x;
          assert images[j + 1] == x && notes[j + 1].None?;
        } else {
          assert x == images[0] && notes[0].None?;
        }
      }
    }
  }

  /** Images within all limits are all kept. */
  lemma NothingToDo(sniff: Sniffer, images: seq<Option<Str>>, free: seq<Option<Note>>)
    requires free == seq(|images|, _ => None) && WithinLimits(sniff, images, free)
    ensures Decide(sniff, images) == free
  {
    hide TooWide, Weight, Risky;
    assert PerImage(sniff, images) == free;
    AllLiveCounts(images, free);
    hide Live, AnyRisky;
    assert DropOldest(free, 0) == free;
  }

  lemma SecondDecision(sniff: Sniffer, images: seq<Option<Str>>)
    ensures var left := Survivors(images, Decide(sniff, images));
      Decide(sniff, left) == seq(|left|, _ => None)
  {
    var notes := Decide(sniff, images);
    var left := Survivors(images, notes);
    var free: seq<Option<Note>> := seq(|left|, _ => None);
    SurvivorsWithinLimits(sniff, images);
    SurvivorsCarryOver(sniff, images, notes, free);
    AllLiveCounts(left, free);
    hide Decide, Live, Weight, Survivors, TooWide, Risky;
    forall i | 0 <= i < |left| ensures !TooWide(sniff, left[i]) && Length(left[i]) <= MAX_IMAGE_BASE64_LENGTH {
      assert left[i] in left;
    }
    if AnyRisky(sniff, left, free) {
      var i :| 0 <= i < |left| && Risky(sniff, left[i]);
      assert left[i] in left;
    }
    NothingToDo(sniff, left, free);
  }

  // ---------------------------------------------------------------------------
  // The message tree
  // ---------------------------------------------------------------------------

  lemma {:induction false} SurvivorsAppend(a: seq<Option<Str>>, b: seq<Option<Str>>, notes: seq<Option<Note>>)
    requires |notes| == |a| + |b|
    ensures Survivors(a + b, notes) == Survivors(a, notes[..|a|]) + Survivors(b, notes[|a|..])
  {
    if a == [] {
      assert a + b == b && notes[0..] == notes;
    } else {
      SurvivorsAppend(a[1..], b, notes[1..]);
      NotesSplit(notes, |a|);
      SurvivorsFirst(a + b, notes);
      SurvivorsFirst(a, notes[..|a|]);
      hide Survivors;
      assert (a + b)[1..] == a[1..] + b;
      var first: seq<Option<Str>> := if notes[0].None? then [a[0]] else [];
      assert first + (Survivors(a[1..], notes[..|a|][1..]) + Survivors(b, notes[|a|..]))
          == first + Survivors(a[1..], notes[..|a|][1..]) + Survivors(b, notes[|a|..]);
    }
  }

  lemma NotesSplit(notes: seq<Option<Note>>, n: nat)
    requires 0 < n <= |notes|
    ensures notes[..n][1..] == notes[1..][..n - 1] && notes[1..][n - 1..] == notes[n..] && notes[..n][0] == notes[0]
  {
  }

  lemma SurvivorsFirst(images: seq<Option<Str>>, notes: seq<Option<Note>>)
    requires |images| == |notes| && images != []
    ensures Survivors(images, notes) == (if notes[0].None? then [images[0]] else []) + Survivors(images[1..], notes[1..])
  {
  }

  /** Same blocks in the same places; only an image that got a note became that notice. */
  predicate SameBut(before: seq<Block>, after: seq<Block>) {
    |before| == |after| && forall i :: 0 <= i < |before| ==> SameButBlock(before[i], after[i])
  }

  predicate SameButBlock(before: Block, after: Block) {
    match before
    case Image(_) => after == before || after.Notice?
    case ToolResult(id, content) => after.ToolResult? && after.id == id && SameBut(content, after.content)
    case _ => after == before
  }

  /** Rewriting keeps the structure and leaves exactly the surviving images, in order. */
  lemma {:induction false} RewriteKeeps(blocks: seq<Block>, notes: seq<Option<Note>>)
    requires |notes| == |Images(blocks)|
    ensures SameBut(blocks, Rewrite(blocks, notes))
    ensures Images(Rewrite(blocks, notes)) == Survivors(Images(blocks), notes)
    decreases blocks, 1
  {
    if blocks != [] {
      var n := |BlockImages(blocks[0])|;
      RewriteBlockKeeps(blocks[0], notes[..n]);
      RewriteKeeps(blocks[1..], notes[n..]);
      SurvivorsAppend(BlockImages(blocks[0]), Images(blocks[1..]), notes);
      var r := Rewrite(blocks, notes);
      assert r[1..] == Rewrite(blocks[1..], notes[n..]);
      assert forall i :: 0 < i < |blocks| ==> blocks[i] == blocks[1..][i - 1] && r[i] == r[1..][i - 1];
    }
  }

  lemma {:induction false} RewriteBlockKeeps(b: Block, notes: seq<Option<Note>>)
    requires |notes| == |BlockImages(b)|
    ensures SameButBlock(b, RewriteBlock(b, notes))
    ensures BlockImages(RewriteBlock(b, notes)) == Survivors(BlockImages(b), notes)
    decreases b, 0
  {
    match b {
      case Image(base64) =>
      case ToolResult(id, content) => RewriteKeeps(content, notes);
      case _ =>
    }
  }

  /** What became of each image of one content array in another: a notice, or nothing. */
  function Became(before: seq<Block>, after: seq<Block>): seq<Option<Note>>
    decreases before, 1
  {
    if before == [] || after == [] then [] else BlockBecame(before[0], after[0]) + Became(before[1..], after[1..])
  }

  function BlockBecame(before: Block, after: Block): seq<Option<Note>>
    decreases before, 0
  {
    match before
    case Image(_) => [if after.Notice? then Some(after.note) else None]
    case ToolResult(_, content) => if after.ToolResult? then Became(content, after.content) else []
    case _ => []
  }

  /** At the place of each image stands the notice decided for it, or the image itself. */
  lemma {:induction false} NoticesStand(blocks: seq<Block>, notes: seq<Option<Note>>)
    requires |notes| == |Images(blocks)|
    ensures Became(blocks, Rewrite(blocks, notes)) == notes
    decreases blocks, 1
  {
    if blocks != [] {
      var n := |BlockImages(blocks[0])|;
      NoticeStands(blocks[0], notes[..n]);
      NoticesStand(blocks[1..], notes[n..]);
      RewriteFirst(blocks, notes);
      hide Rewrite, RewriteBlock, BlockBecame, Images, BlockImages;
      assert notes[..n] + notes[n..] == notes;
    }
  }

  lemma RewriteFirst(blocks: seq<Block>, notes: seq<Option<Note>>)
    requires |notes| == |Images(blocks)| && blocks != []
    ensures var n, r := |BlockImages(blocks[0])|, Rewrite(blocks, notes);
      n <= |notes| && r != [] && r[0] == RewriteBlock(blocks[0], notes[..n]) && r[1..] == Rewrite(blocks[1..], notes[n..])
  {
    hide RewriteBlock;
  }

  lemma {:induction false} NoticeStands(b: Block, notes: seq<Option<Note>>)
    requires |notes| == |BlockImages(b)|
    ensures BlockBecame(b, RewriteBlock(b, notes)) == notes
    decreases b, 0
  {
    match b {
      case Image(base64) =>
      case ToolResult(id, content) => NoticesStand(content, notes);
      case _ =>
    }
  }

  /** Without notes nothing is rewritten. */
  lemma {:induction false} RewriteNothing(blocks: seq<Block>, notes: seq<Option<Note>>)
    requires |notes| == |Images(blocks)| && AllLive(notes)
    ensures Rewrite(blocks, notes) == blocks
    decreases blocks, 1
  {
    if blocks != [] {
      var n := |BlockImages(blocks[0])|;
      RewriteBlockNothing(blocks[0], notes[..n]);
      RewriteNothing(blocks[1..], notes[n..]);
    }
  }

  lemma {:induction false} RewriteBlockNothing(b: Block, notes: seq<Option<Note>>)
    requires |notes| == |BlockImages(b)| && AllLive(notes)
    ensures RewriteBlock(b, notes) == b
    decreases b, 0
  {
    match b {
      case Image(base64) =>
      case ToolResult(id, content) => RewriteNothing(content, notes);
      case _ =>
    }
  }

  /** For every content tree: positions and other blocks are preserved, each image stays or becomes its notice, and the guard is idempotent. */
  lemma EnforceIdempotent(sniff: Sniffer, blocks: seq<Block>)
    ensures SameBut(blocks, Enforce(sniff, blocks))
    ensures Images(Enforce(sniff, blocks)) == Survivors(Images(blocks), Decide(sniff, Images(blocks)))
    ensures Became(blocks, Enforce(sniff, blocks)) == Decide(sniff, Images(blocks))
    ensures Enforce(sniff, Enforce(sniff, blocks)) == Enforce(sniff, blocks)
  {
    hide Decide, Rewrite, Survivors, Images, SameBut, Became;
    var notes := Decide(sniff, Images(blocks));
    RewriteKeeps(blocks, notes);
    NoticesStand(blocks, notes);
    SecondDecision(sniff, Images(blocks));
    var once := Enforce(sniff, blocks);
    RewriteNothing(once, Decide(sniff, Images(once)));
  }

  // ---------------------------------------------------------------------------
  // The loops over the references
  // ---------------------------------------------------------------------------

  /** The notes written so far, one per reference; a reference without a note is live. */
  class Guard {
    const sniff: Sniffer
    const images: seq<Option<Str>>
    const notes: array<Option<Note>>
    var live: nat

    ghost predicate Valid()
      reads this, notes
    {
      notes.Length == |images| && live == Live(notes[..])
    }

    constructor (sniff: Sniffer, images: seq<Option<Str>>)
      ensures Valid() && fresh(notes) && this.sniff == sniff && this.images == images
      ensures AllLive(notes[..])
    {
      this.sniff, this.images, live := sniff, images, |images|;
      notes := new Option<Note>[|images|](_ => None);
      new;
      AllLiveCounts(images, notes[..]);
    }

    /** Rules 1 and 1b. */
    method DropUnacceptable()
      requires Valid() && AllLive(notes[..])
      modifies this, notes
      ensures Valid() && notes[..] == PerImage(sniff, images)
    {
      hide TooWide, Live;
      var i := 0;
      ghost var plan := PerImage(sniff, images);
      while i < notes.Length
        invariant 0 <= i <= notes.Length && notes.Length == |images|
        invariant notes[..] == plan[..i] + seq(|images| - i, _ => None)
      {
        if TooWide(sniff, images[i]) {
          notes[i] := Some(Oversized);
        } else if Length(images[i]) > MAX_IMAGE_BASE64_LENGTH {
          notes[i] := Some(TooLarge);
        }
        i := i + 1;
      }
      Recount();
    }

    /** `live.size` */
    method Recount()
      requires notes.Length == |images|
      modifies this
      ensures Valid()
    {
      live := 0;
      var i := notes.Length;
      assert notes[notes.Length..] == [];
      while i > 0
        invariant 0 <= i <= notes.Length && live == Live(notes[i..])
      {
        i := i - 1;
        assert notes[i..] == [notes[i]] + notes[i + 1..];
        if notes[i].None? { live := live + 1; }
      }
      assert notes[0..] == notes[..];
    }

    /** Rules 2 and 3: oldest live images go while more than `limit` are left. */
    method KeepNewestImages(limit: nat)
      requires Valid()
      modifies this, notes
      ensures Valid() && notes[..] == KeepNewest(old(notes[..]), limit)
    {
      hide KeepNewest;
      ghost var before := notes[..];
      var i := 0;
      ghost var plan := DropOldest(before, if live > limit then live - limit else 0);
      assert KeepNewest(before, limit) == plan by { KeepNewestIs(before, limit); }
      assert before[0..] == before && before[..0] == [];
      while i < notes.Length && live > limit
        invariant 0 <= i <= notes.Length == |before| && Valid()
        invariant notes[i..] == before[i..]
        invariant notes[..i] + DropOldest(before[i..], if live > limit then live - limit else 0) == plan
        invariant live > limit ==> live - limit <= Live(before[i..])
      {
        OmitAt(before, i, limit);
        i := i + 1;
      }
      assert notes[..i] + notes[i..] == notes[..];
      assert i == notes.Length ==> before[i..] == [];
    }

    method OmitAt(ghost before: seq<Option<Note>>, i: nat, limit: nat)
      requires Valid() && i < notes.Length == |before| && live > limit && notes[i..] == before[i..]
      requires live - limit <= Live(before[i..])
      modifies this, notes
      ensures Valid()
      ensures notes[i + 1..] == before[i + 1..]
      ensures notes[..i + 1] + DropOldest(before[i + 1..], if live > limit then live - limit else 0)
           == old(notes[..i]) + DropOldest(before[i..], old(live) - limit)
      ensures live > limit ==> live - limit <= Live(before[i + 1..])
    {
      ghost var was := notes[..];
      assert was[i..][0] == before[i];
      OmitStep(was[..i], before, i, live - limit);
      hide DropOldest;
      if notes[i].None? {
        LiveUpdate(was, i, Some(Omitted));
        notes[i] := Some(Omitted);
        assert notes[..] == was[i := Some(Omitted)];
        live := live - 1;
        assert notes[..i + 1] == was[..i] + [Some(Omitted)];
        hide Live;
      } else {
        assert notes[..i + 1] == was[..i] + [before[i]];
        hide Live;
      }
    }

    /** Rule 4: oldest base64 images go while the payload exceeds the budget. */
    method FitImageBudget()
      requires Valid()
      modifies this, notes
      ensures Valid() && notes[..] == FitBudget(images, old(notes[..]), Weight(images, old(notes[..])))
    {
      ghost var before := notes[..];
      var sum := Payload();
      var i := 0;
      ghost var plan := FitBudget(images, before, sum);
      assert before[0..] == before && images[0..] == images;
      while i < notes.Length && sum > TOTAL_IMAGE_BASE64_BUDGET
        invariant 0 <= i <= notes.Length == |before| == |images| && Valid()
        invariant notes[i..] == before[i..]
        invariant notes[..i] + FitBudget(images[i..], before[i..], sum) == plan
      {
        sum := EvictAt(before, i, sum);
        i := i + 1;
      }
      assert notes[..i] + notes[i..] == notes[..];
      assert i == notes.Length ==> before[i..] == [];
    }

    method EvictAt(ghost before: seq<Option<Note>>, i: nat, sum: int) returns (left: int)
      requires Valid() && i < notes.Length == |before| && sum > TOTAL_IMAGE_BASE64_BUDGET && notes[i..] == before[i..]
      modifies this, notes
      ensures Valid() && notes[i + 1..] == before[i + 1..]
      ensures notes[..i + 1] + FitBudget(images[i + 1..], before[i + 1..], left)
           == old(notes[..i]) + FitBudget(images[i..], before[i..], sum)
    {
      ghost var was := notes[..];
      assert was[i..][0] == before[i];
      assert before[i..][1..] == before[i + 1..] && images[i..][1..] == images[i + 1..];
      left := sum;
      if notes[i].None? && Length(images[i]) > 0 {
        LiveUpdate(was, i, Some(ByteBudget));
        notes[i] := Some(ByteBudget);
        assert notes[..] == was[i := Some(ByteBudget)];
        live := live - 1;
        left := sum - Length(images[i]);
        assert notes[..i + 1] == was[..i] + [Some(ByteBudget)];
      } else {
        assert notes[..i + 1] == was[..i] + [before[i]];
      }
    }

    method Payload() returns (sum: int)
      requires Valid()
      ensures sum == Weight(images, notes[..])
    {
      sum := 0;
      var i := notes.Length;
      assert notes[notes.Length..] == [] && images[|images|..] == [];
      while i > 0
        invariant 0 <= i <= notes.Length && sum == Weight(images[i..], notes[i..])
      {
        i := i - 1;
        assert notes[i..] == [notes[i]] + notes[i + 1..] && images[i..] == [images[i]] + images[i + 1..];
        if notes[i].None? { sum := sum + Length(images[i]); }
      }
      assert notes[0..] == notes[..] && images[0..] == images;
    }

    /** `enforceAnthropicImageLimits` over the collected references. */
    method Run()
      requires Valid() && AllLive(notes[..])
      modifies this, notes
      ensures Valid() && notes[..] == Decide(sniff, images)
    {
      hide Live, PerImage, KeepNewest, FitBudget, Risky;
      DropUnacceptable();
      var risky := false;
      var i := 0;
      while i < notes.Length && !risky
        invariant 0 <= i <= notes.Length
        invariant !risky ==> forall j :: 0 <= j < i ==> !(notes[j].None? && Risky(sniff, images[j]))
        invariant risky ==> AnyRisky(sniff, images, notes[..])
      {
        risky := notes[i].None? && Risky(sniff, images[i]);
        i := i + 1;
      }
      assert risky <==> AnyRisky(sniff, images, notes[..]);
      if risky { KeepNewestImages(MANY_IMAGE_THRESHOLD); }
      KeepNewestImages(MAX_IMAGES_PER_REQUEST);
      FitImageBudget();
    }
  }

  lemma KeepNewestIs(notes: seq<Option<Note>>, limit: nat)
    ensures KeepNewest(notes, limit) == DropOldest(notes, if Live(notes) > limit then Live(notes) - limit else 0)
  {
  }

  /** What dropping the oldest does with one note: it takes a live one, and passes a dropped one. */
  lemma OmitStep(done: seq<Option<Note>>, before: seq<Option<Note>>, i: nat, excess: nat)
    requires i < |before| && 0 < excess <= Live(before[i..])
    ensures var rest := before[i + 1..];
      if before[i].None? then
        done + DropOldest(before[i..], excess) == done + [Some(Omitted)] + DropOldest(rest, excess - 1) && excess - 1 <= Live(rest)
      else
        done + DropOldest(before[i..], excess) == done + [before[i]] + DropOldest(rest, excess) && excess <= Live(rest)
  {
    assert before[i..][1..] == before[i + 1..];
  }

  lemma {:induction false} LiveUpdate(notes: seq<Option<Note>>, i: nat, note: Option<Note>)
    requires i < |notes| && notes[i].None? && note.Some?
    ensures Live(notes[i := note]) == Live(notes) - 1
  {
    if i == 0 {
      assert notes[0 := note][1..] == notes[1..];
    } else {
      assert notes[i := note][1..] == notes[1..][i - 1 := note];
      LiveUpdate(notes[1..], i - 1, note);
    }
  }
}
