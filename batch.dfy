/** A photo session (`runGeneration`, MainApp.tsx:1292-1488) and the stop
    button (`handleStop`, MainApp.tsx:1580-1584), on the state the studio
    keeps: the key pool and its storage, the gallery and the session flags.

    Everything outside the program is an input, gathered in `World`: the
    answers of the studio, scenario and photo services (one oracle per
    call), the fetch-crop-read step after a photo, the random draws, the
    JSON rendering of a prompt, and the moment the stop button is pressed.
    That moment is a rank among the points where the run reads its
    running flag: for photo `i` the top of the loop is rank `3 * i`, the
    check after the photo call `3 * i + 1`, the check before the pause
    `3 * i + 2`, and the check after the loop `3 * count`. A press during
    preparation is one before rank 0. The flag reads false at every rank
    from the press on. */
module Batch {
  import opened Types
  import opened Seqs
  import opened Text
  import opened KeyPool
  import opened Failover
  import opened Utils
  import opened Lists
  import opened Session

  // ---------------------------------------------------------------------
  // Constants of the run
  // ---------------------------------------------------------------------

  /** `locationGroups["Studio & Konsep"]`: the themes that get a virtual studio set. */
  const StudioThemes: seq<string> := [
    "Studio Minimalis (Latar Putih)", "Studio Latar Warna Solid", "Studio Konsep Bohemian", "Studio Tema Bunga & Tanaman",
    "Studio Industrial (Dinding Bata)", "Studio Konsep Rumahan (Cozy)", "Studio Tema Vintage & Retro", "Studio Gelap & Moody (Low Key)",
    "Studio dengan Properti Unik", "Studio Proyeksi & Neon Light"]

  const ImageThemeLabel: string := "Dari gambar referensi"
  const ImageEmotion: string := "Sesuai dengan suasana gambar referensi."
  const PromptEmotion: string := "Sesuai deskripsi kustom yang diberikan."

  /** The scenarios used when the scenario service fails; the first scene
      keeps the source's mis-encoded "café". */
  const FallbackScenarios: seq<Scenario> := [
    Scenario("A couple shares a candid laugh while sharing coffee at a small, cozy caf\U{00C3}\U{00A9}.", "Joyful intimacy"),
    Scenario("Walking hand-in-hand along a misty forest path at dawn.", "Serene connection"),
    Scenario("A surprise proposal scene under blooming cherry blossoms in a quiet park.", "Overwhelming happiness"),
    Scenario("An intimate kitchen moment, playfully baking together with flour on their noses.", "Playful affection"),
    Scenario("Watching the city lights from a rooftop balcony, wrapped in a shared blanket.", "Quiet contentment"),
    Scenario("A farewell moment at a vintage train station, promising to return.", "Bittersweet romance")]

  /** What fills the scenario list up to the photo count. */
  const PadScenario: Scenario := Scenario("The couple shares a quiet, intimate moment.", "A feeling of deep connection.")

  const RandomShot: string := "Random"
  const ShotChoices: seq<string> := ["Full Body Shot", "Medium Shot"]
  const ReferenceStyle: string := "Referensi Photo"
  const ClothingFromReference: string := "Mengikuti pakaian dari foto referensi"
  const ClothingFromStyle: string := "Dihasilkan oleh AI berdasarkan gaya"

  // ---------------------------------------------------------------------
  // Validation (MainApp.tsx:1293-1315)
  // ---------------------------------------------------------------------

  datatype Rejection = MissingSeparateAnchors | MissingCoupleAnchor | MissingCustomTheme | MissingLocationReference

  /** `identityAnchors.find(a => a.subject === subject && a.angle === 'depan')` finds one. */
  predicate HasFront(anchors: seq<IdentityAnchorFile>, subject: Subject) {
    exists k :: 0 <= k < |anchors| && anchors[k].subject == subject && anchors[k].angle == Depan
  }

  /** What a session needs before it may start. */
  predicate Ready(cfg: Settings, anchors: seq<IdentityAnchorFile>) {
    (cfg.referenceMode == Separate ==> HasFront(anchors, Pria) && HasFront(anchors, Wanita)) &&
    (cfg.referenceMode == Couple ==> anchors != []) &&
    (cfg.useCustomTheme && cfg.customThemeMode == FromPrompt ==> !AllWhitespace(cfg.customLocationTheme)) &&
    (cfg.useCustomTheme && cfg.customThemeMode == FromImage ==> cfg.locationReferenceImage.Some?)
  }

  /** The checks in their order: a missing front photo in separate mode,
      no photo in couple mode, a blank custom theme, a missing location
      image. A run is refused exactly when it is not `Ready`. */
  function Validate(cfg: Settings, anchors: seq<IdentityAnchorFile>): (r: Option<Rejection>)
    ensures r.None? <==> Ready(cfg, anchors)
    ensures r == Some(MissingSeparateAnchors) ==>
              cfg.referenceMode == Separate && !(HasFront(anchors, Pria) && HasFront(anchors, Wanita))
    ensures r == Some(MissingCoupleAnchor) ==> cfg.referenceMode == Couple && anchors == []
    ensures r == Some(MissingCustomTheme) ==>
              (cfg.referenceMode == Separate ==> HasFront(anchors, Pria) && HasFront(anchors, Wanita)) &&
              (cfg.referenceMode == Couple ==> anchors != []) &&
              cfg.useCustomTheme && cfg.customThemeMode == FromPrompt && AllWhitespace(cfg.customLocationTheme)
    ensures r == Some(MissingLocationReference) ==>
              (cfg.referenceMode == Separate ==> HasFront(anchors, Pria) && HasFront(anchors, Wanita)) &&
              (cfg.referenceMode == Couple ==> anchors != []) &&
              cfg.useCustomTheme && cfg.customThemeMode == FromImage && cfg.locationReferenceImage.None?
  {
    TrimBlankIff(cfg.customLocationTheme);
    if cfg.referenceMode == Separate && (!HasFront(anchors, Pria) || !HasFront(anchors, Wanita)) then Some(MissingSeparateAnchors)
    else if cfg.referenceMode == Couple && |anchors| == 0 then Some(MissingCoupleAnchor)
    else if cfg.useCustomTheme && cfg.customThemeMode == FromPrompt && Trim(cfg.customLocationTheme) == "" then Some(MissingCustomTheme)
    else if cfg.useCustomTheme && cfg.customThemeMode == FromImage && cfg.locationReferenceImage.None? then Some(MissingLocationReference)
    else None
  }

  // ---------------------------------------------------------------------
  // Preparation: theme, studio set, scenarios (MainApp.tsx:1338-1392)
  // ---------------------------------------------------------------------

  /** `finalLocationTheme`: a custom prompt is used as typed, untrimmed. */
  function FinalTheme(cfg: Settings): string {
    if cfg.useCustomTheme then (if cfg.customThemeMode == FromImage then ImageThemeLabel else cfg.customLocationTheme)
    else cfg.locationTheme
  }

  function CustomEmotion(mode: CustomThemeMode): string {
    if mode == FromImage then ImageEmotion else PromptEmotion
  }

  /** `pool[i % pool.length]` for `i` below `count`. */
  function Cycled<X>(pool: seq<X>, count: nat): (r: seq<X>)
    requires pool != []
    ensures |r| == count && forall i :: 0 <= i < count ==> r[i] == pool[i % |pool|]
  {
    seq(count, i requires 0 <= i < count => pool[i % |pool|])
  }

  /** The fallback loop: `count` scenarios taken round the shuffled pool. */
  method Cycle<X>(pool: seq<X>, count: nat) returns (r: seq<X>)
    requires pool != []
    ensures r == Cycled(pool, count)
  {
    r := [];
    for i := 0 to count
      invariant r == Cycled(pool, i)
    {
      r := r + [pool[i % |pool|]];
    }
  }

  /** Going round a pool at least once uses every element of it. */
  lemma CycleCoversPool<X>(pool: seq<X>, count: nat)
    requires pool != [] && count >= |pool|
    ensures Cycled(pool, count)[..|pool|] == pool
    ensures forall x :: x in pool ==> x in Cycled(pool, count)
  {
    var r := Cycled(pool, count);
    assert forall i :: 0 <= i < |pool| ==> r[i] == pool[i];
    assert r[..|pool|] == pool;
    forall x | x in pool ensures x in r {
      var j :| 0 <= j < |pool| && pool[j] == x;
      assert r[j] == x;
    }
  }

  /** The fallback scenarios, shuffled with `rs`, cycled to `count`: one
      fallback scenario per photo. */
  function FallbackCycle(rs: seq<real>, count: nat): (r: seq<Scenario>)
    requires |rs| == |FallbackScenarios| && ValidDraws(rs)
    ensures |r| == count
    ensures forall k :: 0 <= k < count ==> r[k] in FallbackScenarios
  {
    ShuffleFromPermutes(FallbackScenarios, Partners(rs), |FallbackScenarios| - 1);
    var shuffled := Shuffled(FallbackScenarios, rs);
    var r := Cycled(shuffled, count);
    assert forall k :: 0 <= k < count ==> r[k] in multiset(shuffled);
    r
  }

  /** With six photos or more every fallback scenario is used, each once
      among the first six. */
  lemma FallbackUsesAll(rs: seq<real>, count: nat)
    requires |rs| == |FallbackScenarios| && ValidDraws(rs) && count >= |FallbackScenarios|
    ensures multiset(FallbackCycle(rs, count)[..|FallbackScenarios|]) == multiset(FallbackScenarios)
  {
    ShuffleFromPermutes(FallbackScenarios, Partners(rs), |FallbackScenarios| - 1);
    CycleCoversPool(Shuffled(FallbackScenarios, rs), count);
  }

  /** Padding with the quiet-moment scenario up to `count`. */
  function Pad(s: seq<Scenario>, count: nat): (r: seq<Scenario>)
    ensures |r| >= count && |r| >= |s| && r[..|s|] == s
    ensures |s| >= count ==> r == s
    ensures |s| < count ==> |r| == count && forall k :: |s| <= k < count ==> r[k] == PadScenario
  {
    if |s| < count then s + Repeat(PadScenario, count - |s|) else s
  }

  datatype StudioSetup = StudioSetup(keys: seq<ApiKey>, desc: Option<string>, sessionDesc: Option<string>)

  /** The studio set: described once per fresh session with a studio
      theme, reused by continuations; a failed description is tolerated. */
  function StudioPhase(snapshot: Pool, keys: seq<ApiKey>, isContinuation: bool, theme: string, sessionDesc: Option<string>, w: World): StudioSetup {
    if !isContinuation && theme in StudioThemes then
      var t := PerformSpec(snapshot, w.studioCall);
      var next := ApplyWrites(keys, t.writes);
      if t.result.Success? then StudioSetup(next, Some(t.result.value), Some(t.result.value))
      else StudioSetup(next, None, sessionDesc)
    else if isContinuation && theme in StudioThemes then StudioSetup(keys, sessionDesc, sessionDesc)
    else StudioSetup(keys, None, sessionDesc)
  }

  datatype ScenarioSetup = ScenarioSetup(keys: seq<ApiKey>, scenarios: seq<Scenario>)

  /** The scenarios: the custom theme repeated, or the service's answer,
      or the shuffled fallbacks; then padding. */
  function ScenarioPhase(snapshot: Pool, keys: seq<ApiKey>, cfg: Settings, theme: string, count: nat, w: World): (r: ScenarioSetup)
    requires ValidWorld(w)
    ensures |r.scenarios| >= count
  {
    if cfg.useCustomTheme then
      ScenarioSetup(keys, Pad(Repeat(Scenario(theme, CustomEmotion(cfg.customThemeMode)), count), count))
    else
      var t := PerformSpec(snapshot, w.scenarioCall);
      var drafted := if t.result.Success? then t.result.value else FallbackCycle(w.shuffleDraws, count);
      ScenarioSetup(ApplyWrites(keys, t.writes), Pad(drafted, count))
  }

  /** A custom theme gives every photo the theme itself as its scene. */
  lemma CustomScenes(snapshot: Pool, keys: seq<ApiKey>, cfg: Settings, theme: string, count: nat, w: World)
    requires ValidWorld(w) && cfg.useCustomTheme
    ensures var r := ScenarioPhase(snapshot, keys, cfg, theme, count, w);
            r.keys == keys && |r.scenarios| == count &&
            forall k :: 0 <= k < count ==> r.scenarios[k] == Scenario(theme, CustomEmotion(cfg.customThemeMode))
  {
  }

  // ---------------------------------------------------------------------
  // The outside world
  // ---------------------------------------------------------------------

  /** `creativeDetailsForPrompt`, the record a gallery image keeps as its prompt. */
  datatype CreativeDetails = CreativeDetails(
    locationTheme: string, scenarioScene: string, scenarioEmotion: string,
    colorTone: string, womanStyle: string, aspectRatio: string, cameraShot: string,
    clothing: string, studioDescription: Option<string>, negativePrompt: string)

  datatype World = World(
    studioCall: Oracle<string>,
    scenarioCall: Oracle<seq<Scenario>>,
    photoCall: nat -> Oracle<string>,
    finish: nat -> string -> Option<string>,
    idDraws: nat -> seq<real>,
    shotDraw: nat -> real,
    shuffleDraws: seq<real>,
    render: CreativeDetails -> string,
    stopFrom: Option<nat>)

  /** Random draws lie in [0, 1), and there are as many as the code draws. */
  ghost predicate ValidWorld(w: World) {
    |w.shuffleDraws| == |FallbackScenarios| && ValidDraws(w.shuffleDraws) &&
    (forall i: nat :: |w.idDraws(i)| == RandomLength && ValidDraws(w.idDraws(i))) &&
    (forall i: nat :: 0.0 <= w.shotDraw(i) < 1.0)
  }

  /** The running flag reads false at `rank`. */
  predicate StopSeen(stopFrom: Option<nat>, rank: nat) {
    stopFrom.Some? && stopFrom.value <= rank
  }

  /** The stop button was pressed before `rank`. */
  predicate SeenBefore(stopFrom: Option<nat>, rank: nat) {
    stopFrom.Some? && stopFrom.value < rank
  }

  // ---------------------------------------------------------------------
  // The photo loop (MainApp.tsx:1406-1466)
  // ---------------------------------------------------------------------

  /** What a photo is made of besides its picture: the scenarios, the
      theme, the studio set, the settings and the draws. */
  datatype Look = Look(scenarios: seq<Scenario>, theme: string, studioDesc: Option<string>, cfg: Settings, w: World)

  ghost predicate ValidLook(look: Look, count: nat) {
    ValidWorld(look.w) && |look.scenarios| >= count
  }

  function ShotFor(cameraShot: string, r: real): string
    requires 0.0 <= r < 1.0
  {
    if cameraShot == RandomShot then ShotChoices[RandomIndex(r, |ShotChoices|)] else cameraShot
  }

  function Clothing(womanStyle: string): string {
    if womanStyle == ReferenceStyle then ClothingFromReference else ClothingFromStyle
  }

  /** `studioDescForSession || undefined`. */
  function StudioText(o: Option<string>): Option<string> {
    if Truthy(o) then o else None
  }

  function DetailsAt(look: Look, i: nat): CreativeDetails
    requires ValidWorld(look.w) && i < |look.scenarios|
  {
    var sc := look.scenarios[i % |look.scenarios|];
    CreativeDetails(look.theme, sc.scene, sc.emotion, look.cfg.colorTone, look.cfg.womanStyle, look.cfg.aspectRatio,
                    ShotFor(look.cfg.cameraShot, look.w.shotDraw(i)), Clothing(look.cfg.womanStyle),
                    StudioText(look.studioDesc), NegativePrompt(look.cfg.selectedNegativePrompts, look.cfg.customNegativePrompt))
  }

  /** The gallery entry for photo `i` once its picture reads as `url`. */
  function NewImage(look: Look, i: nat, url: string): GeneratedImage
    requires ValidWorld(look.w) && i < |look.scenarios|
  {
    GeneratedImage(FilenameOf(DefaultPrefix, DefaultExtension, look.w.idDraws(i)), url, look.w.render(DetailsAt(look, i)), false)
  }

  /** `newImage`: a fresh random filename, the cropped picture, the
      rendered details, not a favourite. */
  method MakeImage(look: Look, i: nat, url: string) returns (image: GeneratedImage)
    requires ValidWorld(look.w) && i < |look.scenarios|
    ensures image == NewImage(look, i, url)
    ensures !image.isFavorite && image.url == url
    ensures |image.id| == |DefaultPrefix| + |DefaultExtension| + 14 && image.id[..|DefaultPrefix|] == DefaultPrefix
  {
    var id := GenerateRandomFilename(DefaultPrefix, DefaultExtension, look.w.idDraws(i));
    image := GeneratedImage(id, url, look.w.render(DetailsAt(look, i)), false);
  }

  /** What the loop works with once preparation is over. Every call uses
      `snapshot`, the pool as it was when the run started; `image` builds
      the gallery entry of photo `i` from its picture, and `trace` is what
      the call for photo `i` does. */
  datatype Context = Context(snapshot: Pool, count: nat, delay: nat, w: World,
                             image: (nat, string) -> GeneratedImage, trace: nat -> Trace<string>)

  /** `image` builds the entries `NewImage` describes, and `trace` is
      `performApiCall` on the snapshot with the photo service's answers. */
  ghost predicate Builds(ctx: Context, look: Look) {
    ValidLook(look, ctx.count) && ctx.w == look.w &&
    (forall i: nat, url: string :: i < ctx.count ==> ctx.image(i, url) == NewImage(look, i, url)) &&
    (forall i: nat :: ctx.trace(i) == PerformSpec(ctx.snapshot, ctx.w.photoCall(i)))
  }

  function LoopContext(snapshot: Pool, count: nat, delay: nat, look: Look): (ctx: Context)
    requires ValidLook(look, count)
    ensures ctx.snapshot == snapshot && ctx.count == count && ctx.delay == delay && Builds(ctx, look)
  {
    Context(snapshot, count, delay, look.w,
            (i: nat, url: string) => if i < |look.scenarios| then NewImage(look, i, url) else GeneratedImage("", url, "", false),
            (i: nat) => PerformSpec(snapshot, look.w.photoCall(i)))
  }

  /** What the call for photo `i` does. */
  function PhotoTrace(ctx: Context, i: nat): Trace<string> {
    ctx.trace(i)
  }

  datatype Progress = Progress(keys: seq<ApiKey>, images: seq<GeneratedImage>, pauses: seq<nat>, stopped: bool)

  /** One turn of the loop, from a state where it has not stopped. */
  function Iteration(ctx: Context, i: nat, p: Progress): Progress
  {
    if StopSeen(ctx.w.stopFrom, 3 * i) then p.(stopped := true)
    else
      var t := PhotoTrace(ctx, i);
      var keys := ApplyWrites(p.keys, t.writes);
      if t.result.Success? && StopSeen(ctx.w.stopFrom, 3 * i + 1) then Progress(keys, p.images, p.pauses, true)
      else
        var cropped := if t.result.Success? then ctx.w.finish(i)(t.result.value) else None;
        var images := if cropped.Some? then p.images + [ctx.image(i, cropped.value)] else p.images;
        var pauses := if !StopSeen(ctx.w.stopFrom, 3 * i + 2) && i < ctx.count - 1 && ctx.delay > 0 then p.pauses + [i] else p.pauses;
        Progress(keys, images, pauses, false)
  }

  /** The state after the first `n` turns; a stopped loop stays put. */
  function LoopSpec(ctx: Context, start: Progress, n: nat): Progress
  {
    if n == 0 then start
    else
      var p := LoopSpec(ctx, start, n - 1);
      if p.stopped then p else Iteration(ctx, n - 1, p)
  }

  lemma {:induction false} StoppedStays(ctx: Context, start: Progress, m: nat, n: nat)
    requires m <= n <= ctx.count && LoopSpec(ctx, start, m).stopped
    ensures LoopSpec(ctx, start, n) == LoopSpec(ctx, start, m)
    decreases n
  {
    if n > m {
      StoppedStays(ctx, start, m, n - 1);
    }
  }

  /** The loop invariant: `i` turns done without stopping. */
  ghost predicate LoopAt(ctx: Context, start: Progress, i: nat, keys: seq<ApiKey>, images: seq<GeneratedImage>, pauses: seq<nat>) {
    i <= ctx.count && LoopSpec(ctx, start, i) == Progress(keys, images, pauses, false)
  }

  /** The loop body when the flag reads false at the top. */
  lemma StopsAtTop(ctx: Context, start: Progress, i: nat, keys: seq<ApiKey>, images: seq<GeneratedImage>, pauses: seq<nat>)
    requires i < ctx.count && LoopAt(ctx, start, i, keys, images, pauses) && StopSeen(ctx.w.stopFrom, 3 * i)
    ensures LoopSpec(ctx, start, ctx.count) == Progress(keys, images, pauses, true)
  {
    StoppedStays(ctx, start, i + 1, ctx.count);
  }

  /** The loop body when the flag reads false after a successful call. */
  lemma StopsAfterCall(ctx: Context, start: Progress, i: nat, keys: seq<ApiKey>, images: seq<GeneratedImage>, pauses: seq<nat>)
    requires i < ctx.count && LoopAt(ctx, start, i, keys, images, pauses) && !StopSeen(ctx.w.stopFrom, 3 * i)
    requires PhotoTrace(ctx, i).result.Success? && StopSeen(ctx.w.stopFrom, 3 * i + 1)
    ensures LoopSpec(ctx, start, ctx.count) == Progress(ApplyWrites(keys, PhotoTrace(ctx, i).writes), images, pauses, true)
  {
    StoppedStays(ctx, start, i + 1, ctx.count);
  }

  /** The loop body when the loop goes on to the next photo. */
  lemma MovesOn(ctx: Context, start: Progress, i: nat, keys: seq<ApiKey>, images: seq<GeneratedImage>, pauses: seq<nat>)
    requires i < ctx.count && LoopAt(ctx, start, i, keys, images, pauses) && !StopSeen(ctx.w.stopFrom, 3 * i)
    requires !(PhotoTrace(ctx, i).result.Success? && StopSeen(ctx.w.stopFrom, 3 * i + 1))
    ensures LoopAt(ctx, start, i + 1, ApplyWrites(keys, PhotoTrace(ctx, i).writes),
                   if Kept(ctx, i) then images + [ctx.image(i, KeptUrl(ctx, i))] else images,
                   if Paused(ctx, i) then pauses + [i] else pauses)
  {
  }

  // The same loop stated index by index: which photos reach the gallery,
  // where the pauses fall, which status writes reach the pool.

  /** Photo `i` reaches the gallery: its call succeeded, the stop was not
      pressed before the check after the call, and the picture could be
      fetched and cropped. */
  predicate Kept(ctx: Context, i: nat) {
    !StopSeen(ctx.w.stopFrom, 3 * i + 1) && PhotoTrace(ctx, i).result.Success? &&
    ctx.w.finish(i)(PhotoTrace(ctx, i).result.value).Some?
  }

  function KeptUrl(ctx: Context, i: nat): string
    requires Kept(ctx, i)
  {
    ctx.w.finish(i)(PhotoTrace(ctx, i).result.value).value
  }

  /** The gallery entries of the first `n` photos, in order. */
  function Produced(ctx: Context, n: nat): seq<GeneratedImage>
  {
    if n == 0 then []
    else Produced(ctx, n - 1) + (if Kept(ctx, n - 1) then [ctx.image(n - 1, KeptUrl(ctx, n - 1))] else [])
  }

  /** A pause follows photo `i`: the flag still reads true before it, a
      photo follows, and the delay is not zero. */
  predicate Paused(ctx: Context, i: nat) {
    !StopSeen(ctx.w.stopFrom, 3 * i + 2) && i + 1 < ctx.count && ctx.delay > 0
  }

  function PausesUpTo(ctx: Context, n: nat): seq<nat> {
    if n == 0 then [] else PausesUpTo(ctx, n - 1) + (if Paused(ctx, n - 1) then [n - 1] else [])
  }

  /** The status writes of the photo calls made among the first `n`. */
  function WritesUpTo(ctx: Context, n: nat): seq<StatusWrite> {
    if n == 0 then []
    else WritesUpTo(ctx, n - 1) + (if !StopSeen(ctx.w.stopFrom, 3 * (n - 1)) then PhotoTrace(ctx, n - 1).writes else [])
  }

  // The loop agrees with the index-wise description.

  /** The loop stops only once the flag has read false. */
  lemma {:induction false} LoopStopped(ctx: Context, start: Progress, n: nat)
    requires n <= ctx.count && !start.stopped
    ensures LoopSpec(ctx, start, n).stopped ==> n > 0 && StopSeen(ctx.w.stopFrom, 3 * n - 2)
    decreases n
  {
    if n > 0 {
      LoopStopped(ctx, start, n - 1);
    }
  }

  lemma {:induction false} LoopImages(ctx: Context, start: Progress, n: nat)
    requires n <= ctx.count && !start.stopped
    ensures LoopSpec(ctx, start, n).images == start.images + Produced(ctx, n)
    decreases n
  {
    if n == 0 {
      assert start.images + [] == start.images;
    } else {
      var i := n - 1;
      LoopImages(ctx, start, i);
      LoopStopped(ctx, start, i);
      var p := LoopSpec(ctx, start, i);
      if p.stopped || !Kept(ctx, i) {
        assert LoopSpec(ctx, start, n).images == p.images;
        assert Produced(ctx, n) == Produced(ctx, i) + [];
      } else {
        var x := ctx.image(i, KeptUrl(ctx, i));
        assert LoopSpec(ctx, start, n).images == p.images + [x];
        assert Produced(ctx, n) == Produced(ctx, i) + [x];
        assert (start.images + Produced(ctx, i)) + [x] == start.images + (Produced(ctx, i) + [x]);
      }
    }
  }

  lemma {:induction false} LoopPauses(ctx: Context, start: Progress, n: nat)
    requires n <= ctx.count && !start.stopped
    ensures LoopSpec(ctx, start, n).pauses == start.pauses + PausesUpTo(ctx, n)
    decreases n
  {
    if n == 0 {
      assert start.pauses + [] == start.pauses;
    } else {
      var i := n - 1;
      LoopPauses(ctx, start, i);
      LoopStopped(ctx, start, i);
      var p := LoopSpec(ctx, start, i);
      if p.stopped || !Paused(ctx, i) {
        assert LoopSpec(ctx, start, n).pauses == p.pauses;
        assert PausesUpTo(ctx, n) == PausesUpTo(ctx, i) + [];
      } else {
        assert LoopSpec(ctx, start, n).pauses == p.pauses + [i];
        assert PausesUpTo(ctx, n) == PausesUpTo(ctx, i) + [i];
        assert (start.pauses + PausesUpTo(ctx, i)) + [i] == start.pauses + (PausesUpTo(ctx, i) + [i]);
      }
    }
  }

  lemma {:induction false} LoopKeys(ctx: Context, start: Progress, n: nat)
    requires n <= ctx.count && !start.stopped
    ensures LoopSpec(ctx, start, n).keys == ApplyWrites(start.keys, WritesUpTo(ctx, n))
    decreases n
  {
    if n > 0 {
      var i := n - 1;
      LoopKeys(ctx, start, i);
      LoopStopped(ctx, start, i);
      var p := LoopSpec(ctx, start, i);
      var extra := if !StopSeen(ctx.w.stopFrom, 3 * i) then PhotoTrace(ctx, i).writes else [];
      ApplyWritesConcat(start.keys, WritesUpTo(ctx, i), extra);
      if p.stopped || StopSeen(ctx.w.stopFrom, 3 * i) {
        assert extra == [] && LoopSpec(ctx, start, n).keys == p.keys;
        assert WritesUpTo(ctx, i) + [] == WritesUpTo(ctx, i);
      } else {
        assert LoopSpec(ctx, start, n).keys == ApplyWrites(p.keys, extra);
      }
    }
  }

  /** At most one image per photo, none of them a favourite. */
  lemma {:induction false} ProducedShape(ctx: Context, look: Look, n: nat)
    requires n <= ctx.count && Builds(ctx, look)
    ensures |Produced(ctx, n)| <= n
    ensures forall k :: 0 <= k < |Produced(ctx, n)| ==>
              !Produced(ctx, n)[k].isFavorite
    decreases n
  {
    if n > 0 {
      ProducedShape(ctx, look, n - 1);
    }
  }

  /** When nothing stops the run and every call and every crop succeeds,
      every photo reaches the gallery. */
  lemma {:induction false} ProducedAll(ctx: Context, n: nat)
    requires n <= ctx.count
    requires ctx.w.stopFrom.None?
    requires forall i :: 0 <= i < n ==> PhotoTrace(ctx, i).result.Success?
    requires forall i :: 0 <= i < n ==> ctx.w.finish(i)(PhotoTrace(ctx, i).result.value).Some?
    ensures |Produced(ctx, n)| == n
    decreases n
  {
    if n > 0 {
      ProducedAll(ctx, n - 1);
      assert Kept(ctx, n - 1);
    }
  }

  /** A stop pressed during preparation: no photo call, no image, no pause. */
  lemma {:induction false} StoppedBeforeLoop(ctx: Context, n: nat)
    requires n <= ctx.count && ctx.w.stopFrom == Some(0)
    ensures Produced(ctx, n) == [] && PausesUpTo(ctx, n) == [] && WritesUpTo(ctx, n) == []
    decreases n
  {
    if n > 0 {
      StoppedBeforeLoop(ctx, n - 1);
    }
  }

  /** Pauses fall between photos, in order, at most one after each. */
  lemma {:induction false} PausesBetween(ctx: Context, n: nat)
    ensures |PausesUpTo(ctx, n)| <= n
    ensures forall k :: 0 <= k < |PausesUpTo(ctx, n)| ==> PausesUpTo(ctx, n)[k] < n && PausesUpTo(ctx, n)[k] + 1 < ctx.count
    ensures forall j, k :: 0 <= j < k < |PausesUpTo(ctx, n)| ==> PausesUpTo(ctx, n)[j] < PausesUpTo(ctx, n)[k]
    ensures ctx.delay == 0 ==> PausesUpTo(ctx, n) == []
    decreases n
  {
    if n > 0 {
      PausesBetween(ctx, n - 1);
    }
  }

  /** Without a stop and with a delay, there is a pause after every photo
      but the last. */
  lemma {:induction false} PausesEverywhere(ctx: Context, n: nat)
    requires ctx.w.stopFrom.None? && ctx.delay > 0 && n <= ctx.count
    ensures |PausesUpTo(ctx, n)| == if n == ctx.count && n > 0 then n - 1 else n
    ensures forall k :: 0 <= k < |PausesUpTo(ctx, n)| ==> PausesUpTo(ctx, n)[k] == k
    decreases n
  {
    if n > 0 {
      PausesEverywhere(ctx, n - 1);
    }
  }

  /** A status write only touches the status, so neither does a series. */
  predicate StatusOnly(before: seq<ApiKey>, after: seq<ApiKey>) {
    |after| == |before| && forall k :: 0 <= k < |before| ==> SameKeyExceptStatus(after[k], before[k])
  }

  lemma WritesTouchStatusOnly(pool: seq<ApiKey>, writes: seq<StatusWrite>)
    ensures StatusOnly(pool, ApplyWrites(pool, writes))
  {
    ApplyWritesEffect(pool, writes);
  }

  // ---------------------------------------------------------------------
  // The whole run
  // ---------------------------------------------------------------------

  /** The part of the studio's state a run reads and changes. */
  datatype StudioState = StudioState(
    apiKeys: seq<ApiKey>, storedKeys: seq<ApiKey>, primary: Option<string>,
    images: seq<GeneratedImage>, running: bool, isLoading: bool, sessionFinished: bool,
    targetCount: nat, studioDescription: Option<string>)

  datatype RunOutcome = AlreadyRunning | Rejected(reason: Rejection) | Completed(stopped: bool, pauses: seq<nat>)

  /** `overrideCount ?? imageCount`. */
  function CountFor(overrideCount: Option<nat>, cfg: Settings): nat {
    overrideCount.GetOr(cfg.imageCount)
  }

  /** `sessionTargetCount` after the start of a run. */
  function TargetAfter(old_target: nat, isContinuation: bool, overrideCount: Option<nat>, count: nat): nat {
    if !isContinuation then count
    else if overrideCount.None? || overrideCount.value == 0 then old_target + count
    else old_target
  }

  function Setup(s: StudioState, isContinuation: bool, cfg: Settings, count: nat, w: World): (StudioSetup, ScenarioSetup)
    requires ValidWorld(w)
  {
    var snapshot := Pool(s.apiKeys, s.primary);
    var theme := FinalTheme(cfg);
    var st := StudioPhase(snapshot, s.apiKeys, isContinuation, theme, if isContinuation then s.studioDescription else None, w);
    (st, ScenarioPhase(snapshot, st.keys, cfg, theme, count, w))
  }

  /** What the photos of a run that passed validation are made of. */
  function RunLook(s: StudioState, isContinuation: bool, overrideCount: Option<nat>, cfg: Settings, w: World): (look: Look)
    requires ValidWorld(w)
    ensures ValidLook(look, CountFor(overrideCount, cfg))
  {
    var (st, sc) := Setup(s, isContinuation, cfg, CountFor(overrideCount, cfg), w);
    Look(sc.scenarios, FinalTheme(cfg), st.desc, cfg, w)
  }

  /** The loop's context for a run that passed validation. */
  function RunContext(s: StudioState, isContinuation: bool, overrideCount: Option<nat>, cfg: Settings, w: World): (ctx: Context)
    requires ValidWorld(w)
    ensures ctx.count == CountFor(overrideCount, cfg) && ctx.w == w
    ensures Builds(ctx, RunLook(s, isContinuation, overrideCount, cfg, w))
  {
    LoopContext(Pool(s.apiKeys, s.primary), CountFor(overrideCount, cfg), cfg.delay, RunLook(s, isContinuation, overrideCount, cfg, w))
  }

  /** The state once a run that passed validation has started and its
      preparation is over: flags up, the gallery emptied for a fresh
      session, the target count updated, the studio set and the
      preparation's status writes in place. */
  function Started(s: StudioState, isContinuation: bool, overrideCount: Option<nat>, cfg: Settings, w: World): StudioState
    requires ValidWorld(w)
  {
    var count := CountFor(overrideCount, cfg);
    var (st, sc) := Setup(s, isContinuation, cfg, count, w);
    s.(apiKeys := sc.keys, storedKeys := Persisted(sc.keys), images := if isContinuation then s.images else [],
       running := true, isLoading := true, sessionFinished := isContinuation && s.sessionFinished,
       targetCount := TargetAfter(s.targetCount, isContinuation, overrideCount, count), studioDescription := st.sessionDesc)
  }

  /** `runGeneration(isContinuation, overrideCount)` from state `s`. */
  function RunSpec(s: StudioState, isContinuation: bool, overrideCount: Option<nat>, cfg: Settings,
                   anchors: seq<IdentityAnchorFile>, w: World): (RunOutcome, StudioState)
    requires ValidWorld(w)
  {
    if s.running then (AlreadyRunning, s)
    else if Validate(cfg, anchors).Some? then (Rejected(Validate(cfg, anchors).value), s)
    else Completion(s, isContinuation, overrideCount, cfg, w)
  }

  /** A run that passed validation: preparation, then the loop. */
  function Completion(s: StudioState, isContinuation: bool, overrideCount: Option<nat>, cfg: Settings, w: World): (RunOutcome, StudioState)
    requires ValidWorld(w)
  {
    Concluded(Started(s, isContinuation, overrideCount, cfg, w), RunContext(s, isContinuation, overrideCount, cfg, w))
  }

  /** From the prepared state `m`: the loop, the last check of the flag and
      the flags going down. */
  function Concluded(m: StudioState, ctx: Context): (RunOutcome, StudioState) {
    var p := LoopSpec(ctx, Progress(m.apiKeys, m.images, [], false), ctx.count);
    (Completed(StopSeen(ctx.w.stopFrom, 3 * ctx.count), p.pauses),
     m.(apiKeys := p.keys, storedKeys := Persisted(p.keys), images := p.images,
        running := false, isLoading := false, sessionFinished := true))
  }

  /** A run that is already going or that fails validation changes
      nothing; a run is refused exactly when the settings are not ready. */
  lemma RunGate(s: StudioState, isContinuation: bool, overrideCount: Option<nat>, cfg: Settings, anchors: seq<IdentityAnchorFile>, w: World)
    requires ValidWorld(w)
    ensures var (r, s') := RunSpec(s, isContinuation, overrideCount, cfg, anchors, w);
            (s.running ==> r == AlreadyRunning && s' == s) &&
            (!s.running ==> (r.Rejected? <==> !Ready(cfg, anchors))) &&
            (r.Rejected? ==> s' == s && r.reason == Validate(cfg, anchors).value) &&
            (!s.running && Ready(cfg, anchors) ==> r.Completed?)
  {
  }

  lemma StatusOnlyTrans(a: seq<ApiKey>, b: seq<ApiKey>, c: seq<ApiKey>)
    requires StatusOnly(a, b) && StatusOnly(b, c)
    ensures StatusOnly(a, c)
  {
  }

  /** Preparation only changes key statuses. */
  lemma SetupStatusOnly(s: StudioState, isContinuation: bool, cfg: Settings, count: nat, w: World)
    requires ValidWorld(w)
    ensures StatusOnly(s.apiKeys, Setup(s, isContinuation, cfg, count, w).1.keys)
  {
    var (st, sc) := Setup(s, isContinuation, cfg, count, w);
    var snapshot := Pool(s.apiKeys, s.primary);
    WritesTouchStatusOnly(s.apiKeys, PerformSpec(snapshot, w.studioCall).writes);
    assert StatusOnly(s.apiKeys, st.keys);
    WritesTouchStatusOnly(st.keys, PerformSpec(snapshot, w.scenarioCall).writes);
    assert StatusOnly(st.keys, sc.keys);
    StatusOnlyTrans(s.apiKeys, st.keys, sc.keys);
  }

  /** A completed run leaves the studio idle and finished, keeps the
      primary, keeps storage in step with the pool and only changes key
      statuses. */
  lemma RunEndsIdle(s: StudioState, isContinuation: bool, overrideCount: Option<nat>, cfg: Settings, anchors: seq<IdentityAnchorFile>, w: World)
    requires ValidWorld(w)
    ensures var (r, s') := RunSpec(s, isContinuation, overrideCount, cfg, anchors, w);
            r.Completed? ==>
              !s'.running && !s'.isLoading && s'.sessionFinished && s'.primary == s.primary &&
              s'.storedKeys == Persisted(s'.apiKeys) && StatusOnly(s.apiKeys, s'.apiKeys) &&
              s'.targetCount == TargetAfter(s.targetCount, isContinuation, overrideCount, CountFor(overrideCount, cfg))
  {
    if !s.running && Validate(cfg, anchors).None? {
      var count := CountFor(overrideCount, cfg);
      var m := Started(s, isContinuation, overrideCount, cfg, w);
      var ctx := RunContext(s, isContinuation, overrideCount, cfg, w);
      var start := Progress(m.apiKeys, m.images, [], false);
      SetupStatusOnly(s, isContinuation, cfg, count, w);
      assert StatusOnly(s.apiKeys, m.apiKeys);
      LoopKeys(ctx, start, ctx.count);
      WritesTouchStatusOnly(m.apiKeys, WritesUpTo(ctx, ctx.count));
      StatusOnlyTrans(s.apiKeys, m.apiKeys, LoopSpec(ctx, start, ctx.count).keys);
    }
  }

  /** The gallery after a completed run: a fresh run starts from an empty
      gallery, a continuation keeps the old one, and the new images are
      exactly the kept photos in order — at most one per photo, none a
      favourite. */
  lemma RunImages(s: StudioState, isContinuation: bool, overrideCount: Option<nat>, cfg: Settings, anchors: seq<IdentityAnchorFile>, w: World)
    requires ValidWorld(w)
    ensures var (r, s') := RunSpec(s, isContinuation, overrideCount, cfg, anchors, w);
            var ctx := RunContext(s, isContinuation, overrideCount, cfg, w);
            r.Completed? ==>
              s'.images == (if isContinuation then s.images else []) + Produced(ctx, ctx.count) &&
              |Produced(ctx, ctx.count)| <= CountFor(overrideCount, cfg) &&
              (forall k :: 0 <= k < |Produced(ctx, ctx.count)| ==> !Produced(ctx, ctx.count)[k].isFavorite) &&
              r.pauses == PausesUpTo(ctx, ctx.count)
  {
    var (r, s') := RunSpec(s, isContinuation, overrideCount, cfg, anchors, w);
    if r.Completed? {
      var count := CountFor(overrideCount, cfg);
      var (st, sc) := Setup(s, isContinuation, cfg, count, w);
      var ctx := RunContext(s, isContinuation, overrideCount, cfg, w);
      var base := if isContinuation then s.images else [];
      LoopImages(ctx, Progress(sc.keys, base, [], false), count);
      LoopPauses(ctx, Progress(sc.keys, base, [], false), count);
      ProducedShape(ctx, RunLook(s, isContinuation, overrideCount, cfg, w), count);
      assert [] + PausesUpTo(ctx, count) == PausesUpTo(ctx, count);
    }
  }

  /** A run nobody stops, whose photo calls and crops all succeed, adds
      exactly the requested number of images and reports no stop. */
  lemma RunDeliversAll(s: StudioState, isContinuation: bool, overrideCount: Option<nat>, cfg: Settings, anchors: seq<IdentityAnchorFile>, w: World)
    requires ValidWorld(w) && !s.running && Ready(cfg, anchors) && w.stopFrom.None?
    requires var ctx := RunContext(s, isContinuation, overrideCount, cfg, w);
             forall i :: 0 <= i < ctx.count ==>
               PhotoTrace(ctx, i).result.Success? && ctx.w.finish(i)(PhotoTrace(ctx, i).result.value).Some?
    ensures var (r, s') := RunSpec(s, isContinuation, overrideCount, cfg, anchors, w);
            r == Completed(false, r.pauses) &&
            |s'.images| == (if isContinuation then |s.images| else 0) + CountFor(overrideCount, cfg)
  {
    var ctx := RunContext(s, isContinuation, overrideCount, cfg, w);
    RunImages(s, isContinuation, overrideCount, cfg, anchors, w);
    ProducedAll(ctx, ctx.count);
  }

  /** A stop pressed while the run prepares keeps the gallery as it was at
      the start of the run and reports the stop. */
  lemma RunStoppedEarly(s: StudioState, isContinuation: bool, overrideCount: Option<nat>, cfg: Settings, anchors: seq<IdentityAnchorFile>, w: World)
    requires ValidWorld(w) && !s.running && Ready(cfg, anchors) && w.stopFrom == Some(0)
    ensures var (r, s') := RunSpec(s, isContinuation, overrideCount, cfg, anchors, w);
            r == Completed(true, []) && s'.images == (if isContinuation then s.images else [])
  {
    var ctx := RunContext(s, isContinuation, overrideCount, cfg, w);
    var base := if isContinuation then s.images else [];
    RunImages(s, isContinuation, overrideCount, cfg, anchors, w);
    StoppedBeforeLoop(ctx, ctx.count);
    assert base + [] == base;
  }

  /** A fresh session with a studio theme whose set description succeeds
      keeps that description for its continuations. */
  lemma RunKeepsStudioSet(s: StudioState, overrideCount: Option<nat>, cfg: Settings, anchors: seq<IdentityAnchorFile>, w: World)
    requires ValidWorld(w) && !s.running && Ready(cfg, anchors) && FinalTheme(cfg) in StudioThemes
    requires PerformSpec(Pool(s.apiKeys, s.primary), w.studioCall).result.Success?
    ensures RunSpec(s, false, overrideCount, cfg, anchors, w).1.studioDescription
            == Some(PerformSpec(Pool(s.apiKeys, s.primary), w.studioCall).result.value)
    ensures RunLook(s, false, overrideCount, cfg, w).studioDesc
            == Some(PerformSpec(Pool(s.apiKeys, s.primary), w.studioCall).result.value)
  {
  }

  /** A continuation with a studio theme makes no call for the set and
      photographs with the description the fresh session stored. */
  lemma ContinuationUsesStudioSet(s: StudioState, overrideCount: Option<nat>, cfg: Settings, anchors: seq<IdentityAnchorFile>, w: World)
    requires ValidWorld(w) && !s.running && Ready(cfg, anchors) && FinalTheme(cfg) in StudioThemes
    ensures RunLook(s, true, overrideCount, cfg, w).studioDesc == s.studioDescription
    ensures RunSpec(s, true, overrideCount, cfg, anchors, w).1.studioDescription == s.studioDescription
  {
  }

  // ---------------------------------------------------------------------
  // The studio object
  // ---------------------------------------------------------------------

  class Studio {
    var apiKeys: seq<ApiKey>
    /** The user keys local storage reads back as (`getStoredApiKeys`). */
    var storedKeys: seq<ApiKey>
    var primaryApiKeyId: Option<string>
    var generatedImages: seq<GeneratedImage>
    var running: bool
    var isLoading: bool
    var sessionFinished: bool
    var sessionTargetCount: nat
    var sessionStudioDescription: Option<string>

    /** Storage always holds the pool's user keys. */
    predicate Valid()
      reads this
    {
      storedKeys == Persisted(apiKeys)
    }

    function State(): StudioState
      reads this
    {
      StudioState(apiKeys, storedKeys, primaryApiKeyId, generatedImages, running, isLoading,
                  sessionFinished, sessionTargetCount, sessionStudioDescription)
    }

    /** The studio as it starts, with the pool it booted with. Boot does not
        store keys, so the stored keys are the user keys that reading storage
        gave (`BootPoolShape`). */
    constructor (pool: Pool)
      ensures Valid()
      ensures State() == StudioState(pool.keys, Persisted(pool.keys), pool.primary, [], false, false, false, 0, None)
    {
      apiKeys := pool.keys;
      storedKeys := Persisted(pool.keys);
      primaryApiKeyId := pool.primary;
      generatedImages := [];
      running := false;
      isLoading := false;
      sessionFinished := false;
      sessionTargetCount := 0;
      sessionStudioDescription := None;
    }

    /** `handleStop()`: the running flag goes down; nothing else of this
        state changes. */
    method Stop()
      modifies this
      ensures State() == old(State()).(running := false)
    {
      running := false;
    }

    /** `updateKeyStatus(keyId, newStatus)`: the pool changes and is stored. */
    method SetKeyStatus(keyId: string, status: ApiKeyStatus)
      modifies this
      ensures Valid()
      ensures State() == old(State()).(apiKeys := UpdateKeyStatus(old(apiKeys), keyId, status),
                                       storedKeys := Persisted(UpdateKeyStatus(old(apiKeys), keyId, status)))
    {
      apiKeys := UpdateKeyStatus(apiKeys, keyId, status);
      storedKeys := Persisted(apiKeys);
    }

    /** The status writes of one `performApiCall`, in order. */
    method ApplyCallWrites(writes: seq<StatusWrite>)
      requires Valid()
      modifies this
      ensures Valid()
      ensures State() == old(State()).(apiKeys := ApplyWrites(old(apiKeys), writes),
                                       storedKeys := Persisted(ApplyWrites(old(apiKeys), writes)))
    {
      for j := 0 to |writes|
        invariant Valid()
        invariant State() == old(State()).(apiKeys := ApplyWrites(old(apiKeys), writes[..j]), storedKeys := storedKeys)
      {
        assert writes[..j + 1][..j] == writes[..j];
        SetKeyStatus(writes[j].keyId, writes[j].status);
      }
      assert writes[..|writes|] == writes;
    }

    /** The studio-set step of preparation. */
    method PrepareStudio(snapshot: Pool, isContinuation: bool, theme: string, w: World) returns (desc: Option<string>)
      requires Valid()
      modifies this
      ensures Valid()
      ensures var st := StudioPhase(snapshot, old(apiKeys), isContinuation, theme, old(sessionStudioDescription), w);
              desc == st.desc &&
              State() == old(State()).(apiKeys := st.keys, storedKeys := Persisted(st.keys), studioDescription := st.sessionDesc)
    {
      desc := None;
      if !isContinuation && theme in StudioThemes {
        var t := PerformApiCall(snapshot, w.studioCall);
        ApplyCallWrites(t.writes);
        if t.result.Success? {
          desc := Some(t.result.value);
          sessionStudioDescription := desc;
        }
      } else if isContinuation && theme in StudioThemes {
        desc := sessionStudioDescription;
      }
    }

    /** The scenario step of preparation. */
    method PrepareScenarios(snapshot: Pool, cfg: Settings, theme: string, count: nat, w: World) returns (scenarios: seq<Scenario>)
      requires Valid() && ValidWorld(w)
      modifies this
      ensures Valid()
      ensures var sc := ScenarioPhase(snapshot, old(apiKeys), cfg, theme, count, w);
              scenarios == sc.scenarios &&
              State() == old(State()).(apiKeys := sc.keys, storedKeys := Persisted(sc.keys))
    {
      if cfg.useCustomTheme {
        scenarios := Repeat(Scenario(theme, CustomEmotion(cfg.customThemeMode)), count);
      } else {
        var t := PerformApiCall(snapshot, w.scenarioCall);
        ApplyCallWrites(t.writes);
        if t.result.Success? {
          scenarios := t.result.value;
        } else {
          var fallbacks := new Scenario[|FallbackScenarios|](k requires 0 <= k < |FallbackScenarios| => FallbackScenarios[k]);
          assert fallbacks[..] == FallbackScenarios;
          var shuffled := ShuffleArray(fallbacks, w.shuffleDraws);
          ShuffleFromPermutes(FallbackScenarios, Partners(w.shuffleDraws), |FallbackScenarios| - 1);
          scenarios := Cycle(shuffled[..], count);
        }
      }
      if |scenarios| < count {
        scenarios := scenarios + Repeat(PadScenario, count - |scenarios|);
      }
    }

    /** The picture of photo `i` is fetched and cropped; when that works
        the photo joins the gallery. */
    method KeepPhoto(ctx: Context, look: Look, i: nat, picture: string)
      requires Valid() && Builds(ctx, look) && i < ctx.count
      modifies this
      ensures Valid()
      ensures var cropped := ctx.w.finish(i)(picture);
              State() == old(State()).(images := if cropped.Some? then old(generatedImages) + [ctx.image(i, cropped.value)]
                                                 else old(generatedImages))
    {
      var cropped := ctx.w.finish(i)(picture);
      if cropped.Some? {
        var image := MakeImage(look, i, cropped.value);
        generatedImages := generatedImages + [image];
      }
    }

    /** One photo after the check at the top of the loop: the call, its
        status writes, the check after it, the picture, the check before
        the pause. `stop` tells that the loop breaks. */
    method PhotoStep(ctx: Context, look: Look, ghost start: Progress, i: nat, pauses0: seq<nat>) returns (stop: bool, pauses: seq<nat>)
      requires Valid() && Builds(ctx, look) && i < ctx.count && running && !StopSeen(ctx.w.stopFrom, 3 * i)
      requires LoopAt(ctx, start, i, apiKeys, generatedImages, pauses0)
      modifies this
      ensures Valid()
      ensures State() == old(State()).(apiKeys := apiKeys, storedKeys := storedKeys, images := generatedImages, running := running)
      ensures stop ==> !running && SeenBefore(ctx.w.stopFrom, 3 * ctx.count) &&
                       LoopSpec(ctx, start, ctx.count) == Progress(apiKeys, generatedImages, pauses, true)
      ensures !stop ==> LoopAt(ctx, start, i + 1, apiKeys, generatedImages, pauses) &&
                        running == !SeenBefore(ctx.w.stopFrom, 3 * (i + 1))
    {
      ghost var keys0, images0 := apiKeys, generatedImages;
      var t := PerformApiCall(ctx.snapshot, ctx.w.photoCall(i));
      assert t == PhotoTrace(ctx, i);
      ApplyCallWrites(t.writes);
      stop := false;
      pauses := pauses0;
      if t.result.Success? {
        if StopSeen(ctx.w.stopFrom, 3 * i + 1) {
          Stop();
          StopsAfterCall(ctx, start, i, keys0, images0, pauses0);
          return true, pauses0;
        }
        KeepPhoto(ctx, look, i, t.result.value);
      }
      if StopSeen(ctx.w.stopFrom, 3 * i + 2) {
        Stop();
      }
      if running && i < ctx.count - 1 && ctx.delay > 0 {
        pauses := pauses0 + [i];
      }
      MovesOn(ctx, start, i, keys0, images0, pauses0);
    }

    /** The `for` loop over the photos. */
    method PhotoLoop(ctx: Context, look: Look) returns (pauses: seq<nat>)
      requires Valid() && Builds(ctx, look) && running
      modifies this
      ensures Valid()
      ensures var p := LoopSpec(ctx, Progress(old(apiKeys), old(generatedImages), [], false), ctx.count);
              pauses == p.pauses &&
              State() == old(State()).(apiKeys := p.keys, storedKeys := Persisted(p.keys), images := p.images,
                                       running := !SeenBefore(ctx.w.stopFrom, 3 * ctx.count))
    {
      ghost var start := Progress(apiKeys, generatedImages, [], false);
      pauses := [];
      var i := 0;
      while i < ctx.count
        invariant 0 <= i <= ctx.count && Valid()
        invariant LoopAt(ctx, start, i, apiKeys, generatedImages, pauses)
        invariant running == !SeenBefore(ctx.w.stopFrom, 3 * i)
        invariant State() == old(State()).(apiKeys := apiKeys, storedKeys := storedKeys, images := generatedImages, running := running)
      {
        if StopSeen(ctx.w.stopFrom, 3 * i) {
          Stop();
          StopsAtTop(ctx, start, i, apiKeys, generatedImages, pauses);
          return;
        }
        var stop;
        stop, pauses := PhotoStep(ctx, look, start, i, pauses);
        if stop {
          return;
        }
        i := i + 1;
      }
    }

    /** The start of a run that passed validation: the flags, the gallery
        and the target count, then the studio set and the scenarios. */
    method Begin(isContinuation: bool, overrideCount: Option<nat>, count: nat)
      requires Valid()
      modifies this
      ensures Valid()
      ensures State() == old(State()).(images := if isContinuation then old(generatedImages) else [],
                                       running := true, isLoading := true,
                                       sessionFinished := isContinuation && old(sessionFinished),
                                       targetCount := TargetAfter(old(sessionTargetCount), isContinuation, overrideCount, count),
                                       studioDescription := if isContinuation then old(sessionStudioDescription) else None)
    {
      running := true;
      isLoading := true;
      if !isContinuation {
        generatedImages := [];
        sessionFinished := false;
        sessionTargetCount := count;
        sessionStudioDescription := None;
      } else if overrideCount.None? || overrideCount.value == 0 {
        sessionTargetCount := sessionTargetCount + count;
      }
    }

    /** Everything before the photo loop. */
    method Prepare(isContinuation: bool, overrideCount: Option<nat>, cfg: Settings, w: World) returns (look: Look, ctx: Context)
      requires Valid() && ValidWorld(w)
      modifies this
      ensures Valid()
      ensures State() == Started(old(State()), isContinuation, overrideCount, cfg, w)
      ensures look == RunLook(old(State()), isContinuation, overrideCount, cfg, w)
      ensures ctx == RunContext(old(State()), isContinuation, overrideCount, cfg, w)
    {
      ghost var s := State();
      var snapshot := Pool(apiKeys, primaryApiKeyId);
      var count := overrideCount.GetOr(cfg.imageCount);
      Begin(isContinuation, overrideCount, count);
      var theme := FinalTheme(cfg);
      var desc := PrepareStudio(snapshot, isContinuation, theme, w);
      var scenarios := PrepareScenarios(snapshot, cfg, theme, count, w);
      look := Look(scenarios, theme, desc, cfg, w);
      ctx := LoopContext(snapshot, count, cfg.delay, look);
    }

    /** `runGeneration(isContinuation, overrideCount)`. */
    method RunGeneration(isContinuation: bool, overrideCount: Option<nat>, cfg: Settings, anchors: seq<IdentityAnchorFile>, w: World)
      returns (r: RunOutcome)
      requires Valid() && ValidWorld(w)
      modifies this
      ensures Valid()
      ensures r == RunSpec(old(State()), isContinuation, overrideCount, cfg, anchors, w).0
      ensures State() == RunSpec(old(State()), isContinuation, overrideCount, cfg, anchors, w).1
    {
      if running {
        return AlreadyRunning;
      }
      var rejection := Validate(cfg, anchors);
      if rejection.Some? {
        return Rejected(rejection.value);
      }
      r := Generate(isContinuation, overrideCount, cfg, w);
    }

    /** The run once validation passed. */
    method Generate(isContinuation: bool, overrideCount: Option<nat>, cfg: Settings, w: World) returns (r: RunOutcome)
      requires Valid() && ValidWorld(w)
      modifies this
      ensures Valid()
      ensures (r, State()) == Completion(old(State()), isContinuation, overrideCount, cfg, w)
    {
      var look, ctx := Prepare(isContinuation, overrideCount, cfg, w);
      r := Conclude(ctx, look);
    }

    /** The loop and what follows it. */
    method Conclude(ctx: Context, look: Look) returns (r: RunOutcome)
      requires Valid() && Builds(ctx, look) && running
      modifies this
      ensures Valid()
      ensures (r, State()) == Concluded(old(State()), ctx)
    {
      var pauses := PhotoLoop(ctx, look);
      if StopSeen(ctx.w.stopFrom, 3 * ctx.count) {
        Stop();
      }
      var stopped := !running;
      isLoading := false;
      running := false;
      sessionFinished := true;
      return Completed(stopped, pauses);
    }
  }
}
