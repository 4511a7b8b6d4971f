/** `generate_video` of backend/video_generation_service.py: the guarded
    preparation steps, image cycling, the per-slide frame and audio loop,
    the frame layout on a 1280x720 canvas, and the three outputs uploaded
    to Drive. */
module Backend {
  import opened Common
  import opened Text
  import opened Slug
  import opened SlidePlanner
  import opened DriveDb
  import opened Utils

  // ---------------------------------------------------------------------
  // Configuration and the services generate_video reaches
  // ---------------------------------------------------------------------

  /** The `ServiceConfig` fields the modelled steps read. */
  datatype ServiceConfig = ServiceConfig(fontsFolderId: Option<string>, logoFolderId: Option<string>,
                                         outputFolderId: Option<string>)

  datatype GenerationResult = GenerationResult(folder: string, video: string, blog: string, title: string)

  /** What the services outside this model answer:
      - `unzip`: the font archive's members (`None` for `BadZipFile`);
      - `fetch`: one image download;
      - `transcript`: the chat completion's text in `generate_transcript(title, description)`,
        before `.strip()`, or the `GenerationError` it raises;
      - `width`, `lineHeight`: `font.getbbox(s)[2]` and `[3]` for the slide font;
      - `thumbSize`: an image's size after `thumbnail((640, 360))`;
      - `speak`: gTTS narration of a slide and its duration in ms (`None` when gTTS fails);
      - `render`: the encoded video of the frames and narrations;
      - `utf8`: the bytes a text file is written as;
      - `findRaised`, `folderNewId`, `failing`, `idFor`: what the upload meets on Drive;
      - `line80`: which reading of the image selection the run takes. */
  datatype Services = Services(
    unzip: Bytes -> Option<seq<ZipEntry>>,
    fetch: string -> Result<Bytes>,
    transcript: Result<string>,
    width: string -> int,
    lineHeight: string -> int,
    thumbSize: Bytes -> (int, int),
    speak: string -> Option<nat>,
    render: (seq<Frame>, seq<AudioClip>) -> Bytes,
    utf8: string -> Bytes,
    findRaised: Option<Exc>,
    folderNewId: string,
    failing: set<string>,
    idFor: nat -> string,
    line80: Line80)

  const LightFont := "Poppins-Light.ttf"
  const BoldFont := "Poppins-Bold.ttf"
  const SlideMaxWidth := 600
  const SlideMaxLines := 3

  // ---------------------------------------------------------------------
  // Preparation: key, fonts, logo, images, transcript
  // ---------------------------------------------------------------------

  /** Everything generate_video has in hand before the slides. */
  datatype Prepared = Prepared(base: string, images: seq<Bytes>, transcript: string)

  /** Line 80 of backend/video_generation_service.py as it stands
      (`[b for _, b in download_images(image_urls)]`, which unpacks every
      downloaded body as a pair) or as evidently intended (the downloaded
      bodies kept as they are). */
  datatype Line80 = AsWritten | Intended

  /** What `local_images` holds after the selection: image bodies, or the
      ints the as-written unpacking leaves. */
  datatype LocalImages = Bodies(bodies: seq<Bytes>) | Ints(ints: seq<int>)
  {
    predicate IsEmpty() {
      if Bodies? then bodies == [] else ints == []
    }
  }

  /** `[b for _, b in images]` where every element is a `bytes` object:
      unpacking iterates the bytes, so an element of exactly two bytes
      yields its second byte as an int and any other length raises
      `ValueError`, at the first such element. */
  function UnpackPairs(images: seq<Bytes>): (r: Result<seq<int>>)
    ensures r.Ok? <==> forall i :: 0 <= i < |images| ==> |images[i]| == 2
    ensures r.Ok? ==> |r.value| == |images| && forall i :: 0 <= i < |images| ==> r.value[i] == images[i][1] as int
    ensures r.Err? ==> r.error.ValueError?
  {
    if images == [] then Ok([])
    else if |images[0]| > 2 then Err(ValueError("too many values to unpack (expected 2)"))
    else if |images[0]| < 2 then
      Err(ValueError("not enough values to unpack (expected 2, got " + (if |images[0]| == 0 then "0" else "1") + ")"))
    else
      var rest := UnpackPairs(images[1..]);
      if rest.Err? then rest else Ok([images[0][1] as int] + rest.value)
  }

  /** `image_files` if truthy, else the downloads of `image_urls` if truthy
      (unpacked as pairs when line 80 is taken as written), else an error. */
  function SelectImages(line80: Line80, imageFiles: Option<seq<Bytes>>, imageUrls: Option<seq<string>>,
                        fetch: string -> Result<Bytes>): (r: Result<LocalImages>)
    ensures imageFiles.Some? && imageFiles.value != [] ==> r == Ok(Bodies(imageFiles.value))
    ensures r.Ok? ==> !r.value.IsEmpty()
    ensures line80 == Intended && r.Ok? ==> r.value.Bodies?
  {
    if imageFiles.Some? && imageFiles.value != [] then Ok(Bodies(imageFiles.value))
    else if imageUrls.Some? && imageUrls.value != [] then
      var downloaded := DownloadOutcome(imageUrls.value, fetch);
      if downloaded.Err? then Err(downloaded.error)
      else if line80 == Intended then Ok(Bodies(downloaded.value))
      else
        var pairs := UnpackPairs(downloaded.value);
        if pairs.Err? then Err(pairs.error) else Ok(Ints(pairs.value))
    else Err(GenerationError("No image input provided."))
  }

  /** The fonts, the logo and the two font files, in that order. */
  function LoadAssets(d: Drive, cfg: ServiceConfig, env: Services): Outcome {
    var fonts := LoadFontsFromDrive(d, cfg.fontsFolderId, env.unzip);
    if fonts.Err? then Raised(fonts.error)
    else
      var logo := LoadLogoFromDrive(d, cfg.logoFolderId);
      if logo.Err? then Raised(logo.error)
      else if LightFont !in fonts.value || BoldFont !in fonts.value then Raised(GenerationError("❌ Failed to load fonts: "))
      else Done
  }

  /** The images and the transcript, once the assets are loaded. Ints
      left by the as-written line 80 get past the emptiness and transcript
      checks and first fail at `io.BytesIO` on the first slide (line 99). */
  function PrepareInputs(base: string, imageFiles: Option<seq<Bytes>>, imageUrls: Option<seq<string>>, env: Services)
    : (r: Result<Prepared>)
    ensures r.Ok? ==> r.value.base == base && r.value.images != []
    ensures r.Ok? ==> env.transcript.Ok? && r.value.transcript == Strip(env.transcript.value) != ""
    ensures r.Ok? ==> Words(r.value.transcript) != []
    ensures r.Ok? && imageFiles.Some? && imageFiles.value != [] ==> r.value.images == imageFiles.value
  {
    var images := SelectImages(env.line80, imageFiles, imageUrls, env.fetch);
    if images.Err? then Err(images.error)
    else if images.value.IsEmpty() then Err(GenerationError("❌ No images available to generate video."))
    else if env.transcript.Err? then Err(env.transcript.error)
    else
      var transcript := Strip(env.transcript.value);
      if transcript == "" then Err(GenerationError("❌ Generation failed."))
      else if images.value.Ints? then Err(TypeError("a bytes-like object is required, not 'int'"))
      else StrippedHasWords(env.transcript.value); Ok(Prepared(base, images.value.bodies, transcript))
  }

  /** The steps of `generate_video` up to the transcript. */
  function Prepare(d: Drive, cfg: ServiceConfig, listingId: Option<string>, productId: Option<string>, title: string,
                   imageFiles: Option<seq<Bytes>>, imageUrls: Option<seq<string>>, env: Services): (r: Result<Prepared>)
    ensures r.Ok? ==> r.value.base == ItemKey(listingId, productId, title) && r.value.images != []
    ensures r.Ok? ==> Words(r.value.transcript) != []
    ensures r.Ok? && imageFiles.Some? && imageFiles.value != [] ==> r.value.images == imageFiles.value
  {
    var assets := LoadAssets(d, cfg, env);
    if assets.Raised? then Err(assets.error)
    else PrepareInputs(ItemKey(listingId, productId, title), imageFiles, imageUrls, env)
  }

  /** A missing font file is a `GenerationError`; a failure to list or
      read the fonts or the logo propagates as raised. */
  lemma LoadAssetsCases(d: Drive, cfg: ServiceConfig, env: Services)
    ensures var fonts := LoadFontsFromDrive(d, cfg.fontsFolderId, env.unzip);
      && (fonts.Err? ==> LoadAssets(d, cfg, env) == Raised(fonts.error))
      && (fonts.Ok? && LoadLogoFromDrive(d, cfg.logoFolderId).Ok? ==>
            (LoadAssets(d, cfg, env) == Done <==> LightFont in fonts.value && BoldFont in fonts.value))
      && (LoadAssets(d, cfg, env) == Done ==> d.service.Some?)
  {
  }

  /** Supplied images win over URLs; with neither, or with no download
      succeeding, nothing is generated; a transcript blank once stripped stops the run
      before any slide work; a successful preparation has at least one
      image and the transcript. */
  lemma PrepareInputsCases(base: string, imageFiles: Option<seq<Bytes>>, imageUrls: Option<seq<string>>, env: Services)
    ensures var p := PrepareInputs(base, imageFiles, imageUrls, env);
      && (p.Ok? ==> p.value.base == base && p.value.images != []
                    && env.transcript.Ok? && p.value.transcript == Strip(env.transcript.value) != "")
      && (imageFiles.Some? && imageFiles.value != [] && env.transcript.Ok? && Strip(env.transcript.value) != "" ==>
            p == Ok(Prepared(base, imageFiles.value, Strip(env.transcript.value))))
      && ((imageFiles.None? || imageFiles.value == []) && (imageUrls.None? || imageUrls.value == []) ==>
            p == Err(GenerationError("No image input provided.")))
      && ((imageFiles.None? || imageFiles.value == []) && imageUrls.Some? && imageUrls.value != []
          && (forall i :: 0 <= i < |imageUrls.value| ==> env.fetch(imageUrls.value[i]).Err?) ==>
            p == Err(RuntimeError("All image downloads failed – please check your URLs or network.")))
      && (SelectImages(env.line80, imageFiles, imageUrls, env.fetch).Ok? && env.transcript.Ok? && Strip(env.transcript.value) == "" ==>
            p == Err(GenerationError("❌ Generation failed.")))
  {
    AllDownloadsFail(base, imageFiles, imageUrls, env);
    var images := SelectImages(env.line80, imageFiles, imageUrls, env.fetch);
    if images.Ok? && env.transcript.Ok? {
      assert !images.value.IsEmpty();
    }
  }

  lemma AllDownloadsFail(base: string, imageFiles: Option<seq<Bytes>>, imageUrls: Option<seq<string>>, env: Services)
    ensures (imageFiles.None? || imageFiles.value == []) && imageUrls.Some? && imageUrls.value != []
            && (forall i :: 0 <= i < |imageUrls.value| ==> env.fetch(imageUrls.value[i]).Err?) ==>
      PrepareInputs(base, imageFiles, imageUrls, env)
        == Err(RuntimeError("All image downloads failed – please check your URLs or network."))
  {
    if imageUrls.Some? {
      FetchedEmpty(imageUrls.value, env.fetch);
    }
  }

  // ---------------------------------------------------------------------
  // Line 80 as written and as intended
  // ---------------------------------------------------------------------

  /** As written, URL input without image files never yields prepared
      inputs: a kept body that is not exactly two bytes (every real image)
      raises `ValueError` before the transcript is asked for, and if every
      kept body is two bytes the ints fail at the first slide. */
  lemma UrlsAsWritten(base: string, imageFiles: Option<seq<Bytes>>, imageUrls: seq<string>, env: Services)
    requires env.line80 == AsWritten && (imageFiles.None? || imageFiles.value == [])
    ensures var p := PrepareInputs(base, imageFiles, Some(imageUrls), env);
      var kept := Fetched(imageUrls, env.fetch);
      && p.Err?
      && ((exists k :: 0 <= k < |kept| && |kept[k]| != 2) ==> p.error.ValueError?)
      && ((kept != [] && (forall k :: 0 <= k < |kept| ==> |kept[k]| == 2)
           && env.transcript.Ok? && Strip(env.transcript.value) != "") ==>
            p == Err(TypeError("a bytes-like object is required, not 'int'")))
  {
    var kept := Fetched(imageUrls, env.fetch);
    var images := SelectImages(AsWritten, imageFiles, Some(imageUrls), env.fetch);
    if imageUrls == [] {
      assert images == Err(GenerationError("No image input provided."));
    } else if kept == [] {
      assert images == Err(RuntimeError("All image downloads failed – please check your URLs or network."));
    } else {
      var pairs := UnpackPairs(kept);
      assert images == if pairs.Err? then Err(pairs.error) else Ok(Ints(pairs.value));
    }
  }

  /** With the fonts and logo loaded, no image files and a fetched body
      that is not two bytes, the as-written `generate_video` raises
      `ValueError` (and `GenerateVideo` then leaves Drive as it was). */
  lemma PrepareUrlsAsWritten(d: Drive, cfg: ServiceConfig, listingId: Option<string>, productId: Option<string>,
                             title: string, imageFiles: Option<seq<Bytes>>, imageUrls: seq<string>, env: Services, k: nat)
    requires env.line80 == AsWritten && (imageFiles.None? || imageFiles.value == [])
    requires LoadAssets(d, cfg, env) == Done
    requires k < |Fetched(imageUrls, env.fetch)| && |Fetched(imageUrls, env.fetch)[k]| != 2
    ensures var p := Prepare(d, cfg, listingId, productId, title, imageFiles, Some(imageUrls), env);
      p.Err? && p.error.ValueError?
  {
    UrlsAsWritten(ItemKey(listingId, productId, title), imageFiles, imageUrls, env);
  }

  /** As written, `generate_video` never gets past the preparation
      without image files. */
  lemma PrepareAsWritten(d: Drive, cfg: ServiceConfig, listingId: Option<string>, productId: Option<string>,
                         title: string, imageFiles: Option<seq<Bytes>>, imageUrls: Option<seq<string>>, env: Services)
    requires env.line80 == AsWritten && (imageFiles.None? || imageFiles.value == [])
    ensures Prepare(d, cfg, listingId, productId, title, imageFiles, imageUrls, env).Err?
  {
    if imageUrls.Some? {
      UrlsAsWritten(ItemKey(listingId, productId, title), imageFiles, imageUrls.value, env);
    }
  }

  /** The corrected line keeps the downloaded images themselves. */
  lemma SelectImagesFromUrls(imageUrls: seq<string>, fetch: string -> Result<Bytes>)
    requires imageUrls != []
    ensures var r := SelectImages(Intended, None, Some(imageUrls), fetch);
      && (r.Ok? <==> exists i :: 0 <= i < |imageUrls| && fetch(imageUrls[i]).Ok?)
      && (r.Ok? ==> r.value == Bodies(Fetched(imageUrls, fetch)))
  {
    FetchedEmpty(imageUrls, fetch);
  }

  // ---------------------------------------------------------------------
  // Image cycling: `local_images *= len(slides) // len(local_images) + 1`
  // ---------------------------------------------------------------------

  /** `xs * k`. */
  function Repeat<T>(xs: seq<T>, k: nat): (r: seq<T>)
    ensures |r| == k * |xs|
  {
    if k == 0 then [] else Repeat(xs, k - 1) + xs
  }

  lemma {:induction false} RepeatAt<T>(xs: seq<T>, k: nat, i: nat)
    requires xs != [] && i < k * |xs|
    ensures Repeat(xs, k)[i] == xs[i % |xs|]
  {
    var n := |xs|;
    if i < (k - 1) * n {
      RepeatAt(xs, k - 1, i);
    } else {
      var j := i - (k - 1) * n;
      assert 0 <= j < n;
      assert Repeat(xs, k)[i] == xs[j];
      assert i == (k - 1) * n + j;
      ModuloShift(j, k - 1, n);
    }
  }

  lemma {:induction false} MulAtLeast(k: nat, n: nat)
    requires k >= 1
    ensures k * n >= n
  {
    if k > 1 {
      MulAtLeast(k - 1, n);
      assert k * n == (k - 1) * n + n;
    }
  }

  /** Euclidean division is unique. */
  lemma DivUnique(x: int, n: nat, d: int, r: int)
    requires n > 0 && 0 <= r < n && x == d * n + r
    ensures x % n == r
  {
    var d' := x / n;
    assert d' * n + x % n == d * n + r;
    if d' > d {
      MulAtLeast(d' - d, n);
    } else if d' < d {
      MulAtLeast(d - d', n);
    }
  }

  lemma ModuloShift(j: nat, q: nat, n: nat)
    requires j < n
    ensures (q * n + j) % n == j
  {
    DivUnique(q * n + j, n, q, j);
  }

  /** The list after the cycling step, for `m` slides. */
  function Cycled(images: seq<Bytes>, m: nat): seq<Bytes>
    requires images != []
  {
    if m > |images| then Repeat(images, m / |images| + 1) else images
  }

  /** `(m // n + 1) * n` exceeds `m`. */
  lemma RepeatsEnough(m: nat, n: nat)
    requires n > 0
    ensures m < (m / n + 1) * n
  {
    assert m == (m / n) * n + m % n;
    assert (m / n + 1) * n == (m / n) * n + n;
  }

  /** After cycling there is an image for every slide, image `i` is the
      original image `i mod n`, and a list already long enough is left
      as it was. */
  lemma CycledCovers(images: seq<Bytes>, m: nat)
    requires images != []
    ensures var c := Cycled(images, m);
      && |c| >= m && |c| >= |images|
      && (forall i :: 0 <= i < |c| ==> c[i] == images[i % |images|])
      && (m <= |images| ==> c == images)
  {
    var n := |images|;
    var c := Cycled(images, m);
    if m > n {
      var k := m / n + 1;
      RepeatsEnough(m, n);
      forall i | 0 <= i < |c| ensures c[i] == images[i % n] {
        RepeatAt(images, k, i);
      }
    } else {
      forall i | 0 <= i < |c| ensures c[i] == images[i % n] {
        ModuloShift(i, 0, n);
      }
    }
  }

  /** The Python list object `local_images` names. When `image_files` was
      supplied it is the caller's own list, so extending it in place
      extends the caller's list too. */
  class ImageList {
    var items: seq<Bytes>

    constructor (items0: seq<Bytes>)
      ensures items == items0
    {
      items := items0;
    }

    /** `if len(slides) > len(local_images): local_images *= …` */
    method CycleFor(m: nat)
      requires items != []
      modifies this
      ensures items == Cycled(old(items), m)
    {
      if m > |items| {
        items := Repeat(items, m / |items| + 1);
      }
    }
  }

  /** The optional caller list as a value. */
  function ItemsOf(l: ImageList?): Option<seq<Bytes>>
    reads l
  {
    if l == null then None else Some(l.items)
  }

  // ---------------------------------------------------------------------
  // Frame layout on the 1280x720 canvas
  // ---------------------------------------------------------------------

  const CanvasWidth := 1280
  const CanvasHeight := 720
  const ThumbWidth := 640
  const ThumbHeight := 360
  const ImageMargin := 50
  const LineGap := 10

  /** `sum(h + 10 for h in heights)`. */
  function BlockHeight(heights: seq<int>): int {
    if heights == [] then 0 else BlockHeight(heights[..|heights| - 1]) + heights[|heights| - 1] + LineGap
  }

  /** `(720 - sum(...)) // 2`: where the first text line goes. */
  function TextTop(heights: seq<int>): int {
    (CanvasHeight - BlockHeight(heights)) / 2
  }

  /** The block of text lines is centred: the space left below it and the
      space above it differ by at most one pixel (the floor of `//`). */
  lemma TextBlockCentred(heights: seq<int>)
    ensures var top := TextTop(heights);
      var below := CanvasHeight - (top + BlockHeight(heights));
      0 <= below - top <= 1
  {
  }

  /** The `y` of each line: the first at the top of the block, each next
      one `h + 10` below the previous. */
  method LineOffsets(heights: seq<int>) returns (ys: seq<int>)
    ensures LaidOut(ys, heights)
    ensures |ys| > 0 ==> ys[|ys| - 1] + heights[|ys| - 1] + LineGap == TextTop(heights) + BlockHeight(heights)
  {
    var textY := TextTop(heights);
    ys := [];
    for k := 0 to |heights|
      invariant |ys| == k
      invariant textY == TextTop(heights) + BlockHeight(heights[..k])
      invariant k > 0 ==> ys[0] == TextTop(heights)
      invariant forall j :: 0 <= j < k - 1 ==> ys[j + 1] == ys[j] + heights[j] + LineGap
      invariant k > 0 ==> textY == ys[k - 1] + heights[k - 1] + LineGap
    {
      assert heights[..k + 1][..k] == heights[..k];
      ys := ys + [textY];
      textY := textY + heights[k] + LineGap;
    }
    assert heights[..|heights|] == heights;
  }

  /** The lines start at the top of the block and each next one is
      `h + 10` below the previous. */
  predicate LaidOut(ys: seq<int>, heights: seq<int>) {
    && |ys| == |heights|
    && (|ys| > 0 ==> ys[0] == TextTop(heights))
    && forall k :: 0 <= k < |ys| - 1 ==> ys[k + 1] == ys[k] + heights[k] + LineGap
  }

  /** `(1280 - img.width - 50, (720 - img.height) // 2)`. */
  function ImagePosition(size: (int, int)): (int, int) {
    (CanvasWidth - size.0 - ImageMargin, (CanvasHeight - size.1) / 2)
  }

  /** A thumbnail within 640x360 lies wholly on the canvas, 50 px from the
      right edge and vertically centred to within one pixel. */
  lemma ImageInsideCanvas(w: int, h: int)
    requires 0 <= w <= ThumbWidth && 0 <= h <= ThumbHeight
    ensures var (x, y) := ImagePosition((w, h));
      && x >= CanvasWidth - ThumbWidth - ImageMargin && x + w == CanvasWidth - ImageMargin
      && y >= 0 && y + h <= CanvasHeight
      && 0 <= (CanvasHeight - (y + h)) - y <= 1
  {
  }

  // ---------------------------------------------------------------------
  // The per-slide loop
  // ---------------------------------------------------------------------

  /** One saved frame: its file, the slide text, the image pasted at
      `imageAt`, the `y` of each text line, and the time it is shown. */
  datatype Frame = Frame(path: string, text: string, image: Bytes, imageAt: (int, int), lineYs: seq<int>, duration: nat)

  /** One narration file and its duration. */
  datatype AudioClip = AudioClip(path: string, text: string, duration: nat)

  datatype Clips = Clips(frames: seq<Frame>, audios: seq<AudioClip>)

  function FramePath(tmpdir: string, i: nat): string {
    tmpdir + "/frame_" + NatToString(i) + ".jpg"
  }

  /** `f"{tmpdir}/{base}_slide_{i + 1}.mp3"` for slide `i`. */
  function AudioPath(tmpdir: string, base: string, i: nat): string {
    tmpdir + "/" + base + "_slide_" + NatToString(i + 1) + ".mp3"
  }

  /** Distinct slides get distinct narration files, so no narration
      overwrites another. */
  lemma AudioPathsDistinct(tmpdir: string, base: string, i: nat, j: nat)
    requires i != j
    ensures AudioPath(tmpdir, base, i) != AudioPath(tmpdir, base, j)
  {
    var prefix := tmpdir + "/" + base + "_slide_";
    var a := NatToString(i + 1);
    var b := NatToString(j + 1);
    if AudioPath(tmpdir, base, i) == AudioPath(tmpdir, base, j) {
      var s := AudioPath(tmpdir, base, i);
      assert s == prefix + a + ".mp3";
      assert s[|prefix|..|s| - 4] == a;
      assert AudioPath(tmpdir, base, j) == prefix + b + ".mp3";
      assert s[|prefix|..|s| - 4] == b;
      NatToStringRoundTrip(i + 1);
      NatToStringRoundTrip(j + 1);
    }
  }

  /** The lines of a slide as drawn: `slide_text.split('\n')`. */
  function SlideTextLines(slide: string): seq<string> {
    SplitOn(slide, '\n')
  }

  function LineHeights(lines: seq<string>, lineHeight: string -> int): (r: seq<int>)
    ensures |r| == |lines|
    ensures forall k :: 0 <= k < |lines| ==> r[k] == lineHeight(lines[k])
  {
    if lines == [] then [] else [lineHeight(lines[0])] + LineHeights(lines[1..], lineHeight)
  }

  /** Frame `i` shows slide `i` with image `i` at its layout position and
      lasts as long as narration `i`, which is named for slide `i + 1`. */
  ghost predicate SlidePaired(f: Frame, a: AudioClip, slide: string, image: Bytes, i: nat,
                              base: string, tmpdir: string, env: Services)
  {
    var heights := LineHeights(SlideTextLines(slide), env.lineHeight);
    && f.path == FramePath(tmpdir, i)
    && f.text == slide && f.image == image
    && f.imageAt == ImagePosition(env.thumbSize(image))
    && LaidOut(f.lineYs, heights)
    && env.speak(slide).Some?
    && a == AudioClip(AudioPath(tmpdir, base, i), slide, env.speak(slide).value)
    && f.duration == a.duration
  }

  /** One iteration of the per-slide loop: the frame for slide `i`, then
      its narration; `None` when gTTS fails. */
  method RenderSlide(slide: string, image: Bytes, i: nat, base: string, tmpdir: string, env: Services)
    returns (r: Option<(Frame, AudioClip)>)
    ensures r.Some? <==> env.speak(slide).Some?
    ensures r.Some? ==> SlidePaired(r.value.0, r.value.1, slide, image, i, base, tmpdir, env)
  {
    var lines := SlideTextLines(slide);
    var heights := LineHeights(lines, env.lineHeight);
    var ys := LineOffsets(heights);
    var at := ImagePosition(env.thumbSize(image));
    var framePath := FramePath(tmpdir, i);
    var audioPath := AudioPath(tmpdir, base, i);
    var spoken := env.speak(slide);
    if spoken.None? {
      return None;
    }
    var audioClip := AudioClip(audioPath, slide, spoken.value);
    r := Some((Frame(framePath, slide, image, at, ys, audioClip.duration), audioClip));
  }

  /** Renders one frame and one narration per slide, in slide order; the
      first narration gTTS cannot produce aborts the run. */
  method RenderSlides(slides: seq<string>, images: seq<Bytes>, base: string, tmpdir: string, env: Services)
    returns (r: Result<Clips>)
    requires |images| >= |slides|
    ensures r.Ok? ==>
      && |r.value.frames| == |slides| && |r.value.audios| == |slides|
      && forall i :: 0 <= i < |slides| ==>
           SlidePaired(r.value.frames[i], r.value.audios[i], slides[i], images[i], i, base, tmpdir, env)
    ensures r.Ok? <==> forall i :: 0 <= i < |slides| ==> env.speak(slides[i]).Some?
    ensures r.Err? ==> r.error == GenerationError("⚠️ Failed to generate audio: ")
  {
    var clips: seq<Frame> := [];
    var audioClips: seq<AudioClip> := [];
    for i := 0 to |slides|
      invariant |clips| == i && |audioClips| == i
      invariant forall j :: 0 <= j < i ==> SlidePaired(clips[j], audioClips[j], slides[j], images[j], j, base, tmpdir, env)
      invariant forall j :: 0 <= j < i ==> env.speak(slides[j]).Some?
    {
      var rendered := RenderSlide(slides[i], images[i], i, base, tmpdir, env);
      if rendered.None? {
        return Err(GenerationError("⚠️ Failed to generate audio: "));
      }
      clips := clips + [rendered.value.0];
      audioClips := audioClips + [rendered.value.1];
    }
    r := Ok(Clips(clips, audioClips));
  }

  function FramesDuration(frames: seq<Frame>): nat {
    if frames == [] then 0 else FramesDuration(frames[..|frames| - 1]) + frames[|frames| - 1].duration
  }

  function AudiosDuration(audios: seq<AudioClip>): nat {
    if audios == [] then 0 else AudiosDuration(audios[..|audios| - 1]) + audios[|audios| - 1].duration
  }

  /** Concatenated frames last exactly as long as the concatenated
      narration, so picture and sound stay in step. */
  lemma {:induction false} ClipsInSync(frames: seq<Frame>, audios: seq<AudioClip>)
    requires |frames| == |audios|
    requires forall i :: 0 <= i < |frames| ==> frames[i].duration == audios[i].duration
    ensures FramesDuration(frames) == AudiosDuration(audios)
    decreases |frames|
  {
    if frames != [] {
      ClipsInSync(frames[..|frames| - 1], audios[..|audios| - 1]);
    }
  }

  // ---------------------------------------------------------------------
  // Outputs
  // ---------------------------------------------------------------------

  function VideoName(base: string): string { base + ".mp4" }
  function BlogName(base: string): string { base + "_blog.txt" }
  function TitleName(base: string): string { base + "_title.txt" }

  /** The `file_map` uploaded for an item. */
  function OutputMap(base: string, video: Bytes, blog: Bytes, title: Bytes): seq<OutputFile> {
    [OutputFile(VideoName(base), video), OutputFile(BlogName(base), blog), OutputFile(TitleName(base), title)]
  }

  /** The three output names are distinct (so `file_map` keeps three
      entries), and only the video is uploaded as `video/mp4`. */
  lemma OutputNames(base: string)
    ensures VideoName(base) != BlogName(base) && BlogName(base) != TitleName(base) && VideoName(base) != TitleName(base)
    ensures OutputMime(VideoName(base)) == "video/mp4"
    ensures OutputMime(BlogName(base)) == "text/plain" && OutputMime(TitleName(base)) == "text/plain"
  {
    var v := VideoName(base);
    var b := BlogName(base);
    var t := TitleName(base);
    assert v[|v| - 4..] == ".mp4";
    assert b[|b| - 4..] == ".txt";
    assert t[|t| - 4..] == ".txt";
  }

  /** After an upload of the three outputs, each one whose upload did not
      fail is in the item's folder with its content. */
  lemma OutputsUploaded(d: Drive, base: string, video: Bytes, blog: Bytes, title: Bytes, folderId: string,
                        failing: set<string>, idFor: nat -> string)
    requires d.service.Some?
    ensures var files := OutputMap(base, video, blog, title);
      var after := UploadedAll(d, files, folderId, failing, idFor);
      forall j :: 0 <= j < 3 && files[j].name !in failing ==>
        var m := FirstMatch(after.files, files[j].name, ParentText(Some(folderId)), false);
        m.Some? && after.files[m.value].data == files[j].data
  {
    var files := OutputMap(base, video, blog, title);
    OutputNames(base);
    assert DistinctNames(files);
    forall j | 0 <= j < 3 && files[j].name !in failing
      ensures var after := UploadedAll(d, files, folderId, failing, idFor);
        var m := FirstMatch(after.files, files[j].name, ParentText(Some(folderId)), false);
        m.Some? && after.files[m.value].data == files[j].data
    {
      UploadedAllFinds(d, files, folderId, failing, idFor, j);
    }
  }

  // ---------------------------------------------------------------------
  // generate_video
  // ---------------------------------------------------------------------

  /** The outcome of the slide loop and the upload, from Drive `d` before
      to `d'` after: the first slide gTTS cannot narrate aborts with
      `GenerationError("⚠️ Failed to generate audio: ")` and Drive
      untouched; otherwise the item's folder is found or created and a
      failure there propagates; otherwise the three outputs (some video,
      the transcript and the title) are uploaded and the result names them. */
  ghost predicate Produced(d: Drive, d': Drive, r: Result<GenerationResult>, p: Prepared, slides: seq<string>,
                           title: string, cfg: ServiceConfig, env: Services) {
    var spoken := forall i :: 0 <= i < |slides| ==> env.speak(slides[i]).Some?;
    var (folder, d1) := FindOrCreateFolderOn(d, p.base, cfg.outputFolderId, env.findRaised, env.folderNewId);
    && (r.Ok? <==> spoken && folder.Ok?)
    && (!spoken ==> r == Err(GenerationError("⚠️ Failed to generate audio: ")) && d' == d)
    && (spoken && folder.Err? ==> r == Err(folder.error) && d' == d1)
    && (spoken && folder.Ok? ==>
          && r == Ok(GenerationResult(p.base, VideoName(p.base), BlogName(p.base), TitleName(p.base)))
          && exists video :: d' == UploadedAll(d1, OutputMap(p.base, video, env.utf8(p.transcript), env.utf8(title)),
                                               folder.value, env.failing, env.idFor))
  }

  /** Everything `split_text_into_slides(transcript, font, 600, 3)` promises. */
  ghost predicate Planned(slides: seq<string>, text: string, env: Services) {
    && Covers(slides, text)
    && (slides == [] <==> Words(text) == [])
    && LineCapped(slides, SlideMaxLines)
    && WidthBounded(slides, env.width, SlideMaxWidth)
    && EmptyLineOnlyFirst(slides, text, env.width, SlideMaxWidth)
    && LinesAreWordsJoined(slides)
    && GreedyFill(slides, text, env.width, SlideMaxWidth)
  }

  /** The slides, the frames and narrations, and the upload, once the
      item is prepared; `localImages` holds the prepared images and is
      extended in place for the slides the transcript is split into. */
  method Produce(store: DriveStore, p: Prepared, title: string, localImages: ImageList, cfg: ServiceConfig,
                 tmpdir: string, env: Services) returns (r: Result<GenerationResult>, ghost slides: seq<string>)
    requires localImages.items == p.images && p.images != []
    requires Words(p.transcript) != []
    modifies store, localImages
    ensures Planned(slides, p.transcript, env) && |slides| >= 1
    ensures localImages.items == Cycled(p.images, |slides|)
    ensures Produced(old(store.State()), store.State(), r, p, slides, title, cfg, env)
  {
    var split := SplitTextIntoSlides(p.transcript, env.width, SlideMaxWidth, SlideMaxLines);
    slides := split;
    localImages.CycleFor(|split|);
    CycledCovers(p.images, |split|);
    var clips := RenderSlides(split, localImages.items, p.base, tmpdir, env);
    if clips.Err? {
      return Err(clips.error), slides;
    }
    var video := env.render(clips.value.frames, clips.value.audios);
    var fileMap := OutputMap(p.base, video, env.utf8(p.transcript), env.utf8(title));
    var uploaded := UploadOutputFilesToDrive(store, fileMap, cfg.outputFolderId, p.base, env.findRaised,
                                             env.folderNewId, env.failing, env.idFor);
    if uploaded.Raised? {
      return Err(uploaded.error), slides;
    }
    r := Ok(GenerationResult(p.base, VideoName(p.base), BlogName(p.base), TitleName(p.base)));
  }

  /** `generate_video(cfg, listing_id, product_id, title, description,
      image_urls, image_files)`. A supplied `image_files` list is the list
      the loop cycles, so the caller sees it extended. `slides` is the
      split of the transcript (empty when preparation fails). */
  method GenerateVideo(store: DriveStore, cfg: ServiceConfig, listingId: Option<string>, productId: Option<string>,
                       title: string, imageUrls: Option<seq<string>>, imageFiles: ImageList?, tmpdir: string,
                       env: Services) returns (r: Result<GenerationResult>, ghost slides: seq<string>)
    modifies store, imageFiles
    ensures var p := Prepare(old(store.State()), cfg, listingId, productId, title, old(ItemsOf(imageFiles)), imageUrls, env);
      && (p.Err? ==> r == Err(p.error) && store.State() == old(store.State()) && slides == [])
      && (p.Ok? ==>
            && Planned(slides, p.value.transcript, env) && |slides| >= 1
            && Produced(old(store.State()), store.State(), r, p.value, slides, title, cfg, env))
    ensures imageFiles != null && old(imageFiles.items) != [] ==>
      imageFiles.items == Cycled(old(imageFiles.items), |slides|)
    ensures imageFiles != null && old(imageFiles.items) == [] ==> imageFiles.items == []
    ensures env.line80 == AsWritten && (imageFiles == null || old(imageFiles.items) == []) ==>
      r.Err? && store.State() == old(store.State())
  {
    var p := Prepare(store.State(), cfg, listingId, productId, title, ItemsOf(imageFiles), imageUrls, env);
    if p.Err? {
      if imageFiles != null && imageFiles.items != [] {
        assert imageFiles.items == Cycled(imageFiles.items, 0);
      }
      return Err(p.error), [];
    }
    if env.line80 == AsWritten && (imageFiles == null || imageFiles.items == []) {
      PrepareAsWritten(store.State(), cfg, listingId, productId, title, ItemsOf(imageFiles), imageUrls, env);
      assert false;
    }
    ghost var before := if imageFiles == null then [] else imageFiles.items;
    var localImages: ImageList;
    if imageFiles != null && imageFiles.items != [] {
      localImages := imageFiles;
    } else {
      localImages := new ImageList(p.value.images);
    }
    r, slides := Produce(store, p.value, title, localImages, cfg, tmpdir, env);
    if imageFiles != null && before == [] {
      assert imageFiles.items == [];
    }
  }
}
