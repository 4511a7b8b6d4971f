/** The older single-item pipeline of video_generation_service.py:
    `generate_for_single` and `_assemble_video`. It works on local files,
    so the model keeps a file system (path to content) that the steps read
    and write; the encoders and the text generator are parameters. */
module Legacy {
  import opened Common
  import opened Text
  import opened Slug
  import opened Paths

  // ---------------------------------------------------------------------
  // State and external steps
  // ---------------------------------------------------------------------

  /** The local file system: each existing file's path and content.
      Directories are implicit: `os.makedirs` always succeeds. */
  class FileSystem {
    var files: map<string, Bytes>

    constructor(files0: map<string, Bytes>)
      ensures files == files0
    {
      files := files0;
    }
  }

  /** `ServiceConfig` of this pipeline, in field order. */
  datatype Config = Config(csvFile: string, imagesJson: string, audioFolder: string,
                           fontsZipPath: string, logoPath: string, outputBaseFolder: string)

  /** `GenerationResult(video_path, title_file, blog_file)`. */
  datatype GenerationResult = GenerationResult(videoPath: string, titleFile: string, blogFile: string)

  /** What `download_images(image_urls, workdir)` of the top-level `utils`
      module returns, and the files it wrote. */
  datatype Download = Download(paths: seq<string>, written: map<string, Bytes>)

  /** The steps this pipeline delegates:
      - `cacheDir`: `get_persistent_cache_dir(base)`;
      - `download`: `download_images(image_urls, workdir)`;
      - `decodeLogo`: open, convert and resize the logo to 150×80 and encode
        it as PNG, or `None` when any of it raises;
      - `transcript`: the chat completion's text for (title, description),
        before `.strip()`, or the `GenerationError` raised instead;
      - `speak`: the gTTS narration of a text, or `None` when it raises;
      - `size`: `Image.open(path).size` of an image's content;
      - `resize`: convert to RGB, resize to (w, h) and encode as JPEG;
      - `textSize`: the width and height of the title's bounding box in the
        bold font at size 30;
      - `overlay`: the transparent title strip of a width with the title at
        a position, or `None` when drawing or saving raises;
      - `render`: the encoded video of the frames, the narration, the title
        strip and the optional logo, or `None` when encoding raises;
      - `utf8`: the bytes a text file is written as. */
  datatype Tools = Tools(
    cacheDir: string -> string,
    download: (seq<string>, string) -> Download,
    decodeLogo: Bytes -> Option<Bytes>,
    transcript: (string, string) -> Result<string>,
    speak: string -> Option<Bytes>,
    size: Bytes -> (int, int),
    resize: (Bytes, int, int) -> Bytes,
    textSize: string -> (int, int),
    overlay: (int, string, (int, int)) -> Option<Bytes>,
    render: (seq<Bytes>, Bytes, Bytes, Option<Bytes>) -> Option<Bytes>,
    utf8: string -> Bytes)

  const NoImagesDownloaded := "❌ No images downloaded – check your URLs."
  const ImageMissing := "❌ Image file missing: "
  const ImageCorrupted := "❌ Image file corrupted (0 bytes): "
  const TranscriptFailed := "❌ Transcript generation failed."
  const VoiceoverFailed := "❌ Voiceover generation failed"
  const AudioCorrupted := "❌ Audio file corrupted or not saved properly."
  const NoValidImages := "❌ No valid images provided for video generation."
  const MissingImageFile := "❌ Missing image file: "
  const FontNotFound := "Font not found: "
  const OverlayFailed := "❌ Title overlay creation failed"
  const RenderingFailed := "❌ Video rendering failed"

  const BoldFont := "Poppins-Bold.ttf"
  const MinAudioBytes := 1024
  const TitleStripHeight := 100

  // ---------------------------------------------------------------------
  // The image checks of generate_for_single
  // ---------------------------------------------------------------------

  /** The index of the first path that does not exist, if any. */
  function FirstMissing(files: map<string, Bytes>, paths: seq<string>): (r: Option<nat>)
    ensures r.Some? ==> r.value < |paths| && paths[r.value] !in files
                        && forall j :: 0 <= j < r.value ==> paths[j] in files
    ensures r.None? <==> forall j :: 0 <= j < |paths| ==> paths[j] in files
  {
    if paths == [] then None
    else if paths[0] !in files then Some(0)
    else match FirstMissing(files, paths[1..])
      case None => None
      case Some(k) => Some(k + 1)
  }

  /** The index of the first existing path whose file is empty, if any. */
  function FirstEmpty(files: map<string, Bytes>, paths: seq<string>): (r: Option<nat>)
    requires forall j :: 0 <= j < |paths| ==> paths[j] in files
    ensures r.Some? ==> r.value < |paths| && files[paths[r.value]] == []
                        && forall j :: 0 <= j < r.value ==> files[paths[j]] != []
    ensures r.None? <==> forall j :: 0 <= j < |paths| ==> files[paths[j]] != []
  {
    if paths == [] then None
    else if files[paths[0]] == [] then Some(0)
    else match FirstEmpty(files, paths[1..])
      case None => None
      case Some(k) => Some(k + 1)
  }

  /** The error the download checks raise, if any: none downloaded, then
      the first missing file, then the first empty one. */
  function ImageCheck(files: map<string, Bytes>, paths: seq<string>): Option<Exc> {
    if paths == [] then Some(GenerationError(NoImagesDownloaded))
    else match FirstMissing(files, paths)
      case Some(i) => Some(GenerationError(ImageMissing + paths[i]))
      case None =>
        match FirstEmpty(files, paths)
        case Some(i) => Some(GenerationError(ImageCorrupted + paths[i]))
        case None => None
  }

  /** Every existence check runs before any size check: a missing file is
      reported even when an earlier file is empty, an empty file only when
      all files exist, and nothing is raised exactly when there is at least
      one path and every path names a non-empty file. */
  lemma ImageCheckOrder(files: map<string, Bytes>, paths: seq<string>)
    ensures ImageCheck(files, paths).None? <==>
      paths != [] && forall j :: 0 <= j < |paths| ==> paths[j] in files && files[paths[j]] != []
    ensures forall i :: 0 <= i < |paths| && paths[i] !in files && (forall j :: 0 <= j < i ==> paths[j] in files) ==>
      ImageCheck(files, paths) == Some(GenerationError(ImageMissing + paths[i]))
    ensures forall i :: 0 <= i < |paths| && (forall j :: 0 <= j < |paths| ==> paths[j] in files)
                        && files[paths[i]] == [] && (forall j :: 0 <= j < i ==> files[paths[j]] != []) ==>
      ImageCheck(files, paths) == Some(GenerationError(ImageCorrupted + paths[i]))
  {
    if ImageCheck(files, paths).None? {
      assert FirstMissing(files, paths).None?;
    }
  }

  /** The two loops of lines 72-77 over the downloaded paths. */
  method CheckImages(fs: FileSystem, paths: seq<string>) returns (err: Option<Exc>)
    ensures err == ImageCheck(fs.files, paths)
  {
    if paths == [] {
      return Some(GenerationError(NoImagesDownloaded));
    }
    for i := 0 to |paths|
      invariant forall j :: 0 <= j < i ==> paths[j] in fs.files
    {
      if paths[i] !in fs.files {
        return Some(GenerationError(ImageMissing + paths[i]));
      }
    }
    for i := 0 to |paths|
      invariant forall j :: 0 <= j < i ==> fs.files[paths[j]] != []
    {
      if |fs.files[paths[i]]| == 0 {
        return Some(GenerationError(ImageCorrupted + paths[i]));
      }
    }
    return None;
  }

  // ---------------------------------------------------------------------
  // Logo
  // ---------------------------------------------------------------------

  /** The resized logo, when a logo path is configured, names a file, and
      decoding it succeeds; anything else leaves the logo out. */
  function LogoFor(files: map<string, Bytes>, logoPath: string, decode: Bytes -> Option<Bytes>): (r: Option<Bytes>)
    ensures r.Some? ==> logoPath != "" && logoPath in files && r == decode(files[logoPath])
    ensures logoPath == "" || logoPath !in files ==> r == None
  {
    if logoPath != "" && logoPath in files then decode(files[logoPath]) else None
  }

  /** The files after the logo step: a decoded logo is saved as
      `resized_logo.png` in the item's cache directory. */
  function AfterLogo(files: map<string, Bytes>, logoPath: string, persistent: string,
                     decode: Bytes -> Option<Bytes>): (r: map<string, Bytes>)
    ensures files.Keys <= r.Keys
    ensures forall p :: p in files && p != PathJoin(persistent, "resized_logo.png") ==> r[p] == files[p]
  {
    var logo := LogoFor(files, logoPath, decode);
    if logo.Some? then files[PathJoin(persistent, "resized_logo.png") := logo.value] else files
  }

  /** Lines 80-89: the logo step never raises; a decoded logo is also saved
      as `resized_logo.png` in the item's cache directory. */
  method LoadLogo(fs: FileSystem, logoPath: string, persistent: string, decode: Bytes -> Option<Bytes>)
    returns (logo: Option<Bytes>)
    modifies fs
    ensures logo == LogoFor(old(fs.files), logoPath, decode)
    ensures fs.files == AfterLogo(old(fs.files), logoPath, persistent, decode)
  {
    logo := None;
    if logoPath != "" && logoPath in fs.files {
      logo := decode(fs.files[logoPath]);
      if logo.Some? {
        fs.files := fs.files[PathJoin(persistent, "resized_logo.png") := logo.value];
      }
    }
  }

  // ---------------------------------------------------------------------
  // Resizing
  // ---------------------------------------------------------------------

  /** `os.path.join(workdir, f"resized_{idx}.jpg")`. */
  function ResizedName(workdir: string, idx: nat): string {
    PathJoin(workdir, "resized_" + NatToString(idx) + ".jpg")
  }

  /** Different indices give different resized files. */
  lemma ResizedNamesDistinct(workdir: string, i: nat, j: nat)
    requires i != j
    ensures ResizedName(workdir, i) != ResizedName(workdir, j)
  {
    var a := "resized_" + NatToString(i) + ".jpg";
    var b := "resized_" + NatToString(j) + ".jpg";
    assert a[0] == 'r' && b[0] == 'r';
    assert !StartsWith(a, "/") && !StartsWith(b, "/");
    if ResizedName(workdir, i) == ResizedName(workdir, j) {
      var p := if workdir == "" || EndsWith(workdir, "/") then workdir else workdir + "/";
      assert ResizedName(workdir, i) == p + a && ResizedName(workdir, j) == p + b;
      assert a == (p + a)[|p|..] == (p + b)[|p|..] == b;
      assert a[8..|a| - 4] == NatToString(i);
      assert b[8..|b| - 4] == NatToString(j);
      NatToStringRoundTrip(i);
      NatToStringRoundTrip(j);
    }
  }

  /** The file system after resizing `images` in order: image `idx` is
      read as it is at that point and written to `resized_{idx}.jpg`. */
  function ResizedFiles(files: map<string, Bytes>, images: seq<string>, workdir: string, w: int, h: int,
                        resize: (Bytes, int, int) -> Bytes): (r: map<string, Bytes>)
    requires forall j :: 0 <= j < |images| ==> images[j] in files
    ensures files.Keys <= r.Keys
    ensures forall j :: 0 <= j < |images| ==> ResizedName(workdir, j) in r
    decreases |images|
  {
    if images == [] then files
    else
      var n := |images| - 1;
      var before := ResizedFiles(files, images[..n], workdir, w, h, resize);
      before[ResizedName(workdir, n) := resize(before[images[n]], w, h)]
  }

  /** When no input image is itself a `resized_{idx}.jpg` of the work
      directory, resized file `i` holds input `i`, resized. */
  lemma {:induction false} ResizedContent(files: map<string, Bytes>, images: seq<string>, workdir: string,
                                          w: int, h: int, resize: (Bytes, int, int) -> Bytes, i: nat)
    requires forall j :: 0 <= j < |images| ==> images[j] in files
    requires forall k, j :: 0 <= k < |images| && 0 <= j < |images| ==> images[k] != ResizedName(workdir, j)
    requires i < |images|
    ensures ResizedFiles(files, images, workdir, w, h, resize)[ResizedName(workdir, i)] == resize(files[images[i]], w, h)
    decreases |images|
  {
    var n := |images| - 1;
    var init := images[..n];
    var before := ResizedFiles(files, init, workdir, w, h, resize);
    ResizedUntouched(files, init, workdir, w, h, resize, images[n]);
    if i < n {
      ResizedContent(files, init, workdir, w, h, resize, i);
      ResizedNamesDistinct(workdir, i, n);
    }
  }

  /** Resizing leaves every file that is not a resized output untouched. */
  lemma {:induction false} ResizedUntouched(files: map<string, Bytes>, images: seq<string>, workdir: string,
                                            w: int, h: int, resize: (Bytes, int, int) -> Bytes, p: string)
    requires forall j :: 0 <= j < |images| ==> images[j] in files
    requires p in files && forall j :: 0 <= j < |images| ==> p != ResizedName(workdir, j)
    ensures ResizedFiles(files, images, workdir, w, h, resize)[p] == files[p]
    decreases |images|
  {
    if images != [] {
      ResizedUntouched(files, images[..|images| - 1], workdir, w, h, resize, p);
    }
  }

  /** `[join(workdir, f"resized_{idx}.jpg") for idx in range(n)]`. */
  function ResizedNames(workdir: string, n: nat): (r: seq<string>)
    ensures |r| == n
    ensures forall i :: 0 <= i < n ==> r[i] == ResizedName(workdir, i)
  {
    if n == 0 then [] else ResizedNames(workdir, n - 1) + [ResizedName(workdir, n - 1)]
  }

  /** Lines 183-191: resize every image to (w, h), in input order. */
  method ResizeAll(fs: FileSystem, images: seq<string>, workdir: string, w: int, h: int,
                   resize: (Bytes, int, int) -> Bytes) returns (resized: seq<string>)
    requires forall j :: 0 <= j < |images| ==> images[j] in fs.files
    modifies fs
    ensures resized == ResizedNames(workdir, |images|)
    ensures fs.files == ResizedFiles(old(fs.files), images, workdir, w, h, resize)
  {
    resized := [];
    for idx := 0 to |images|
      invariant resized == ResizedNames(workdir, idx)
      invariant fs.files == ResizedFiles(old(fs.files), images[..idx], workdir, w, h, resize)
    {
      assert images[..idx + 1][..idx] == images[..idx];
      var img := fs.files[images[idx]];
      var path := ResizedName(workdir, idx);
      fs.files := fs.files[path := resize(img, w, h)];
      resized := resized + [path];
    }
    assert images[..|images|] == images;
  }

  // ---------------------------------------------------------------------
  // Title strip
  // ---------------------------------------------------------------------

  /** `((clip.w - text_width) // 2, (100 - text_height) // 2)`; Python's
      floor division by 2 is Dafny's division by 2. */
  function TitlePosition(clipWidth: int, textWidth: int, textHeight: int): (int, int) {
    ((clipWidth - textWidth) / 2, (TitleStripHeight - textHeight) / 2)
  }

  /** The title is centred to within one pixel, and lies inside the strip
      whenever it fits. */
  lemma TitleCentred(clipWidth: int, textWidth: int, textHeight: int)
    ensures var (x, y) := TitlePosition(clipWidth, textWidth, textHeight);
      && 2 * x <= clipWidth - textWidth <= 2 * x + 1
      && 2 * y <= TitleStripHeight - textHeight <= 2 * y + 1
      && (0 <= textWidth <= clipWidth ==> 0 <= x && x + textWidth <= clipWidth)
      && (0 <= textHeight <= TitleStripHeight ==> 0 <= y && y + textHeight <= TitleStripHeight)
  {
  }

  // ---------------------------------------------------------------------
  // _assemble_video
  // ---------------------------------------------------------------------

  function NarrationPath(audioFolder: string, basename: string): string {
    PathJoin(audioFolder, basename + "_narration.mp3")
  }

  function VideoPath(workdir: string, basename: string): string {
    PathJoin(workdir, basename + ".mp4")
  }

  /** Line 171: the narration must exist and hold at least 1024 bytes. */
  predicate AudioAccepted(files: map<string, Bytes>, path: string) {
    path in files && |files[path]| >= MinAudioBytes
  }

  /** Lines 163-172: narrate the text, save it, and check the saved file. */
  method Narrate(fs: FileSystem, narration: string, audioPath: string, speak: string -> Option<Bytes>)
    returns (err: Option<Exc>)
    modifies fs
    ensures speak(narration).None? ==> err == Some(GenerationError(VoiceoverFailed)) && fs.files == old(fs.files)
    ensures speak(narration).Some? ==>
      && fs.files == old(fs.files)[audioPath := speak(narration).value]
      && (err.None? <==> AudioAccepted(fs.files, audioPath))
      && (err.Some? ==> err == Some(GenerationError(AudioCorrupted)))
  {
    var speech := speak(narration);
    if speech.None? {
      return Some(GenerationError(VoiceoverFailed));
    }
    fs.files := fs.files[audioPath := speech.value];
    if audioPath !in fs.files || |fs.files[audioPath]| < MinAudioBytes {
      return Some(GenerationError(AudioCorrupted));
    }
    return None;
  }

  /** Lines 175-180: the error for an empty image list or the first
      missing image, if any. */
  function AssemblyCheck(files: map<string, Bytes>, images: seq<string>): (r: Option<Exc>)
    ensures r.None? <==> images != [] && forall j :: 0 <= j < |images| ==> images[j] in files
  {
    if images == [] then Some(GenerationError(NoValidImages))
    else match FirstMissing(files, images)
      case Some(i) => Some(GenerationError(MissingImageFile + images[i]))
      case None => None
  }

  method CheckAssemblyImages(fs: FileSystem, images: seq<string>) returns (err: Option<Exc>)
    ensures err == AssemblyCheck(fs.files, images)
  {
    if images == [] {
      return Some(GenerationError(NoValidImages));
    }
    for i := 0 to |images|
      invariant forall j :: 0 <= j < i ==> images[j] in fs.files
    {
      if images[i] !in fs.files {
        return Some(GenerationError(MissingImageFile + images[i]));
      }
    }
    return None;
  }

  /** The contents of existing files, in order. */
  function Contents(files: map<string, Bytes>, paths: seq<string>): (r: seq<Bytes>)
    requires forall j :: 0 <= j < |paths| ==> paths[j] in files
    ensures |r| == |paths| && forall j :: 0 <= j < |paths| ==> r[j] == files[paths[j]]
  {
    if paths == [] then [] else [files[paths[0]]] + Contents(files, paths[1..])
  }

  /** What lines 183-234 end in, on the files they start from: the bold
      font is looked up after the resized images are written, then the
      title strip is drawn and saved, then the video is rendered from the
      resized files. */
  function ComposeOutcome(files: map<string, Bytes>, images: seq<string>, audioPath: string, logo: Option<Bytes>,
                          titleText: string, fontsFolder: string, workdir: string, basename: string,
                          tools: Tools): (r: Result<string>)
    requires images != [] && forall j :: 0 <= j < |images| ==> images[j] in files
    requires audioPath in files
    ensures r.Ok? ==> r.value == VideoPath(workdir, basename)
    ensures r.Err? ==> r.error in [GenerationError(FontNotFound + PathJoin(fontsFolder, BoldFont)),
                                   GenerationError(OverlayFailed), GenerationError(RenderingFailed)]
    ensures PathJoin(fontsFolder, BoldFont) in files ==>
      r != Err(GenerationError(FontNotFound + PathJoin(fontsFolder, BoldFont)))
    ensures var (w, h) := tools.size(files[images[0]]);
      var (tw, th) := tools.textSize(titleText);
      tools.overlay(w, titleText, TitlePosition(w, tw, th)).None? ==> r.Err?
  {
    var (w, h) := tools.size(files[images[0]]);
    var resized := ResizedFiles(files, images, workdir, w, h, tools.resize);
    var fontPath := PathJoin(fontsFolder, BoldFont);
    if fontPath !in resized then Err(GenerationError(FontNotFound + fontPath))
    else
      var (tw, th) := tools.textSize(titleText);
      var strip := tools.overlay(w, titleText, TitlePosition(w, tw, th));
      if strip.None? then Err(GenerationError(OverlayFailed))
      else
        var withStrip := resized[PathJoin(workdir, basename + "_text.png") := strip.value];
        var video := tools.render(Contents(withStrip, ResizedNames(workdir, |images|)), withStrip[audioPath],
                                  strip.value, logo);
        if video.None? then Err(GenerationError(RenderingFailed)) else Ok(VideoPath(workdir, basename))
  }

  /** Resizing adds no file other than the `resized_{idx}.jpg` outputs. */
  lemma {:induction false} ResizedAddsOnlyOutputs(files: map<string, Bytes>, images: seq<string>, workdir: string,
                                                  w: int, h: int, resize: (Bytes, int, int) -> Bytes, p: string)
    requires forall j :: 0 <= j < |images| ==> images[j] in files
    requires p !in files && forall j :: 0 <= j < |images| ==> p != ResizedName(workdir, j)
    ensures p !in ResizedFiles(files, images, workdir, w, h, resize)
    decreases |images|
  {
    if images != [] {
      ResizedAddsOnlyOutputs(files, images[..|images| - 1], workdir, w, h, resize, p);
    }
  }

  /** A bold font that is neither present nor one of the resized outputs
      stops the composition with "Font not found", whatever the overlay
      and the renderer would do. */
  lemma ComposeFontMissing(files: map<string, Bytes>, images: seq<string>, audioPath: string, logo: Option<Bytes>,
                           titleText: string, fontsFolder: string, workdir: string, basename: string, tools: Tools)
    requires images != [] && forall j :: 0 <= j < |images| ==> images[j] in files
    requires audioPath in files
    requires PathJoin(fontsFolder, BoldFont) !in files
    requires forall j :: 0 <= j < |images| ==> PathJoin(fontsFolder, BoldFont) != ResizedName(workdir, j)
    ensures ComposeOutcome(files, images, audioPath, logo, titleText, fontsFolder, workdir, basename, tools)
         == Err(GenerationError(FontNotFound + PathJoin(fontsFolder, BoldFont)))
  {
    var (w, h) := tools.size(files[images[0]]);
    ResizedAddsOnlyOutputs(files, images, workdir, w, h, tools.resize, PathJoin(fontsFolder, BoldFont));
  }

  /** Lines 183-234: resize to the first image's size, check the bold
      font, draw the centred title strip, and render the video. */
  method Compose(fs: FileSystem, images: seq<string>, audioPath: string, logo: Option<Bytes>, titleText: string,
                 fontsFolder: string, workdir: string, basename: string, tools: Tools) returns (r: Result<string>)
    requires images != [] && forall j :: 0 <= j < |images| ==> images[j] in fs.files
    requires audioPath in fs.files
    modifies fs
    ensures old(fs.files).Keys <= fs.files.Keys
    ensures forall i :: 0 <= i < |images| ==> ResizedName(workdir, i) in fs.files
    ensures r == ComposeOutcome(old(fs.files), images, audioPath, logo, titleText, fontsFolder, workdir, basename, tools)
    ensures r.Ok? ==>
      && r.value == VideoPath(workdir, basename) && r.value in fs.files
      && PathJoin(fontsFolder, BoldFont) in fs.files
  {
    var (w, h) := tools.size(fs.files[images[0]]);
    var resized := ResizeAll(fs, images, workdir, w, h, tools.resize);
    var fontPath := PathJoin(fontsFolder, BoldFont);
    if fontPath !in fs.files {
      return Err(GenerationError(FontNotFound + fontPath));
    }
    var (tw, th) := tools.textSize(titleText);
    var strip := tools.overlay(w, titleText, TitlePosition(w, tw, th));
    if strip.None? {
      return Err(GenerationError(OverlayFailed));
    }
    fs.files := fs.files[PathJoin(workdir, basename + "_text.png") := strip.value];
    var video := tools.render(Contents(fs.files, resized), fs.files[audioPath], strip.value, logo);
    if video.None? {
      return Err(GenerationError(RenderingFailed));
    }
    var outPath := VideoPath(workdir, basename);
    fs.files := fs.files[outPath := video.value];
    r := Ok(outPath);
  }

  /** `_assemble_video`: the narration and image checks come first, in
      that order, and a rendered video is `basename.mp4` in the work
      directory. */
  method AssembleVideo(fs: FileSystem, images: seq<string>, narration: string, logo: Option<Bytes>,
                       titleText: string, fontsFolder: string, audioFolder: string, workdir: string,
                       basename: string, tools: Tools) returns (r: Result<string>)
    modifies fs
    ensures old(fs.files).Keys <= fs.files.Keys
    ensures tools.speak(narration).None? ==>
      r == Err(GenerationError(VoiceoverFailed)) && fs.files == old(fs.files)
    ensures tools.speak(narration).Some? ==>
      var afterAudio := old(fs.files)[NarrationPath(audioFolder, basename) := tools.speak(narration).value];
      && (!AudioAccepted(afterAudio, NarrationPath(audioFolder, basename)) ==>
            r == Err(GenerationError(AudioCorrupted)) && fs.files == afterAudio)
      && (AudioAccepted(afterAudio, NarrationPath(audioFolder, basename)) && AssemblyCheck(afterAudio, images).Some? ==>
            r == Err(AssemblyCheck(afterAudio, images).value) && fs.files == afterAudio)
      && (AudioAccepted(afterAudio, NarrationPath(audioFolder, basename)) && AssemblyCheck(afterAudio, images).None? ==>
            r == ComposeOutcome(afterAudio, images, NarrationPath(audioFolder, basename), logo, titleText,
                                fontsFolder, workdir, basename, tools))
    ensures r.Ok? ==>
      && images != []
      && r.value == VideoPath(workdir, basename) && r.value in fs.files
      && tools.speak(narration).Some? && |tools.speak(narration).value| >= MinAudioBytes
      && PathJoin(fontsFolder, BoldFont) in fs.files
      && (forall i :: 0 <= i < |images| ==> ResizedName(workdir, i) in fs.files)
  {
    var audioPath := NarrationPath(audioFolder, basename);
    var err := Narrate(fs, narration, audioPath, tools.speak);
    if err.Some? {
      return Err(err.value);
    }
    err := CheckAssemblyImages(fs, images);
    if err.Some? {
      return Err(err.value);
    }
    r := Compose(fs, images, audioPath, logo, titleText, fontsFolder, workdir, basename, tools);
  }

  // ---------------------------------------------------------------------
  // generate_for_single
  // ---------------------------------------------------------------------

  function Workdir(persistent: string): string { PathJoin(persistent, "workdir") }
  function AudioFolder(persistent: string): string { PathJoin(persistent, "audio") }

  /** `shutil.copy(src, dst)`: the destination gets the source's content;
      a missing source or a copy onto itself raises. */
  method CopyFile(fs: FileSystem, src: string, dst: string) returns (o: Outcome)
    modifies fs
    ensures src in old(fs.files) && src != dst ==>
      o == Done && fs.files == old(fs.files)[dst := old(fs.files)[src]]
    ensures src !in old(fs.files) ==> o == Raised(OtherError("FileNotFoundError")) && fs.files == old(fs.files)
    ensures src in old(fs.files) && src == dst ==> o == Raised(OtherError("SameFileError")) && fs.files == old(fs.files)
  {
    if src !in fs.files {
      return Raised(OtherError("FileNotFoundError"));
    }
    if src == dst {
      return Raised(OtherError("SameFileError"));
    }
    fs.files := fs.files[dst := fs.files[src]];
    o := Done;
  }

  /** The three files copied to `output_base_folder/base`, in the order
      of `GenerationResult`: video, title, blog. */
  function Finals(outputBaseFolder: string, base: string): GenerationResult {
    GenerationResult(FinalPath(outputBaseFolder, base, ".mp4"), FinalPath(outputBaseFolder, base, "_title.txt"),
                     FinalPath(outputBaseFolder, base, "_blog.txt"))
  }

  /** `join(output_base_folder, base, basename(base) + sfx)`. */
  function FinalPath(outputBaseFolder: string, base: string, sfx: string): string {
    PathJoin(PathJoin(outputBaseFolder, base), Basename(base) + sfx)
  }

  /** The endings of the three output names tell them apart. */
  lemma SuffixesDiffer()
    ensures "_blog.txt"[5..] != ".mp4" && "_title.txt"[6..] != ".mp4" && "_title.txt"[1..] != "_blog.txt"
  {
    assert "_blog.txt"[5..][1] == 't' != ".mp4"[1];
    assert "_title.txt"[6..][1] == 't' != ".mp4"[1];
    assert "_title.txt"[1..][0] == 't' != "_blog.txt"[0];
  }

  /** The three copies land in three different files, none of which is a
      work-directory file the pipeline writes. */
  lemma FinalsDistinct(outputBaseFolder: string, base: string, workdir: string)
    ensures var f := Finals(outputBaseFolder, base);
      && f.videoPath != f.titleFile && f.videoPath != f.blogFile && f.titleFile != f.blogFile
      && f.videoPath != BlogPath(workdir, base)
      && f.videoPath != TitlePath(workdir, base)
      && f.blogFile != TitlePath(workdir, base)
      && f.blogFile != VideoPath(workdir, base) && f.titleFile != VideoPath(workdir, base)
  {
    var f := Finals(outputBaseFolder, base);
    var dir := PathJoin(outputBaseFolder, base);
    var name := Basename(base);
    SuffixesDiffer();
    assert EndsWith(f.videoPath, ".mp4") by { EndsWithSuffix(dir, name, ".mp4"); }
    assert EndsWith(f.titleFile, "_title.txt") by { EndsWithSuffix(dir, name, "_title.txt"); }
    assert EndsWith(f.blogFile, "_blog.txt") by { EndsWithSuffix(dir, name, "_blog.txt"); }
    assert EndsWith(BlogPath(workdir, base), "_blog.txt") by { EndsWithSuffix(workdir, base, "_blog.txt"); }
    assert EndsWith(TitlePath(workdir, base), "_title.txt") by { EndsWithSuffix(workdir, base, "_title.txt"); }
    assert EndsWith(VideoPath(workdir, base), ".mp4") by { EndsWithSuffix(workdir, base, ".mp4"); }
    DifferentEndings(f.videoPath, f.titleFile, ".mp4", "_title.txt");
    DifferentEndings(f.videoPath, f.blogFile, ".mp4", "_blog.txt");
    DifferentEndings(f.blogFile, f.titleFile, "_blog.txt", "_title.txt");
    DifferentEndings(f.videoPath, BlogPath(workdir, base), ".mp4", "_blog.txt");
    DifferentEndings(f.videoPath, TitlePath(workdir, base), ".mp4", "_title.txt");
    DifferentEndings(f.blogFile, TitlePath(workdir, base), "_blog.txt", "_title.txt");
    DifferentEndings(VideoPath(workdir, base), f.blogFile, ".mp4", "_blog.txt");
    DifferentEndings(VideoPath(workdir, base), f.titleFile, ".mp4", "_title.txt");
  }

  function BlogPath(workdir: string, base: string): string {
    PathJoin(workdir, base + "_blog.txt")
  }

  function TitlePath(workdir: string, base: string): string {
    PathJoin(workdir, base + "_title.txt")
  }

  /** The video, blog and title files of the work directory differ. */
  lemma WorkFilesDistinct(workdir: string, base: string)
    ensures VideoPath(workdir, base) != BlogPath(workdir, base)
    ensures VideoPath(workdir, base) != TitlePath(workdir, base)
    ensures BlogPath(workdir, base) != TitlePath(workdir, base)
  {
    EndsWithSuffix(workdir, base, ".mp4");
    EndsWithSuffix(workdir, base, "_blog.txt");
    EndsWithSuffix(workdir, base, "_title.txt");
    DifferentEndings(VideoPath(workdir, base), BlogPath(workdir, base), ".mp4", "_blog.txt");
    DifferentEndings(VideoPath(workdir, base), TitlePath(workdir, base), ".mp4", "_title.txt");
    DifferentEndings(BlogPath(workdir, base), TitlePath(workdir, base), "_blog.txt", "_title.txt");
  }

  /** Each copy goes to the output folder under its own file name. */
  lemma FinalKeepsName(outputBaseFolder: string, base: string, workdir: string, sfx: string)
    requires '/' !in sfx
    ensures FinalPath(outputBaseFolder, base, sfx)
         == PathJoin(PathJoin(outputBaseFolder, base), Basename(PathJoin(workdir, base + sfx)))
  {
    JoinedBasename(workdir, base, sfx);
  }

  /** `join(dir, basename(path))`: where a file is copied to. */
  function CopyTarget(dir: string, path: string): string {
    PathJoin(dir, Basename(path))
  }

  /** `shutil.copy` of each output onto its target succeeds: no target is
      its own source. */
  predicate CopiesSucceed(dir: string, videoPath: string, blogFile: string, titleFile: string) {
    CopyTarget(dir, videoPath) != videoPath && CopyTarget(dir, blogFile) != blogFile
    && CopyTarget(dir, titleFile) != titleFile
  }

  /** Lines 108-129: write the blog and title files next to the video and
      copy all three into `dir`, keeping their names. The paths are
      distinct, so no write clobbers a file still to be copied. */
  method Publish(fs: FileSystem, videoPath: string, blogFile: string, titleFile: string, dir: string,
                 transcript: string, title: string, utf8: string -> Bytes) returns (r: Result<GenerationResult>)
    requires videoPath in fs.files
    requires videoPath != blogFile && videoPath != titleFile && blogFile != titleFile
    requires var v, b, t := CopyTarget(dir, videoPath), CopyTarget(dir, blogFile), CopyTarget(dir, titleFile);
      && v != b && v != t && b != t && v != blogFile && v != titleFile && b != titleFile
      && b != videoPath && t != videoPath
    modifies fs
    ensures r.Ok? ==>
      && r.value == GenerationResult(CopyTarget(dir, videoPath), CopyTarget(dir, titleFile), CopyTarget(dir, blogFile))
      && r.value.titleFile in fs.files && r.value.blogFile in fs.files && r.value.videoPath in fs.files
      && fs.files[r.value.titleFile] == utf8(title)
      && fs.files[r.value.blogFile] == utf8(transcript)
      && videoPath in fs.files
      && fs.files[r.value.videoPath] == fs.files[videoPath] == old(fs.files)[videoPath]
    ensures r.Ok? <==> CopiesSucceed(dir, videoPath, blogFile, titleFile)
    ensures r.Err? ==> r.error == OtherError("SameFileError")
  {
    fs.files := fs.files[blogFile := utf8(transcript)];
    fs.files := fs.files[titleFile := utf8(title)];
    var finalVideo := CopyTarget(dir, videoPath);
    var finalBlog := CopyTarget(dir, blogFile);
    var finalTitle := CopyTarget(dir, titleFile);
    var copied := CopyFile(fs, videoPath, finalVideo);
    if copied.Raised? {
      return Err(copied.error);
    }
    copied := CopyFile(fs, blogFile, finalBlog);
    if copied.Raised? {
      return Err(copied.error);
    }
    copied := CopyFile(fs, titleFile, finalTitle);
    if copied.Raised? {
      return Err(copied.error);
    }
    r := Ok(GenerationResult(finalVideo, finalTitle, finalBlog));
  }

  /** The copies of an item's outputs are `Finals`. */
  lemma FinalsAreCopies(outputBaseFolder: string, base: string, workdir: string)
    ensures var dir := PathJoin(outputBaseFolder, base);
      Finals(outputBaseFolder, base) == GenerationResult(CopyTarget(dir, VideoPath(workdir, base)),
                                                         CopyTarget(dir, TitlePath(workdir, base)),
                                                         CopyTarget(dir, BlogPath(workdir, base)))
  {
    var dir := PathJoin(outputBaseFolder, base);
    var f := Finals(outputBaseFolder, base);
    assert f.videoPath == CopyTarget(dir, VideoPath(workdir, base)) by {
      FinalKeepsName(outputBaseFolder, base, workdir, ".mp4");
    }
    assert f.blogFile == CopyTarget(dir, BlogPath(workdir, base)) by {
      FinalKeepsName(outputBaseFolder, base, workdir, "_blog.txt");
    }
    assert f.titleFile == CopyTarget(dir, TitlePath(workdir, base)) by {
      FinalKeepsName(outputBaseFolder, base, workdir, "_title.txt");
    }
  }

  /** The paths of an item's outputs meet what `Publish` needs. */
  lemma PublishPathsDistinct(outputBaseFolder: string, base: string, workdir: string)
    ensures var dir := PathJoin(outputBaseFolder, base);
      var v, b, t := VideoPath(workdir, base), BlogPath(workdir, base), TitlePath(workdir, base);
      && v != b && v != t && b != t
      && CopyTarget(dir, v) != CopyTarget(dir, b) && CopyTarget(dir, v) != CopyTarget(dir, t)
      && CopyTarget(dir, b) != CopyTarget(dir, t)
      && CopyTarget(dir, v) != b && CopyTarget(dir, v) != t && CopyTarget(dir, b) != t
      && CopyTarget(dir, b) != v && CopyTarget(dir, t) != v
  {
    FinalsAreCopies(outputBaseFolder, base, workdir);
    FinalsDistinct(outputBaseFolder, base, workdir);
    WorkFilesDistinct(workdir, base);
  }

  /** How the run of an item ends once the downloads pass their checks
      and the stripped transcript is not empty: a failed or too short
      narration, the composition's font, overlay or rendering error, or
      the published outputs, which exist exactly when no copy lands on its
      own source. (The assembly's own image checks cannot fire there: the
      download checks already saw every image.) */
  ghost predicate AssemblyTies(files: map<string, Bytes>, cfg: Config, base: string, title: string,
                               description: string, imageUrls: seq<string>, tools: Tools, r: Result<GenerationResult>)
  {
    var persistent := tools.cacheDir(base);
    var workdir := Workdir(persistent);
    var dl := tools.download(imageUrls, workdir);
    var afterDl := files + dl.written;
    var generated := tools.transcript(title, description);
    ImageCheck(afterDl, dl.paths).None? && generated.Ok? && Strip(generated.value) != "" ==>
      var speech := tools.speak(Strip(generated.value));
      var audioPath := NarrationPath(AudioFolder(persistent), base);
      && (speech.None? ==> r == Err(GenerationError(VoiceoverFailed)))
      && (speech.Some? && |speech.value| < MinAudioBytes ==> r == Err(GenerationError(AudioCorrupted)))
      && (speech.Some? && |speech.value| >= MinAudioBytes ==>
            var afterAudio := AfterLogo(afterDl, cfg.logoPath, persistent, tools.decodeLogo)[audioPath := speech.value];
            var composed := ComposeOutcome(afterAudio, dl.paths, audioPath, LogoFor(afterDl, cfg.logoPath, tools.decodeLogo),
                                           title, cfg.fontsZipPath, workdir, base, tools);
            && (composed.Err? ==> r == Err(composed.error))
            && (composed.Ok? ==>
                  (r.Ok? <==> CopiesSucceed(PathJoin(cfg.outputBaseFolder, base), VideoPath(workdir, base),
                                            BlogPath(workdir, base), TitlePath(workdir, base)))))
  }

  /** Everything after the key: cache directories, downloads and their
      checks, logo, transcript, assembly, and the published outputs. */
  method GenerateForKey(fs: FileSystem, cfg: Config, base: string,
                        title: string, description: string, imageUrls: seq<string>, tools: Tools)
    returns (r: Result<GenerationResult>)
    modifies fs
    ensures var dl := tools.download(imageUrls, Workdir(tools.cacheDir(base)));
      var afterDl := old(fs.files) + dl.written;
      && (ImageCheck(afterDl, dl.paths).Some? ==> r == Err(ImageCheck(afterDl, dl.paths).value) && fs.files == afterDl)
      && (ImageCheck(afterDl, dl.paths).None? && tools.transcript(title, description).Err? ==>
            r == Err(tools.transcript(title, description).error))
      && (ImageCheck(afterDl, dl.paths).None? && tools.transcript(title, description).Ok?
          && Strip(tools.transcript(title, description).value) == "" ==>
            r == Err(GenerationError(TranscriptFailed)))
    ensures AssemblyTies(old(fs.files), cfg, base, title, description, imageUrls, tools, r)
    ensures r.Ok? ==>
      var workdir := Workdir(tools.cacheDir(base));
      && r.value == Finals(cfg.outputBaseFolder, base)
      && tools.transcript(title, description).Ok?
      && r.value.titleFile in fs.files && r.value.blogFile in fs.files
      && r.value.videoPath in fs.files && VideoPath(workdir, base) in fs.files
      && fs.files[r.value.titleFile] == tools.utf8(title)
      && fs.files[r.value.blogFile] == tools.utf8(Strip(tools.transcript(title, description).value))
      && fs.files[r.value.videoPath] == fs.files[VideoPath(workdir, base)]
  {
    var persistent := tools.cacheDir(base);
    var workdir := Workdir(persistent);
    var dl := tools.download(imageUrls, workdir);
    fs.files := fs.files + dl.written;
    var check := CheckImages(fs, dl.paths);
    if check.Some? {
      return Err(check.value);
    }
    var logo := LoadLogo(fs, cfg.logoPath, persistent, tools.decodeLogo);
    var generated := tools.transcript(title, description);
    if generated.Err? {
      return Err(generated.error);
    }
    var transcript := Strip(generated.value);
    if transcript == "" {
      return Err(GenerationError(TranscriptFailed));
    }
    var video := AssembleVideo(fs, dl.paths, transcript, logo, title, cfg.fontsZipPath, AudioFolder(persistent),
                               workdir, base, tools);
    if video.Err? {
      return Err(video.error);
    }
    FinalsAreCopies(cfg.outputBaseFolder, base, workdir);
    PublishPathsDistinct(cfg.outputBaseFolder, base, workdir);
    r := Publish(fs, video.value, BlogPath(workdir, base), TitlePath(workdir, base), PathJoin(cfg.outputBaseFolder, base),
                 transcript, title, tools.utf8);
  }

  /** `generate_for_single`: the item key of line 59, then the pipeline. */
  method GenerateForSingle(fs: FileSystem, cfg: Config, listingId: Option<string>, productId: Option<string>,
                           title: string, description: string, imageUrls: seq<string>, tools: Tools)
    returns (r: Result<GenerationResult>)
    modifies fs
    ensures var base := ItemKey(listingId, productId, title);
      var dl := tools.download(imageUrls, Workdir(tools.cacheDir(base)));
      var afterDl := old(fs.files) + dl.written;
      && (ImageCheck(afterDl, dl.paths).Some? ==> r == Err(ImageCheck(afterDl, dl.paths).value) && fs.files == afterDl)
      && (ImageCheck(afterDl, dl.paths).None? && tools.transcript(title, description).Err? ==>
            r == Err(tools.transcript(title, description).error))
      && (ImageCheck(afterDl, dl.paths).None? && tools.transcript(title, description).Ok?
          && Strip(tools.transcript(title, description).value) == "" ==>
            r == Err(GenerationError(TranscriptFailed)))
    ensures AssemblyTies(old(fs.files), cfg, ItemKey(listingId, productId, title), title, description, imageUrls, tools, r)
    ensures r.Ok? ==>
      var base := ItemKey(listingId, productId, title);
      var workdir := Workdir(tools.cacheDir(base));
      && r.value == Finals(cfg.outputBaseFolder, base)
      && tools.transcript(title, description).Ok?
      && r.value.titleFile in fs.files && r.value.blogFile in fs.files
      && r.value.videoPath in fs.files && VideoPath(workdir, base) in fs.files
      && fs.files[r.value.titleFile] == tools.utf8(title)
      && fs.files[r.value.blogFile] == tools.utf8(Strip(tools.transcript(title, description).value))
      && fs.files[r.value.videoPath] == fs.files[VideoPath(workdir, base)]
  {
    var base := ItemKey(listingId, productId, title);
    r := GenerateForKey(fs, cfg, base, title, description, imageUrls, tools);
  }
}
