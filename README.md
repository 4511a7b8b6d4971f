# EComListing-AI content pipeline, modelled in Dafny

EComListing-AI turns a product listing into a narrated slide video, a blog text and a title file. It takes a title, a description and product images, either one item at a time or a CSV table of items with an optional images-JSON side table. Outputs are cached on local disk and published to Google Drive.

This project models the logic of that pipeline and proves what it promises. Every service the code reaches becomes a parameter: OpenAI, gTTS, moviepy, PIL, HTTP, Drive's client library, the clock and the memory probe.

One Dafny module per concern:

| module | file | what it models |
|---|---|---|
| `Common` | common.dfy | `Option`, `Result`, `Outcome` and the Python exception kinds that reach the modelled paths |
| `Text` | text.dfy | the Python string built-ins the code uses: `split()`, `split(sep)`, `join`, `strip`, ASCII `lower`, `isdigit`/`int`, `str(n)` |
| `Paths` | paths.dfy | POSIX `os.path.join` and `os.path.basename` |
| `SlidePlanner` | slides.dfy | `split_text_into_slides`, as a loop over the word list with a ghost line structure |
| `Slug` | slug.dfy | `slugify` and the item key `lid_pid`-or-slug |
| `ImagesJson` | images_json.dfy | the images-JSON schema and `validate_images_json` |
| `DriveDb` | drive_db.dfy | the `_with_retries` decorator, the service handle, the `list_files` query, the `upload_file` upsert, `find_or_create_folder`, over a `DriveStore` class |
| `Utils` | utils.dfy | `download_images`, `load_fonts_from_drive`, `load_logo_from_drive`, `upload_output_files_to_drive`, `retrieve_and_stream_output_files` |
| `Backend` | backend.dfy | backend `generate_video`: preparation, image cycling (in place, on an `ImageList` class), frame layout, the per-slide loop, outputs |
| `Legacy` | legacy.dfy | `generate_for_single` and `_assemble_video` of the older top-level pipeline, over a `FileSystem` class |
| `Cache` | cache.dfy | `generate_video_cached` of main.py and the frontend's twin `generate_video` |
| `Batch` | batch.dfy | URL extraction from a CSV row, the row key and JSON lookup, and the three batch row loops (frontend/app.py, main.py, app.py) |
| `Session` | session.dfy | `full_reset_session_state`, `detect_and_reset_on_input_change` and `handle_inactivity`, over a `SessionState` class |

## Where the design and the code disagree

The design describes a batch driver that isolates per-item failures and stops after three consecutive failures. The code does not do that, and the model follows the code:

- **frontend/app.py** never binds `consecutive_failures` before its first success, so the first `GenerationError` raises `NameError` and the batch ends (see Findings).
- **frontend/app.py** calls its own `generate_video(cfg, title, …)` (line 133) without `cfg`, both in the batch and in single mode (lines 266-273), so every call raises `TypeError`. In the batch, the surrounding `except Exception` turns that into the end of the batch. In single mode, `except GenerationError` at line 280 does not catch it, so the run stops there.
- **`monitor_memory`** raises `MemoryError` rather than returning a flag. The `if monitor_memory(): … st.stop()` branch is therefore unreachable, and high memory ends the batch through the same `except`.
- **main.py and app.py** have no failure cap at all.
- **frontend/app.py's uploads:** `upload_results` (frontend/app.py:181-186) calls shared/utils.py's `upload_output_files_to_drive(file_map, parent_folder, base_name)` with `subdir=` and `parent_id=`. Every upload therefore raises `TypeError`. In the batch, the `except Exception` at line 404 ends the run at the first cache miss (see Findings). In single mode, line 279 is reached only once the `generate_video` call at line 266 is fixed; the upload there then raises `TypeError`, which `except GenerationError` does not catch.
- **frontend/app.py's imports:** line 21 asks shared/utils.py for `preload_fonts_from_drive`, `preload_logo_from_drive` and `clear_all_caches`. shared/utils.py defines none of them, so as written the module fails at import with `ImportError`. The model takes the loop as it would run once the imports resolve.
- **main.py's and app.py's imports:** both import from the top-level `utils` (main.py:19-22, app.py:15) and the top-level `video_generation_service` (main.py:23, app.py:16). The top-level `utils` is not part of this model. The top-level video_generation_service.py defines no `generate_video`, so as written both scripts fail at import. Both pass `subdir=` and `parent_id=` to `upload_output_files_to_drive` (main.py:135, app.py:84). If the top-level function has shared/utils.py's signature, every upload raises `TypeError` and the first upload ends the batch. That is what `Batch.MainUploadWiringAborts` and `Batch.AppUploadWiringAborts` state. With an unknown signature, this is not claimed as a defect. `Batch.MainNoBreaker` and `Batch.AppNoBreaker` state the run when uploads complete.
- **The frontend's inactivity timeout** is `5 * 60` seconds, although its comment says 20 minutes. The model uses five minutes.

## Model

| member | source | states |
|---|---|---|
| SlidePlanner.SplitTextIntoSlides | backend/video_generation_service.py:189-209 | splitting every slide on whitespace gives back `text.split()`; no slides exactly when the text has no words; every slide has 1 to `max_lines` lines and all but the last exactly `max_lines`; every word after the first on a line passed the width test when it was added; every line before the last, across slide boundaries too, was closed because its next word failed that test; the first line is empty exactly when the first word alone overflows, and no other line is empty; every other line is its words joined by single spaces; the lines' words form a greedy wrapping of `text.split()` |
| SlidePlanner.RenderedPlanProperties | backend/video_generation_service.py:200-208 | a ghost plan of word lines that covers the text, is capped and width-bounded renders to slides with all the promised properties |
| SlidePlanner.FitState | backend/video_generation_service.py:196-198 | a word that fits joins the open line and the loop invariant, greedy closing included, is kept |
| SlidePlanner.OverflowState | backend/video_generation_service.py:199-204 | a word that overflows closes the open line, flushes the slide when it then holds `max_lines` lines, and keeps the loop invariant either way |
| SlidePlanner.FitFitted | backend/video_generation_service.py:196-198 | a line grown only by words that passed the width test stays grown within the width |
| SlidePlanner.GreedyFit | backend/video_generation_service.py:196-198 | adding a word that fits keeps every closed line closed on a word that did not fit |
| SlidePlanner.GreedyClose | backend/video_generation_service.py:199-201 | closing a line on an overflowing word keeps the lines greedy, and the first line stays empty exactly when the first word overflowed |
| SlidePlanner.FinalGreedy | backend/video_generation_service.py:205-209 | after the final flush every line but the last of the plan was closed on an overflowing word |
| SlidePlanner.GreedyRendered | backend/video_generation_service.py:200-208 | greedy closing of the plan's lines holds of the rendered slides' lines |
| SlidePlanner.WrapRendered | backend/video_generation_service.py:200-208 | the rendered slides' lines split into words form a greedy wrapping of the text's words |
| SlidePlanner.FittedLine | backend/video_generation_service.py:197 | a line of two or more words grown within the width, plus a space, is within the width |
| SlidePlanner.LinesWithinWidth | backend/video_generation_service.py:197-201 | every planned line of two or more words, plus a space, is within the width |
| SlidePlanner.FirstLineLongest | backend/video_generation_service.py:196-201 | of two wrappings of the same words, the greedy one's first line is at least as long as any first line that fits |
| SlidePlanner.NonEmptyWrapUnique | backend/video_generation_service.py:196-201 | two greedy wrappings of the same words into non-empty fitted lines are equal |
| SlidePlanner.WrapUnique | backend/video_generation_service.py:189-209 | the greedy wrapping of a text's words is unique, so the planner's line breaks and the words on each line are determined by the text, the width function and the bound |
| SlidePlanner.CloseLine | backend/video_generation_service.py:199-202 | a word that overflows closes the stripped open line and starts a new one, keeping the lines greedy; the slide is full exactly when it now holds `max_lines` lines |
| SlidePlanner.CloseSlide | backend/video_generation_service.py:202-204 | a full slide is joined with newlines, appended, and the invariant, greedy closing included, holds with an empty open slide |
| SlidePlanner.FinalState | backend/video_generation_service.py:205-209 | flushing the last line and the last slide after the loop yields a result with every promised property, greedy filling and the greedy wrapping of the words included |
| SlidePlanner.FinalPlan | backend/video_generation_service.py:205-209 | the flushed result is the rendering of a plan that covers all words, is capped, width-bounded and has empty lines only where allowed |
| SlidePlanner.ClosedLineText | backend/video_generation_service.py:200 | the stripped text of a closed line is its words joined by single spaces |
| SlidePlanner.OverflowBounded | backend/video_generation_service.py:197-201 | closing a line on overflow keeps every line grown within the width and the first-line-only rule for empty lines |
| SlidePlanner.Cap | backend/video_generation_service.py:202 | the lines per full slide are `max_lines` when it is at least 1, and 1 otherwise, since the flush test then fires after every line |
| Slug.SlugifyIsSlug | shared/utils.py:101-103 | the slug holds only `[a-z0-9_]`, has no leading or trailing `_` and no `__` |
| Slug.SlugifyKeepsAlnums | shared/utils.py:101-103 | the ASCII letters and digits of the input survive, lowered and in order |
| Slug.SlugifyEmpty | shared/utils.py:101-103 | the slug is empty exactly when the input has no ASCII letter or digit |
| Slug.SlugifyIdempotent | shared/utils.py:101-103 | slugifying a slug changes nothing |
| Slug.SlugFixed | shared/utils.py:101-103 | every string with the slug shape is its own slug |
| Slug.SlugifyTwoWords | shared/utils.py:101-103 | two words with separator runs between and after them (as in `"Wireless Mouse!!"`) give the two words lowered and joined by `_` |
| Slug.SlugifyPunctuationOnly | shared/utils.py:101-103 | `"!!!"` gives `""` |
| Slug.CollapseShape | shared/utils.py:102 | the substitution leaves only letters, digits and single underscores, and keeps a leading letter or digit in front |
| Slug.CollapseKeepsAlnums | shared/utils.py:102 | the substitution keeps every letter and digit in order |
| Slug.CollapseSeparatorPrefix | shared/utils.py:102 | a run of separators up to the next letter or digit becomes exactly one `_` |
| Slug.StripShape | shared/utils.py:103 | `strip('_')` keeps a collapsed string collapsed and leaves no `_` at either end |
| Slug.CollapseSlug | shared/utils.py:102 | the substitution leaves a collapsed string without a trailing `_` as it is |
| Slug.ItemKeyCases | backend/video_generation_service.py:61 | when both ids are truthy and differ the key is `lid_pid`, starting with the listing id and ending with `_pid`; otherwise it is the title's slug, which has the slug shape |
| ImagesJson.ValidateImagesJson | shared/utils.py:87-98 | a non-list is rejected as such; valid exactly when every entry meets the schema; otherwise the first rejected entry is reported, by ids or by 1-based position |
| ImagesJson.IdentOfCases | shared/utils.py:95-97 | the message cites the ids exactly when both are present and truthy, and the 1-based position otherwise |
| ImagesJson.ExtraPropertyAllowed | shared/utils.py:78-83 | adding a property the schema does not name keeps an entry valid |
| ImagesJson.ValidEntryShape | shared/utils.py:59-85 | a valid entry has numeric ids and a first image object whose `imageURL` is a string URI |
| ImagesJson.RejectedEntries | shared/utils.py:65-80 | boolean or string ids and an empty `images` list are rejected |
| Utils.DownloadImages | shared/utils.py:15-30 | the loop returns the bodies of the successful downloads, or raises `RuntimeError` when none succeeded |
| Utils.FetchedFrom | shared/utils.py:20-25 | every image kept is the body of one of the URLs, and there are at most as many as URLs |
| Utils.FetchedAppend | shared/utils.py:21-27 | failed downloads are dropped and the rest are kept in URL order |
| Utils.FetchedEmpty | shared/utils.py:28-29 | nothing is kept exactly when every download failed, including the empty URL list |
| Utils.FirstZip | shared/utils.py:35 | the archive is the first file whose lowered name ends in `.zip`, and there is none exactly when no name does |
| Utils.TtfFontsNames | shared/utils.py:40-45 | every key of the returned font map is a `.ttf` name |
| Utils.TtfFontsKeys | shared/utils.py:40-45 | the fonts are keyed by exactly the archive's `.ttf` member names |
| Utils.TtfFontsLast | shared/utils.py:40-45 | a font's bytes come from the last member of that name |
| Utils.LoadFontsFromDrive | shared/utils.py:33-49 | only `.ttf` names are returned; a listing failure propagates; no archive raises "No font ZIP found"; every later failure is a `RuntimeError` |
| Utils.LoadLogoFirstImage | shared/utils.py:51-56 | the logo is the content of the first listed image in the folder; with none it raises "No logo image found"; none exactly when the folder holds no untrashed image |
| Utils.UploadedAllFinds | shared/utils.py:112-118 | after the uploads, every output whose upload did not fail is found by name in the folder with its content, even when other uploads failed |
| Utils.UploadOutputFilesToDrive | shared/utils.py:106-118 | the folder is found or created under the parent; a failure there propagates and leaves Drive as the folder step left it; otherwise every file is uploaded in order |
| Utils.StreamFileIsContent | shared/utils.py:177-196 | a stream succeeds exactly when the service is up, the id names a stored file and the transfer holds; it then carries that file's content, and any failure is a `RuntimeError` |
| Utils.StreamedFromStore | shared/utils.py:158-175 | every video stream is the stored content of a listed video file, every blog stream that of a listed text or document file |
| Utils.RetrievedFromStore | shared/utils.py:142-175 | every stream a retrieval returns is the stored content of a file listed in the found output folder, of the matching kind |
| Utils.StreamAll | shared/utils.py:158-175 | the loop streams the listed files and sorts them into the classification's two lists |
| Utils.StreamedOne | shared/utils.py:158-174 | a file goes to `video` when its type contains "video", to `blog` when it contains only "text" or "document", and nowhere otherwise or when its stream fails |
| Utils.StreamedAppend | shared/utils.py:158-175 | the classification keeps file order within each list |
| Utils.StreamedBound | shared/utils.py:158-175 | at most one stream per file |
| Utils.RetrievedCases | shared/utils.py:142-175 | a missing output folder raises `RuntimeError` naming it; a result comes only from files listed in the found folder |
| Utils.RetrieveAndStreamOutputFiles | shared/utils.py:142-175 | the retrieval reads the store and returns the classified streams of the folder |
| DriveDb.WithRetries | shared/drive_db.py:28-46 | the decorator's loop produces the outcome, call count and sleeps of the retry specification |
| DriveDb.RetryCallsBounded | shared/drive_db.py:33 | the wrapped function runs at most `retries` times (never when `retries <= 0`), at least once otherwise, with at most one sleep per run |
| DriveDb.RetryFirstDecisive | shared/drive_db.py:33-38 | the first attempt that succeeds or raises a non-retryable `HttpError` decides: returned or re-raised as is, after exactly that many calls and one sleep per earlier attempt |
| DriveDb.RetryExhausted | shared/drive_db.py:39-44 | when every attempt fails transiently, `DriveDBError` names the function, the retry count and the last exception, after a sleep of `delay·2^(k-1) + jitter` following every attempt, the last included |
| DriveDb.BackoffBounds | shared/drive_db.py:42 | each sleep lies between `delay·2^(k-1)` and that plus 500 ms, and doubles from one attempt to the next |
| DriveDb.UninitializedCallExhausts | shared/drive_db.py:56-59 | a decorated call before `set_drive_service` is retried `retries` times and ends in `DriveDBError` |
| DriveDb.GetService | shared/drive_db.py:56-59 | the handle is returned exactly when one was set, and `DriveDBError` is raised otherwise |
| DriveDb.ListFilesQueryParent | shared/drive_db.py:68-69 | the query names the parent, or `None`, between its first two quotes |
| DriveDb.ListFilesQueryFilter | shared/drive_db.py:69-71 | with a truthy filter the query ends with its mimeType clause; otherwise it ends with the untrashed-in-parent clause |
| DriveDb.ListedFilesComplete | shared/drive_db.py:65-73 | every untrashed file in the parent that matches the filter is listed |
| DriveDb.ListedFiles | shared/drive_db.py:65-73 | every listed file is an untrashed file of the store in that parent whose type contains the filter, and there are no more of them than files |
| DriveDb.FirstMatch | shared/drive_db.py:95-121 | the query's first hit is a matching file with no match before it, and there is none exactly when no file matches |
| DriveDb.FirstMatchUnique | shared/drive_db.py:95-121 | a matching file with no match before it is the first hit |
| DriveDb.FileWithId | shared/drive_db.py:75-86 | the file found for an id has that id, and none is found exactly when no file has it |
| DriveDb.DownloadFile | shared/drive_db.py:75-86 | downloaded bytes are the content of a file with that id; an unknown id is an `HttpError` 404 |
| DriveDb.FindFolder | shared/drive_db.py:109-121 | it succeeds exactly with a service; a returned id is an untrashed folder of that name in the parent; `None` means there is no such folder |
| DriveDb.UpsertedFinds | shared/drive_db.py:95-107 | after an upload the name finds the new content; an update keeps the file's id and every other file and adds none; otherwise exactly one file is appended |
| DriveDb.UpsertedKeepsOthers | shared/drive_db.py:95-107 | an upload under one name does not change what another name finds |
| DriveDb.FolderChoice | shared/drive_db.py:138-141 | a `DriveDBError` from the lookup becomes "not found"; any other error propagates |
| DriveDb.FindOrCreateFolderSpec | shared/drive_db.py:136-142 | the id returned names an untrashed folder of that name in the parent; at most that folder is added; none is added when a non-empty id was found; a failure changes nothing |
| DriveDb.CreateFolderFound | shared/drive_db.py:123-134 | a folder created where none existed is found by the next lookup |
| DriveDb.DriveStore.SetDriveService | shared/drive_db.py:51-54 | the service handle is replaced and the files are unchanged |
| DriveDb.DriveStore.CreateFolder | shared/drive_db.py:123-134 | the store moves to the state of the folder-creation specification |
| DriveDb.DriveStore.UploadFile | shared/drive_db.py:88-107 | the store moves to the upsert specification's state |
| DriveDb.DriveStore.FindOrCreateFolder | shared/drive_db.py:136-142 | the store moves to the find-or-create specification's state |
| Backend.SelectImages | backend/video_generation_service.py:77-82 | for either reading of line 80: supplied image files win; a successful selection is never empty; with the intended line it holds image bodies |
| Backend.PrepareInputsCases | backend/video_generation_service.py:77-90 | for either reading of line 80: supplied images win over URLs; with neither, "No image input provided."; with every download failing, the `RuntimeError`; a transcript blank once stripped stops with "❌ Generation failed." before any slide work; success carries at least one image and the stripped transcript |
| Backend.PrepareInputs | backend/video_generation_service.py:77-90 | prepared inputs keep the item key, hold at least one image (the supplied files when given) and carry the generated transcript stripped, which holds at least one word |
| Backend.AllDownloadsFail | backend/video_generation_service.py:79-80 | URL input whose every download fails ends in the `RuntimeError` of `download_images` |
| Backend.Prepare | backend/video_generation_service.py:61-90 | a prepared item is keyed by the item key, has at least one image (the supplied files when given) and a transcript with at least one word |
| Backend.PrepareAsWritten | backend/video_generation_service.py:77-99 | as written, without image files the preparation always fails |
| Backend.LoadAssetsCases | backend/video_generation_service.py:66-73 | a font failure propagates; with fonts and logo loaded the assets pass exactly when both Poppins files are present; passing needs a Drive service |
| Backend.UnpackPairs | backend/video_generation_service.py:80 | as written, unpacking succeeds exactly when every image is two bytes long, then yields each image's second byte; otherwise it raises `ValueError` |
| Backend.UrlsAsWritten | backend/video_generation_service.py:77-99 | as written, URL input without image files never yields prepared inputs: a kept body that is not two bytes raises `ValueError`, and two-byte bodies become ints that fail with `TypeError` at the first slide |
| Backend.PrepareUrlsAsWritten | backend/video_generation_service.py:61-85 | as written, with fonts and logo loaded, no image files and a downloaded body that is not two bytes, `generate_video` raises `ValueError` |
| Backend.SelectImagesFromUrls | backend/video_generation_service.py:79-80 | with the corrected line, URL input succeeds exactly when some download succeeds, and yields the downloaded bodies |
| Backend.CycledCovers | backend/video_generation_service.py:93-94 | after cycling there is an image for every slide, entry `i` is original `i mod n`, and a long-enough list is unchanged |
| Backend.ImageList.CycleFor | backend/video_generation_service.py:93-94 | the list object is extended in place to the cycled list |
| Backend.GenerateVideo | backend/video_generation_service.py:52-165 | a preparation failure is returned unchanged and leaves Drive alone; after preparation the transcript is split into at least one slide with every property of the planner; the call succeeds exactly when gTTS narrates every slide and the output folder is found or created; a gTTS failure gives "⚠️ Failed to generate audio: " and leaves Drive alone; a folder failure propagates; on success the three outputs are uploaded to the item's folder and the result names them; a caller's `image_files` list is left cycled in place for the slide count; with line 80 as written and no image files, no video is produced and Drive is left alone |
| Backend.Produce | backend/video_generation_service.py:92-165 | the transcript is split into at least one slide with every property of the planner; the image list is cycled for that slide count; the call succeeds exactly when gTTS narrates every slide and the folder is found or created; a gTTS failure gives "⚠️ Failed to generate audio: " with Drive untouched; a folder failure propagates; success uploads the video, blog and title to the item's folder and names them after the key |
| Backend.TextBlockCentred | backend/video_generation_service.py:114 | the text block is vertically centred to within one pixel |
| Backend.LineOffsets | backend/video_generation_service.py:113-117 | the first line sits at the block top, each next one `h + 10` lower, ending at the block bottom |
| Backend.LineHeights | backend/video_generation_service.py:113-117 | one measured height per slide line, in line order |
| Backend.ImageInsideCanvas | backend/video_generation_service.py:100-120 | a thumbnail within 640×360 lies inside the 1280×720 canvas, 50 px from the right edge, vertically centred to one pixel |
| Backend.AudioPathsDistinct | backend/video_generation_service.py:125 | different slides get different narration files |
| Backend.RenderSlide | backend/video_generation_service.py:98-131 | a frame and narration come back exactly when gTTS succeeds, paired: same slide, image, layout and duration, with the audio named for slide `i + 1` |
| Backend.RenderSlides | backend/video_generation_service.py:96-131 | one paired frame and narration per slide in slide order, exactly when every narration succeeds; otherwise the gTTS `GenerationError` |
| Backend.ClipsInSync | backend/video_generation_service.py:129-135 | the concatenated frames last exactly as long as the concatenated narration |
| Backend.OutputNames | backend/video_generation_service.py:137-156 | the three output names differ, so `file_map` keeps three entries; only the video is uploaded as `video/mp4` |
| Backend.OutputsUploaded | backend/video_generation_service.py:152-158 | each output whose upload did not fail is in the item's folder with its content |
| Legacy.ImageCheckOrder | video_generation_service.py:69-77 | every existence check runs before any size check; nothing is raised exactly when some path exists and every path names a non-empty file |
| Legacy.CheckImages | video_generation_service.py:70-77 | the two loops raise the error of the image-check specification |
| Legacy.FirstMissing | video_generation_service.py:72-74 | the first missing path is reported, with every earlier path existing |
| Legacy.FirstEmpty | video_generation_service.py:75-77 | the first empty file is reported, with every earlier file non-empty |
| Legacy.LogoFor | video_generation_service.py:80-89 | the logo exists only for a configured path that names a file and decodes; anything else leaves it out without an error |
| Legacy.LoadLogo | video_generation_service.py:80-89 | the logo step never raises; a decoded logo is also saved as `resized_logo.png` |
| Legacy.Narrate | video_generation_service.py:163-172 | a gTTS failure is "Voiceover generation failed" with no file written; otherwise the file is written and accepted exactly when it holds at least 1024 bytes |
| Legacy.AssemblyCheck | video_generation_service.py:175-180 | assembly proceeds exactly when there is some image and every image exists |
| Legacy.CheckAssemblyImages | video_generation_service.py:175-180 | the loop raises the error of the assembly check |
| Legacy.Contents | video_generation_service.py:186-191 | one content per path, each the content of that path |
| Legacy.ResizedNamesDistinct | video_generation_service.py:189 | different indices give different resized files |
| Legacy.ResizedContent | video_generation_service.py:186-191 | resized file `i` holds input `i` resized to the first image's size |
| Legacy.ResizedUntouched | video_generation_service.py:186-191 | resizing leaves every other file unchanged |
| Legacy.ResizeAll | video_generation_service.py:183-191 | the loop returns `resized_0…` in input order and writes exactly the resized files |
| Legacy.ResizedNames | video_generation_service.py:189-191 | one `resized_i.jpg` name per image, in order |
| Legacy.TitleCentred | video_generation_service.py:207-211 | the title is centred on the strip to within one pixel both ways, and lies inside the strip whenever it fits |
| Legacy.ComposeOutcome | video_generation_service.py:183-234 | a composition ends in `basename.mp4` in the work directory or in one of three errors: the missing bold font, the failed title overlay, the failed rendering; a font present beforehand is never reported missing, and a failed overlay always stops it |
| Legacy.ResizedAddsOnlyOutputs | video_generation_service.py:186-191 | resizing adds no file other than the `resized_{idx}.jpg` outputs |
| Legacy.ComposeFontMissing | video_generation_service.py:183-198 | a bold font that is neither present nor a resized output stops the composition with "Font not found" |
| Legacy.Compose | video_generation_service.py:183-234 | the outcome is `ComposeOutcome` of the files it starts from; every resized file is written and no file is lost; a rendered video is `basename.mp4` in the work directory, reached only when the bold font exists |
| Legacy.AssembleVideo | video_generation_service.py:152-245 | the narration checks come first, then the image checks, each with its own error and file state; with both passed, the outcome is the composition's; success implies narration of at least 1024 bytes, the font, every resized file and the video |
| Legacy.CopyFile | video_generation_service.py:125-127 | a copy gives the destination the source's content; a missing source raises `FileNotFoundError` and a copy onto itself `SameFileError`, changing nothing |
| Legacy.FinalsDistinct | video_generation_service.py:109-123 | the three published files differ from each other and from the work files still to be copied |
| Legacy.WorkFilesDistinct | video_generation_service.py:109-110 | the video, blog and title files of the work directory differ |
| Legacy.SuffixesDiffer | video_generation_service.py:109-110 | the endings `.mp4`, `_blog.txt` and `_title.txt` tell the three names apart |
| Legacy.FinalKeepsName | video_generation_service.py:121-123 | each copy goes to `output_base_folder/base` under its own file name |
| Legacy.FinalsAreCopies | video_generation_service.py:118-129 | the published result is the three copies, in `GenerationResult` field order (video, title, blog) |
| Legacy.PublishPathsDistinct | video_generation_service.py:109-127 | no write or copy of the publish step clobbers a file still to be copied |
| Legacy.Publish | video_generation_service.py:108-129 | the published title and blog hold the title and transcript, and the published video is the rendered video; publishing succeeds exactly when no copy lands on its own source, the same-file copy being its only error |
| Legacy.GenerateForKey | video_generation_service.py:62-129 | download checks, then the transcript, each with its error; with both passed, a gTTS failure is "Voiceover generation failed", narration under 1024 bytes is the corrupted-audio error, a failed composition returns its font, overlay or rendering error, and a composed video is published exactly when no copy lands on its own source; a success publishes the title, the stripped transcript and the rendered video under `output_base_folder/base` |
| Legacy.GenerateForSingle | video_generation_service.py:51-129 | the same, for the item key derived from the ids and title |
| Cache.MissingPathsExact | main.py:109-110 | the missing list names exactly the paths that do not exist, and is empty exactly on a hit |
| Cache.MissingPaths | main.py:109-110 | the missing list is no longer than the three paths checked |
| Cache.AllExistPresent | main.py:100-110 | the list check and the three-way existence test agree |
| Cache.ArtifactsDistinct | main.py:95-98 | the three cached paths are different files for any folder and slug |
| Cache.ArtifactsNamed | main.py:95-98 | each cached file is named after the slug |
| Cache.CacheHitExactlyWhenPresent | main.py:100-107 | a hit happens exactly when all three files exist, and answers their paths |
| Cache.CacheHitSkipsGeneration | main.py:100-107 | a hit does not depend on what generation would do |
| Cache.CacheMissDelegates | main.py:109-120 | on a miss the delegate's result comes back flagged not cached, and what it raises propagates |
| Cache.FrontendCacheHitRaises | frontend/app.py:139-142 | as written, a frontend cache hit raises `UnboundLocalError`, which is not a `GenerationError` |
| Cache.FrontendMissMatchesMain | frontend/app.py:144-170 | on a miss the frontend behaves as main.py's check with the backend reply in the delegate's place, and never reports a hit |
| Batch.FirstImageIndex | frontend/app.py:190 | the first column whose lowered name contains "image" and "url", and none exactly when no column qualifies |
| Batch.ColMapImageColumn | frontend/app.py:189-192 | the column chosen through the lowered-name map qualifies, and there is none exactly when no column qualifies |
| Batch.LastSameLower | frontend/app.py:189-190 | the lowered-name map keeps the last column with a given lowered name |
| Batch.AppImageColumn | app.py:238 | app.py's column qualifies, and there is none exactly when no column qualifies |
| Batch.CaseVariantHeaders | frontend/app.py:189-190 | of two headers differing only in case, the frontend and main.py read the second, app.py the first |
| Batch.SplitUrls | frontend/app.py:194 | the cell splits into at least one piece, and no piece holds `,`, `\n` or `;` |
| Batch.SingleSplit | frontend/app.py:194 | a cell without separators splits into itself |
| Batch.ExtractImageUrlsFromRow | frontend/app.py:188-195 | with no qualifying column there are no URLs |
| Batch.ExtractedAreImageUrls | frontend/app.py:195 | every extracted URL matches the image pattern and carries no surrounding whitespace |
| Batch.KeepImageUrlsExact | frontend/app.py:195 | the filter keeps exactly the stripped matching pieces |
| Batch.KeepImageUrls | frontend/app.py:195 | the filter keeps at most one URL per piece |
| Batch.StripKeepsMatch | frontend/app.py:195 | a piece the filter keeps still matches once stripped |
| Batch.OneUrlCell | main.py:139-146 | a cell holding one URL and no separator yields that URL, stripped |
| Batch.TrailingSpaceDropsUrl | frontend/app.py:195 | the test runs before `strip`: a URL with trailing whitespace and no `?` is dropped, the same URL without it kept |
| Batch.AppFilterRejectsPlainUrls | app.py:254 | as written, app.py's double-escaped pattern keeps no piece without a backslash |
| Batch.AppCsvUrls | app.py:252-254 | with the intended pattern, every URL kept matches and is stripped |
| Batch.PlainImageUrlKept | app.py:254 | a plain `name.jpg` is kept by the intended filter and dropped as written |
| Batch.KeyIgnoresLeadingZeros | frontend/app.py:362 | digit-string ids are compared as integers, so `"007"` and `"7"` name the same item |
| Batch.TextKeyNeverMatches | frontend/app.py:362-369 | a row whose ids are not both digit strings never finds its JSON entry |
| Batch.JsonUrlsFirstMatch | frontend/app.py:365-369 | the first entry equal to the key supplies the URLs, whatever follows |
| Batch.JsonUrlsNoMatch | frontend/app.py:365-371 | with no matching entry the row gets no URLs, with no CSV fallback |
| Batch.EntryUrls | frontend/app.py:368 | one URL per image of the matching entry |
| Batch.LookupUrls | main.py:252-256 | the lookup loop with its `break` returns the URLs of the first matching entry |
| Batch.JsonTakesPrecedence | app.py:247-254 | with a JSON table the CSV cells and columns play no part, and all three front ends get the same URLs |
| Batch.FrontendRow | frontend/app.py:354-403 | one pass of the loop body is one step of the loop specification |
| Batch.RunFrontendBatch | frontend/app.py:351-406 | the loop's report is the loop specification's report from the given counter |
| Batch.FrontendSkips | frontend/app.py:373-378 | a row without URLs, title or description adds its skip and leaves the counter alone |
| Batch.FrontendUploadsExactlyMisses | frontend/app.py:399-400 | results are uploaded exactly for rows generated without a cache hit, in row order |
| Batch.BreakerTrips | frontend/app.py:352-395 | with the counter bound, when every generation fails the loop breaks exactly when `c` plus the eligible rows reaches 3, after `3 - c` failures; nothing is produced or uploaded |
| Batch.BreakerStreak | frontend/app.py:389-395 | the breaker counts failures since the last success: a trip comes right after a failure that brought the streak to 3; a finished run ends below 3 |
| Batch.FrontendFirstFailureAborts | frontend/app.py:389-406 | as written, with every generation failing, the first eligible row raises `NameError` and aborts the batch after one failure |
| Batch.FrontendOtherErrorAborts | frontend/app.py:380-406 | an error other than `GenerationError` from generation (the missing `cfg` makes it `TypeError`) aborts at the first eligible row |
| Batch.MainRow | main.py:245-279 | one pass of the loop body is one step of the loop specification |
| Batch.RunMainBatch | main.py:243-283 | the loop's report is the loop specification's report |
| Batch.MainUploadsExactlyMisses | main.py:274-275 | results are uploaded exactly on cache misses, in row order |
| Batch.MainNoBreaker | main.py:260-279 | with only `GenerationError` raised, even if every row fails, the loop reaches the end with one event per row |
| Batch.MainUploadWiringAborts | main.py:274-283 | when every upload raises (which the keyword call of main.py:135 does if the top-level `utils` has shared/utils.py's signature), at most one upload is attempted, and when one is, the batch aborts right after that row's production |
| Batch.AppRow | app.py:242-279 | one pass of the loop body, with the CSV filter as written or as intended, is one step of the loop specification |
| Batch.RunAppBatch | app.py:241-279 | the loop's report is the loop specification's report, for either CSV filter |
| Batch.AppPlainCsvSkipsAll | app.py:247-261 | as written, over a CSV without JSON data whose image cells hold no backslash, every row is skipped for lack of URLs: nothing is generated or uploaded and the loop runs to the end |
| Batch.AppUploadWiringAborts | app.py:263-279 | when every upload raises (app.py:84 makes main.py's keyword call), at most one upload is attempted, and when one is, the batch aborts right after that row's production |
| Batch.FrontendUploadWiringAborts | frontend/app.py:351-406 | as written every upload raises `TypeError`, which the batch's `except Exception` turns into the end of the run: at most one upload, and the run aborts right after that row's production, whatever the counter |
| Batch.FrontendUploadsComplete | frontend/app.py:351-406 | with uploads completing, only `GenerationError` from generation and no memory pressure, the batch aborts only by the unbound counter's `NameError`, and with the counter bound it ends by finishing or by the breaker |
| Batch.AppUploadsEverySuccess | app.py:263-279 | every generated row is uploaded, in row order, and nothing is served from a cache |
| Batch.AppNoBreaker | app.py:256-279 | with only `GenerationError` raised and uploads completing, the loop reaches the end with one event per row |
| Session.SortStringsCorrect | frontend/app.py:69 | `sorted` returns its input, as a multiset, in order |
| Session.InsertSorted | frontend/app.py:69 | inserting into a sorted list keeps it sorted |
| Session.InsertPermutes | frontend/app.py:69 | inserting adds exactly the element to the list's multiset |
| Session.LexTotal | frontend/app.py:69 | any two strings are ordered one way or the other by Python's string order |
| Session.LexAntisymmetric | frontend/app.py:69 | strings ordered both ways are equal |
| Session.LexTransitive | frontend/app.py:69 | Python's string order is transitive |
| Session.SortedUnique | frontend/app.py:69 | two sorted lists with the same elements are the same list |
| Session.CombinedOrderInsensitive | frontend/app.py:69 | the hashed text depends only on the multiset of inputs |
| Session.DetectOrderInsensitive | frontend/app.py:68-75 | reordering the inputs never changes the session the detection leaves |
| Session.DetectOutcome | frontend/app.py:68-75 | afterwards the context's key holds the new hash; an unchanged hash leaves the session alone; a changed one drops every listed key and keeps every other key |
| Session.DetectIdempotent | frontend/app.py:68-75 | a second call with the same inputs in any order changes nothing |
| Session.ResetForgetsOtherContext | frontend/app.py:57-74 | a reset for one page forgets the other page's stored hash |
| Session.RegroupingUndetected | frontend/app.py:69 | joining without a separator makes title "ab" with description "c" hash like "a" with "bc" |
| Session.ResetKeepsPreserved | frontend/app.py:41-65 | no preserved key is listed, so every reset keeps them, the time stamp included |
| Session.SessionState.FullReset | app.py:24-34 | the listed keys are gone and every other key keeps its value |
| Session.SessionState.FullResetPreserving | frontend/app.py:40-65 | the guarded pops leave the same session as the unguarded reset |
| Session.SessionState.DetectAndReset | frontend/app.py:68-75 | the session moves to the state of the detect specification |
| Session.SessionState.HandleInactivity | frontend/app.py:79-94 | a non-numeric time stamp raises `TypeError`; idle over five minutes empties the session and stops; otherwise now is stored |
| Session.MainHandleInactivity | main.py:34-41 | idle over five minutes clears the session; the time stamp becomes now in every case |
| Text.NatToStringRoundTrip | backend/video_generation_service.py:125 | printed indices read back as the same number, so distinct indices print differently |
| Text.WordsOfLine | backend/video_generation_service.py:191-200 | words joined by spaces split back into the same words |
| Text.WordsOfJoin | backend/video_generation_service.py:203-208 | splitting a newline-joined slide gives the words of its lines in order |
| Text.StrippedHasWords | backend/video_generation_service.py:87-92 | a transcript that is not blank once stripped holds at least one word, so it is split into at least one slide |
| Text.StripLine | backend/video_generation_service.py:200-206 | stripping a line of words plus its trailing space gives the words joined by single spaces |
| Text.SplitOnJoin | backend/video_generation_service.py:203 | splitting a newline-joined slide on newlines gives back its lines |
| Paths.JoinedBasename | video_generation_service.py:121-123 | `basename(join(dir, name + sfx))` is `basename(name) + sfx` |
| Paths.BasenameOfName | video_generation_service.py:121-123 | a name without `/` is its own base name |
| Paths.BasenameAppend | video_generation_service.py:121-123 | a suffix without `/` stays on the base name |
| Paths.EndsWithSuffix | video_generation_service.py:109-110 | a path joined on `name + sfx` ends with `sfx` |
| Paths.DifferentEndings | video_generation_service.py:109-110 | paths ending differently are different paths |

## Left out

- **Presentation:** Streamlit and NiceGUI rendering, page reloads, radio choices and notifications are left out. The batch events (skips, failures, productions) are the model's record of what each loop did. main.py skips silently.
- **Services:**
  - The HTTP POST to the backend and the FastAPI endpoint of backend/main.py are not part of this model. The endpoint builds a `ServiceConfig` with fields the backend dataclass lacks.
  - OpenAI, gTTS, moviepy and PIL are parameters: the transcript, narration, render, image size, thumbnail size, text measurement and drawing.
  - Exceptions from PIL and moviepy calls outside any `try` are not modelled: those parameters are total. The call sites in backend/video_generation_service.py are the logo `Image.open(…).resize` at line 75, `Image.open` of a slide image at line 99, `canvas.save` at line 123, `AudioFileClip` at line 127, `ImageClip(…).set_duration` at line 129, the clip and audio concatenation and `set_audio` at lines 133-135, and `write_videofile` at line 145. In the legacy video_generation_service.py they are `AudioFileClip` at line 173, `Image.open` at lines 184 and 187, `ImageSequenceClip(…).set_audio` at line 193 and `CompositeVideoClip` at line 227. A corrupt image or logo, a slide or narration file that cannot be read back, or a failing encoder there, is not modelled.
  - Drive's client library is an abstract store of files in listing order. `list_files` at shared/drive_db.py:72 makes a single `files().list` call and does not follow `nextPageToken`, so against a large folder only the first page comes back; the model's listing returns every matching file. The `MediaIoBaseDownload` chunk loops are left out; a transfer that breaks off is modelled by the set `failing` of file ids whose stream fails.
- **Time, randomness, hashing, memory:**
  - Time is integer milliseconds, and the retry jitter is a parameter of at most 500 ms.
  - MD5 is an opaque function of the joined inputs.
  - `psutil` is a per-row boolean `memoryHigh`.
  - `gc`, `uuid`, `tempfile` and `shutil.rmtree` are left out.
- **Parsing and URI checks:**
  - Pandas CSV parsing is left out. A table holds column names after `strip` and cells as `str()` prints them.
  - JSON numbers are integers; floats are not modelled.
  - The schema's `"uri"` format check is a predicate parameter.
- **Unicode:** `isdigit`, `lower` and `isspace` are modelled on ASCII digits and letters and on the ASCII and common Unicode spaces. Non-ASCII digits are not modelled. Unicode decimal digits such as "١٢" pass `isdigit` and `int()` accepts them, so frontend/app.py:362, main.py:251 and app.py:244 make such ids integer keys where the model makes a `TextKey`; `Batch.TextKeyNeverMatches` therefore says nothing about them. Digits such as "²" pass `isdigit` but make `int()` raise, and that exception is not modelled either.
- **The top-level `utils` module** (its `download_images(urls, workdir)` and `get_persistent_cache_dir`) is not part of this model. Its results are parameters of the legacy pipeline.
- **The delegated `generate_video` of main.py and app.py** is a parameter. The top-level video_generation_service.py both import it from (main.py:23, app.py:16) defines no such function.
- **Batch.RunMainBatch:** the file system is fixed for the whole batch. Files the delegate writes are not added to it, and the delegate's folder naming is not tied to the slug.
- **Messages:** error messages that interpolate an exception (`{e}`) are modelled without the interpolated text.
- **Backend.GenerateVideo:** the uploaded video's bytes are stated as some bytes, not as the render of the slide frames and narrations; the frames and narrations themselves are stated by `Backend.RenderSlides`.
- **Backend.Produce:** likewise states the uploaded video as some bytes; the outputs' names, the transcript and the title are stated exactly.
- **Backend.LoadAssets:** font bytes that are present are taken as loadable. `ImageFont.truetype` on corrupt bytes raises inside the `try` at backend/video_generation_service.py:69-73, which turns it into `GenerationError("❌ Failed to load fonts: …")`; the model does not produce that error for fonts that are present but corrupt.
- **Backend.PrepareInputs:** with line 80 as written and every downloaded body exactly two bytes, the ints reach `io.BytesIO` on the first slide (line 99). The model reports that `TypeError` right after the transcript checks. A transcript that passes those checks has a word (`Text.StrippedHasWords`), so the first slide is always reached and the order of the errors is the source's.
- **Batch.ExtractImageUrlsFromRow:** its own contract states only the no-column case. The content of its result is stated by `Batch.KeepImageUrlsExact` and `Batch.ExtractedAreImageUrls`.
- **DriveDb.DownloadFile:** states where the bytes come from and the unknown-id case. It does not state the retry behaviour, which `DriveDb.RetryFirstDecisive` covers for any decorated call.

## Findings

| source | as written | input that shows it | evidently intended | confidence | as-written member | corrected member |
|---|---|---|---|---|---|---|
| frontend/app.py:389-395 | `consecutive_failures` is first bound on a success, so `+= 1` before any success raises `NameError` and the batch aborts | a batch whose first eligible row fails with `GenerationError` | the counter starts at 0 and the breaker stops after 3 consecutive failures | not executed | Batch.FrontendFirstFailureAborts | Batch.BreakerTrips |
| frontend/app.py:139-142 | a cache hit returns `data`, which is never assigned on that path, raising `UnboundLocalError` | an item whose three output files all exist | return the cached paths, as main.py:100-107 does | not executed | Cache.FrontendCacheHitRaises | Cache.CacheHitSkipsGeneration |
| app.py:254 | the raw-string pattern doubles its backslashes, so it only matches a piece holding a literal backslash; no ordinary URL is kept and a CSV batch without JSON data skips every row | a cell `https://x/a.jpg` | the single-escaped pattern of frontend/app.py:195 | not executed | Batch.AppPlainCsvSkipsAll | Batch.PlainImageUrlKept |
| backend/video_generation_service.py:80 | `[b for _, b in download_images(...)]` unpacks each image's bytes as a pair, raising `ValueError` for any image longer than two bytes | one URL returning a 3-byte body, with fonts and logo loaded | keep the downloaded bytes as they are | not executed | Backend.PrepareUrlsAsWritten | Backend.SelectImagesFromUrls |
| frontend/app.py:185 | `upload_output_files_to_drive(subdir=…, parent_id=…)` does not match shared/utils.py:106's `(file_map, parent_folder, base_name)`, so every upload raises `TypeError`, which ends the batch at the first cache miss | a batch with one cache miss | upload the outputs and go on with the next row | not executed | Batch.FrontendUploadWiringAborts | Batch.FrontendUploadsComplete |
| frontend/app.py:381-388 | the batch calls `generate_video` without `cfg`, so every eligible row raises `TypeError`, which aborts the batch | a batch with one eligible row | pass the service config, so that a failure is a `GenerationError` counted by the breaker | not executed | Batch.FrontendOtherErrorAborts | Batch.BreakerTrips |
