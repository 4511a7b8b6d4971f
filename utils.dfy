/** The helpers of shared/utils.py that sit between the generators and
    Drive: image download, font and logo loading, output upload and
    retrieval. The images JSON validator is in module ImagesJson, the
    filename slug in module Slug. */
module Utils {
  import opened Common
  import opened Text
  import opened DriveDb

  // ---------------------------------------------------------------------
  // download_images
  // ---------------------------------------------------------------------

  /** The bodies of the URLs that downloaded, in URL order; `fetch(url)` is
      what `requests.get(url).raise_for_status()` produced. */
  function Fetched(urls: seq<string>, fetch: string -> Result<Bytes>): seq<Bytes>
    decreases |urls|
  {
    if urls == [] then []
    else
      var before := Fetched(urls[..|urls| - 1], fetch);
      var o := fetch(urls[|urls| - 1]);
      if o.Ok? then before + [o.value] else before
  }

  /** Failed downloads are dropped and the rest kept in order: the result
      of a concatenation of URL lists is the concatenation of results. */
  lemma {:induction false} FetchedAppend(a: seq<string>, b: seq<string>, fetch: string -> Result<Bytes>)
    ensures Fetched(a + b, fetch) == Fetched(a, fetch) + Fetched(b, fetch)
    decreases |b|
  {
    if b == [] {
      assert a + b == a;
    } else {
      var b' := b[..|b| - 1];
      assert (a + b)[..|a + b| - 1] == a + b';
      FetchedAppend(a, b', fetch);
    }
  }

  /** Every image kept is the body of one of the URLs. */
  lemma {:induction false} FetchedFrom(urls: seq<string>, fetch: string -> Result<Bytes>)
    ensures |Fetched(urls, fetch)| <= |urls|
    ensures forall k :: 0 <= k < |Fetched(urls, fetch)| ==>
      exists i :: 0 <= i < |urls| && fetch(urls[i]) == Ok(Fetched(urls, fetch)[k])
    decreases |urls|
  {
    if urls != [] {
      var init := urls[..|urls| - 1];
      FetchedFrom(init, fetch);
      var r := Fetched(urls, fetch);
      forall k | 0 <= k < |r| ensures exists i :: 0 <= i < |urls| && fetch(urls[i]) == Ok(r[k]) {
        if k < |Fetched(init, fetch)| {
          var i :| 0 <= i < |init| && fetch(init[i]) == Ok(Fetched(init, fetch)[k]);
          assert urls[i] == init[i];
        } else {
          assert fetch(urls[|urls| - 1]) == Ok(r[k]);
        }
      }
    }
  }

  /** Nothing is kept exactly when every download failed. */
  lemma {:induction false} FetchedEmpty(urls: seq<string>, fetch: string -> Result<Bytes>)
    ensures Fetched(urls, fetch) == [] <==> forall i :: 0 <= i < |urls| ==> fetch(urls[i]).Err?
    decreases |urls|
  {
    if urls != [] {
      var init := urls[..|urls| - 1];
      FetchedEmpty(init, fetch);
      if fetch(urls[|urls| - 1]).Err? {
        assert forall i :: 0 <= i < |init| ==> init[i] == urls[i];
      }
    }
  }

  /** What `download_images(urls)` returns or raises. */
  function DownloadOutcome(urls: seq<string>, fetch: string -> Result<Bytes>): Result<seq<Bytes>> {
    var kept := Fetched(urls, fetch);
    if kept == [] then Err(RuntimeError("All image downloads failed – please check your URLs or network.")) else Ok(kept)
  }

  method DownloadImages(urls: seq<string>, fetch: string -> Result<Bytes>) returns (r: Result<seq<Bytes>>)
    ensures r == DownloadOutcome(urls, fetch)
  {
    var localFiles: seq<Bytes> := [];
    for i := 0 to |urls|
      invariant localFiles == Fetched(urls[..i], fetch)
    {
      assert urls[..i + 1][..i] == urls[..i];
      var o := fetch(urls[i]);
      if o.Ok? {
        localFiles := localFiles + [o.value];
      }
    }
    assert urls[..|urls|] == urls;
    if localFiles == [] {
      return Err(RuntimeError("All image downloads failed – please check your URLs or network."));
    }
    r := Ok(localFiles);
  }

  // ---------------------------------------------------------------------
  // load_fonts_from_drive, load_logo_from_drive
  // ---------------------------------------------------------------------

  predicate IsZipName(name: string) {
    EndsWith(Lower(name), ".zip")
  }

  predicate IsTtfName(name: string) {
    EndsWith(Lower(name), ".ttf")
  }

  /** `next(f for f in files if f["name"].lower().endswith(".zip"))`, as a position. */
  function FirstZip(files: seq<DriveFile>): (r: Option<nat>)
    ensures r.Some? ==> r.value < |files| && IsZipName(files[r.value].name)
    ensures r.Some? ==> forall i :: 0 <= i < r.value ==> !IsZipName(files[i].name)
    ensures r.None? ==> forall i :: 0 <= i < |files| ==> !IsZipName(files[i].name)
  {
    if files == [] then None
    else if IsZipName(files[0].name) then Some(0)
    else
      var r := FirstZip(files[1..]);
      if r.Some? then Some(r.value + 1) else None
  }

  /** A member of a ZIP archive, in `namelist()` order. */
  datatype ZipEntry = ZipEntry(name: string, data: Bytes)

  /** `{name: zf.read(name) for name in zf.namelist() if name.lower().endswith(".ttf")}`;
      `zf.read` of a repeated name gives the last member of that name, as
      does the later assignment in the comprehension. */
  function TtfFonts(entries: seq<ZipEntry>): map<string, Bytes>
    decreases |entries|
  {
    if entries == [] then map[]
    else
      var before := TtfFonts(entries[..|entries| - 1]);
      var e := entries[|entries| - 1];
      if IsTtfName(e.name) then before[e.name := e.data] else before
  }

  /** The fonts are keyed by exactly the `.ttf` member names. */
  lemma {:induction false} TtfFontsKeys(entries: seq<ZipEntry>, name: string)
    ensures name in TtfFonts(entries) <==> exists i :: 0 <= i < |entries| && entries[i].name == name && IsTtfName(name)
    decreases |entries|
  {
    if entries != [] {
      var init := entries[..|entries| - 1];
      TtfFontsKeys(init, name);
      if exists i :: 0 <= i < |init| && init[i].name == name && IsTtfName(name) {
        var i :| 0 <= i < |init| && init[i].name == name && IsTtfName(name);
        assert entries[i] == init[i];
      }
      if exists i :: 0 <= i < |entries| && entries[i].name == name && IsTtfName(name) {
        var i :| 0 <= i < |entries| && entries[i].name == name && IsTtfName(name);
        if i < |init| {
          assert init[i] == entries[i];
        }
      }
    }
  }

  /** A font's bytes come from the last member with its name. */
  lemma {:induction false} TtfFontsLast(entries: seq<ZipEntry>, j: nat)
    requires j < |entries| && IsTtfName(entries[j].name)
    requires forall i :: j < i < |entries| ==> entries[i].name != entries[j].name
    ensures entries[j].name in TtfFonts(entries) && TtfFonts(entries)[entries[j].name] == entries[j].data
    decreases |entries|
  {
    var init := entries[..|entries| - 1];
    if j < |entries| - 1 {
      TtfFontsLast(init, j);
    }
  }

  /** `load_fonts_from_drive(fonts_folder_id)`. `unzip` opens the archive,
      `None` standing for `BadZipFile`. */
  function LoadFontsFromDrive(d: Drive, fontsFolderId: Option<string>, unzip: Bytes -> Option<seq<ZipEntry>>)
    : (r: Result<map<string, Bytes>>)
    ensures r.Ok? ==> forall name :: name in r.value ==> IsTtfName(name)
    ensures ListFiles(d, None, fontsFolderId).Err? ==> r == Err(ListFiles(d, None, fontsFolderId).error)
    ensures ListFiles(d, None, fontsFolderId).Ok? && FirstZip(ListFiles(d, None, fontsFolderId).value).None? ==>
      r == Err(RuntimeError("No font ZIP found in Drive folder."))
    ensures r.Err? && ListFiles(d, None, fontsFolderId).Ok? ==> r.error.RuntimeError?
  {
    var listed := ListFiles(d, None, fontsFolderId);
    if listed.Err? then Err(listed.error)
    else
      var z := FirstZip(listed.value);
      if z.None? then Err(RuntimeError("No font ZIP found in Drive folder."))
      else
        var zipData := DownloadFile(d, listed.value[z.value].id);
        if zipData.Err? then Err(RuntimeError("Failed to load fonts from Drive: "))
        else
          var entries := unzip(zipData.value);
          if entries.None? then Err(RuntimeError("The ZIP file is corrupted."))
          else
            TtfFontsNames(entries.value);
            Ok(TtfFonts(entries.value))
  }

  lemma TtfFontsNames(entries: seq<ZipEntry>)
    ensures forall name :: name in TtfFonts(entries) ==> IsTtfName(name)
  {
    forall name | name in TtfFonts(entries) ensures IsTtfName(name) {
      TtfFontsKeys(entries, name);
    }
  }

  /** No two files share an id. */
  predicate UniqueIds(files: seq<DriveFile>) {
    forall i, j :: 0 <= i < j < |files| ==> files[i].id != files[j].id
  }

  const LogoMimeFilter := "image/"

  /** `load_logo_from_drive(logo_folder_id)`: the first image in the folder. */
  function LoadLogoFromDrive(d: Drive, logoFolderId: Option<string>): Result<Bytes> {
    var imgs := ListFiles(d, Some(LogoMimeFilter), logoFolderId);
    if imgs.Err? then Err(imgs.error)
    else if imgs.value == [] then Err(RuntimeError("No logo image found in logo folder."))
    else DownloadFile(d, imgs.value[0].id)
  }

  /** With a service and unique ids, the logo is the content of the first
      untrashed file of the folder whose type contains `image/`, and it is
      missing exactly when the folder holds none. */
  lemma LoadLogoFirstImage(d: Drive, logoFolderId: Option<string>)
    requires d.service.Some? && UniqueIds(d.files)
    ensures var imgs := ListedFiles(d.files, ParentText(logoFolderId), Some(LogoMimeFilter));
      && (imgs == [] ==> LoadLogoFromDrive(d, logoFolderId) == Err(RuntimeError("No logo image found in logo folder.")))
      && (imgs != [] ==> LoadLogoFromDrive(d, logoFolderId) == Ok(imgs[0].data))
      && (imgs == [] <==> forall f :: f in d.files ==> !Listed(f, ParentText(logoFolderId), Some(LogoMimeFilter)))
  {
    var pid := ParentText(logoFolderId);
    var imgs := ListedFiles(d.files, pid, Some(LogoMimeFilter));
    if imgs != [] {
      var f := imgs[0];
      assert f in d.files;
      var k :| 0 <= k < |d.files| && d.files[k] == f;
      var i := FileWithId(d.files, f.id);
      assert i == Some(k);
    } else {
      forall f | f in d.files ensures !Listed(f, pid, Some(LogoMimeFilter)) {
        if Listed(f, pid, Some(LogoMimeFilter)) {
          ListedFilesComplete(d.files, pid, Some(LogoMimeFilter), f);
        }
      }
    }
  }

  // ---------------------------------------------------------------------
  // upload_output_files_to_drive
  // ---------------------------------------------------------------------

  /** An entry of the `file_map` handed to the upload: name and content. */
  datatype OutputFile = OutputFile(name: string, data: Bytes)

  /** `'video/mp4' if filename.endswith('.mp4') else 'text/plain'`. */
  function OutputMime(name: string): string {
    if EndsWith(name, ".mp4") then "video/mp4" else "text/plain"
  }

  /** The keys of a dict are distinct. */
  predicate DistinctNames(items: seq<OutputFile>) {
    forall i, j :: 0 <= i < j < |items| ==> items[i].name != items[j].name
  }

  /** Drive after uploading `items` in order into folder `folderId`; the
      uploads of names in `failing` raise and are skipped. `idFor(i)` is
      the id a newly created file for item `i` gets. */
  function UploadedAll(d: Drive, items: seq<OutputFile>, folderId: string, failing: set<string>,
                       idFor: nat -> string): (r: Drive)
    ensures r.service == d.service
    decreases |items|
  {
    if items == [] then d
    else
      var before := UploadedAll(d, items[..|items| - 1], folderId, failing, idFor);
      var it := items[|items| - 1];
      if it.name in failing then before
      else UploadFileOn(before, it.name, it.data, Some(OutputMime(it.name)), None, Some(folderId), idFor(|items| - 1)).1
  }

  /** After the upload every output whose upload did not fail is found by
      name in the folder with its content. */
  lemma {:induction false} UploadedAllFinds(d: Drive, items: seq<OutputFile>, folderId: string, failing: set<string>,
                                            idFor: nat -> string, j: nat)
    requires d.service.Some? && DistinctNames(items)
    requires j < |items| && items[j].name !in failing
    ensures var after := UploadedAll(d, items, folderId, failing, idFor);
      var m := FirstMatch(after.files, items[j].name, ParentText(Some(folderId)), false);
      m.Some? && after.files[m.value].data == items[j].data
    decreases |items|
  {
    var pid := ParentText(Some(folderId));
    var init := items[..|items| - 1];
    var it := items[|items| - 1];
    var before := UploadedAll(d, init, folderId, failing, idFor);
    if j == |items| - 1 {
      UpsertedFinds(before.files, it.name, pid, OutputMime(it.name), it.data, idFor(|items| - 1));
    } else {
      assert init[j] == items[j];
      UploadedAllFinds(d, init, folderId, failing, idFor, j);
      if it.name !in failing {
        UpsertedKeepsOthers(before.files, it.name, pid, OutputMime(it.name), it.data, idFor(|items| - 1), items[j].name, pid);
      }
    }
  }

  /** `upload_output_files_to_drive(file_map, parent_folder, base_name)`:
      the folder `base_name` is found or created under `parent_folder`
      (its failure propagates), then every file is uploaded into it. */
  method UploadOutputFilesToDrive(store: DriveStore, fileMap: seq<OutputFile>, parentFolder: Option<string>,
                                  baseName: string, findRaised: Option<Exc>, folderNewId: string,
                                  failing: set<string>, idFor: nat -> string) returns (r: Outcome)
    modifies store
    ensures var (folder, d) := FindOrCreateFolderOn(old(store.State()), baseName, parentFolder, findRaised, folderNewId);
      && (folder.Err? ==> r == Raised(folder.error) && store.State() == d)
      && (folder.Ok? ==> r == Done && store.State() == UploadedAll(d, fileMap, folder.value, failing, idFor))
  {
    var folder := store.FindOrCreateFolder(baseName, parentFolder, findRaised, folderNewId);
    if folder.Err? {
      return Raised(folder.error);
    }
    var folderId := folder.value;
    ghost var d := store.State();
    for i := 0 to |fileMap|
      invariant store.State() == UploadedAll(d, fileMap[..i], folderId, failing, idFor)
    {
      assert fileMap[..i + 1][..i] == fileMap[..i];
      var item := fileMap[i];
      var mime := if EndsWith(item.name, ".mp4") then "video/mp4" else "text/plain";
      if item.name !in failing {
        var uploaded := store.UploadFile(item.name, item.data, Some(mime), None, Some(folderId), idFor(i));
      }
    }
    assert fileMap[..|fileMap|] == fileMap;
    r := Done;
  }

  // ---------------------------------------------------------------------
  // retrieve_and_stream_output_files
  // ---------------------------------------------------------------------

  /** The `{"video": [...], "blog": [...]}` result. */
  datatype Outputs = Outputs(video: seq<Bytes>, blog: seq<Bytes>)

  predicate IsVideoMime(mime: string) {
    Contains(mime, "video")
  }

  predicate IsBlogMime(mime: string) {
    Contains(mime, "text") || Contains(mime, "document")
  }

  /** `_stream_file(file_id)`: the content of the file with that id, read
      in chunks from the service. `failing` are the ids whose transfer
      breaks off; that, an unknown id or a missing service all surface as
      `RuntimeError`. */
  function StreamFile(d: Drive, failing: set<string>, fileId: string): Result<Bytes> {
    var got := DownloadFile(d, fileId);
    if fileId in failing || got.Err? then Err(RuntimeError("⚠️ Failed to stream file from Drive: "))
    else Ok(got.value)
  }

  /** A stream succeeds exactly when the service is up, the id names a
      file of the store and its transfer does not break off; it then
      carries that file's content. */
  lemma StreamFileIsContent(d: Drive, failing: set<string>, fileId: string)
    ensures var r := StreamFile(d, failing, fileId);
      && (r.Ok? <==> fileId !in failing && d.service.Some? && exists i :: 0 <= i < |d.files| && d.files[i].id == fileId)
      && (r.Ok? ==> exists i :: 0 <= i < |d.files| && d.files[i].id == fileId && d.files[i].data == r.value)
      && (r.Err? ==> r.error.RuntimeError?)
  {
    var i := FileWithId(d.files, fileId);
  }

  /** `b` is the content of a file of the store listed in `files`, of the
      kind that list takes. */
  predicate StreamOf(d: Drive, files: seq<DriveFile>, b: Bytes, video: bool) {
    exists j, i :: 0 <= j < |files| && 0 <= i < |d.files| && d.files[i].id == files[j].id && d.files[i].data == b
      && (if video then IsVideoMime(files[j].mimeType) else !IsVideoMime(files[j].mimeType) && IsBlogMime(files[j].mimeType))
  }

  /** The streams gathered from `files`: videos first by type, then text or
      documents; a file whose stream fails, or of another type, is skipped. */
  function Streamed(files: seq<DriveFile>, d: Drive, failing: set<string>): Outputs
    decreases |files|
  {
    if files == [] then Outputs([], [])
    else
      var before := Streamed(files[..|files| - 1], d, failing);
      var f := files[|files| - 1];
      var s := StreamFile(d, failing, f.id);
      if IsVideoMime(f.mimeType) then
        if s.Ok? then before.(video := before.video + [s.value]) else before
      else if IsBlogMime(f.mimeType) then
        if s.Ok? then before.(blog := before.blog + [s.value]) else before
      else before
  }

  /** Streams of separate runs of files concatenate, each kind on its own. */
  lemma {:induction false} StreamedAppend(a: seq<DriveFile>, b: seq<DriveFile>, d: Drive, failing: set<string>)
    ensures Streamed(a + b, d, failing)
      == Outputs(Streamed(a, d, failing).video + Streamed(b, d, failing).video, Streamed(a, d, failing).blog + Streamed(b, d, failing).blog)
    decreases |b|
  {
    if b == [] {
      assert a + b == a;
    } else {
      var b' := b[..|b| - 1];
      assert (a + b)[..|a + b| - 1] == a + b';
      StreamedAppend(a, b', d, failing);
    }
  }

  /** One file lands in at most one list: `video` when its type contains
      "video" (even if it also contains "text"), `blog` when it contains
      "text" or "document" only, and only if its stream succeeded. */
  lemma StreamedOne(f: DriveFile, d: Drive, failing: set<string>)
    ensures var o := Streamed([f], d, failing);
      && (o.video != [] <==> IsVideoMime(f.mimeType) && StreamFile(d, failing, f.id).Ok?)
      && (o.blog != [] <==> !IsVideoMime(f.mimeType) && IsBlogMime(f.mimeType) && StreamFile(d, failing, f.id).Ok?)
      && |o.video| + |o.blog| <= 1
      && (o.video != [] ==> o.video == [StreamFile(d, failing, f.id).value])
      && (o.blog != [] ==> o.blog == [StreamFile(d, failing, f.id).value])
  {
    assert [f][..0] == [];
  }

  /** At most one stream per file. */
  lemma {:induction false} StreamedBound(files: seq<DriveFile>, d: Drive, failing: set<string>)
    ensures |Streamed(files, d, failing).video| + |Streamed(files, d, failing).blog| <= |files|
    decreases |files|
  {
    if files != [] {
      StreamedBound(files[..|files| - 1], d, failing);
    }
  }

  /** Every entry of `list` is such a content. */
  predicate StreamsOf(d: Drive, files: seq<DriveFile>, list: seq<Bytes>, video: bool) {
    forall k :: 0 <= k < |list| ==> StreamOf(d, files, list[k], video)
  }

  lemma StreamsOfPrefix(d: Drive, files: seq<DriveFile>, n: nat, list: seq<Bytes>, video: bool)
    requires n <= |files| && StreamsOf(d, files[..n], list, video)
    ensures StreamsOf(d, files, list, video)
  {
    forall k | 0 <= k < |list|
      ensures StreamOf(d, files, list[k], video)
    {
      var init := files[..n];
      assert StreamOf(d, init, list[k], video);
      var j, i :| 0 <= j < |init| && 0 <= i < |d.files| && d.files[i].id == init[j].id && d.files[i].data == list[k]
        && (if video then IsVideoMime(init[j].mimeType) else !IsVideoMime(init[j].mimeType) && IsBlogMime(init[j].mimeType));
      assert files[j] == init[j];
    }
  }

  lemma StreamsOfAppend(d: Drive, files: seq<DriveFile>, list: seq<Bytes>, b: Bytes, video: bool)
    requires StreamsOf(d, files, list, video) && StreamOf(d, files, b, video)
    ensures StreamsOf(d, files, list + [b], video)
  {
    assert forall k :: 0 <= k < |list| ==> (list + [b])[k] == list[k];
  }

  /** Every video stream is the content, in the store, of a listed video
      file, and every blog stream that of a listed text or document file. */
  lemma {:induction false} StreamedFromStore(files: seq<DriveFile>, d: Drive, failing: set<string>)
    ensures StreamsOf(d, files, Streamed(files, d, failing).video, true)
    ensures StreamsOf(d, files, Streamed(files, d, failing).blog, false)
    decreases |files|
  {
    if files != [] {
      var n := |files| - 1;
      StreamedFromStore(files[..n], d, failing);
      var before := Streamed(files[..n], d, failing);
      StreamsOfPrefix(d, files, n, before.video, true);
      StreamsOfPrefix(d, files, n, before.blog, false);
      var f := files[n];
      var s := StreamFile(d, failing, f.id);
      StreamFileIsContent(d, failing, f.id);
      if s.Ok? && (IsVideoMime(f.mimeType) || IsBlogMime(f.mimeType)) {
        var video := IsVideoMime(f.mimeType);
        var i :| 0 <= i < |d.files| && d.files[i].id == f.id && d.files[i].data == s.value;
        assert StreamOf(d, files, s.value, video) by {
          assert 0 <= n < |files| && d.files[i].id == files[n].id;
        }
        StreamsOfAppend(d, files, if video then before.video else before.blog, s.value, video);
      }
    }
  }

  /** `retrieve_and_stream_output_files(folder_name, parent_folder)`. */
  function Retrieved(d: Drive, folderName: string, parentFolder: Option<string>, failing: set<string>)
    : Result<Outputs>
  {
    var folderId := FindFolder(d, folderName, parentFolder);
    if folderId.Err? then Err(folderId.error)
    else if !Truthy(folderId.value) then Err(RuntimeError("⚠️ Output folder '" + folderName + "' not found in Drive."))
    else
      var files := ListFiles(d, None, folderId.value);
      if files.Err? then Err(files.error)
      else Ok(Streamed(files.value, d, failing))
  }

  /** A missing output folder is a `RuntimeError`; with a found folder the
      outputs come only from files listed in it. */
  lemma RetrievedCases(d: Drive, folderName: string, parentFolder: Option<string>, failing: set<string>)
    ensures FindFolder(d, folderName, parentFolder) == Ok(None) ==>
      Retrieved(d, folderName, parentFolder, failing) == Err(RuntimeError("⚠️ Output folder '" + folderName + "' not found in Drive."))
    ensures Retrieved(d, folderName, parentFolder, failing).Ok? ==>
      d.service.Some? && FindFolder(d, folderName, parentFolder).Ok?
      && var fid := FindFolder(d, folderName, parentFolder).value;
      Truthy(fid) && Retrieved(d, folderName, parentFolder, failing)
                     == Ok(Streamed(ListedFiles(d.files, fid.value, None), d, failing))
  {
  }

  /** What a retrieval returns is the content of files of the store that
      lie in the found output folder. */
  lemma RetrievedFromStore(d: Drive, folderName: string, parentFolder: Option<string>, failing: set<string>)
    requires Retrieved(d, folderName, parentFolder, failing).Ok?
    ensures var fid := FindFolder(d, folderName, parentFolder).value.value;
      var listed := ListedFiles(d.files, fid, None);
      var o := Retrieved(d, folderName, parentFolder, failing).value;
      StreamsOf(d, listed, o.video, true) && StreamsOf(d, listed, o.blog, false)
  {
    RetrievedCases(d, folderName, parentFolder, failing);
    var fid := FindFolder(d, folderName, parentFolder).value.value;
    StreamedFromStore(ListedFiles(d.files, fid, None), d, failing);
  }

  /** The loop of `retrieve_and_stream_output_files` over the listed
      files, streaming each and sorting it by type. */
  method StreamAll(files: seq<DriveFile>, d: Drive, failing: set<string>) returns (outputs: Outputs)
    ensures outputs == Streamed(files, d, failing)
  {
    outputs := Outputs([], []);
    for i := 0 to |files|
      invariant outputs == Streamed(files[..i], d, failing)
    {
      assert files[..i + 1][..i] == files[..i];
      var f := files[i];
      var s := StreamFile(d, failing, f.id);
      if Contains(f.mimeType, "video") {
        if s.Ok? {
          outputs := outputs.(video := outputs.video + [s.value]);
        }
      } else if Contains(f.mimeType, "text") || Contains(f.mimeType, "document") {
        if s.Ok? {
          outputs := outputs.(blog := outputs.blog + [s.value]);
        }
      }
    }
    assert files[..|files|] == files;
  }

  method RetrieveAndStreamOutputFiles(store: DriveStore, folderName: string, parentFolder: Option<string>,
                                      failing: set<string>) returns (r: Result<Outputs>)
    ensures r == Retrieved(store.State(), folderName, parentFolder, failing)
  {
    var d := store.State();
    var folderId := FindFolder(d, folderName, parentFolder);
    if folderId.Err? {
      return Err(folderId.error);
    }
    if !Truthy(folderId.value) {
      return Err(RuntimeError("⚠️ Output folder '" + folderName + "' not found in Drive."));
    }
    var listed := ListFiles(d, None, folderId.value);
    if listed.Err? {
      return Err(listed.error);
    }
    var outputs := StreamAll(listed.value, d, failing);
    r := Ok(outputs);
  }
}
