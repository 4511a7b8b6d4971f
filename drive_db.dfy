/** The Drive adapter of shared/drive_db.py: the `_with_retries` decorator,
    the query strings, and the folder/file operations over a store of files. */
module DriveDb {
  import opened Common
  import opened Text

  // ---------------------------------------------------------------------
  // _with_retries(retries=3, delay=1.5)
  // ---------------------------------------------------------------------

  /** HTTP statuses the decorator treats as transient. */
  const RetryableStatuses: set<int> := {429, 500, 502, 503, 504}
  const DefaultRetries := 3
  /** `delay=1.5` seconds, in milliseconds. */
  const DefaultDelayMs := 1500
  /** `random.uniform(0, 0.5)` seconds: the jitter is at most this many milliseconds. */
  const MaxJitterMs := 500

  /** The decorator swallows every exception except an `HttpError` whose
      status is not retryable, which it re-raises at once. */
  predicate Retryable(e: Exc) {
    !e.HttpError? || e.status in RetryableStatuses
  }

  function Pow2(n: nat): (r: nat)
    ensures r >= 1
  {
    if n == 0 then 1 else 2 * Pow2(n - 1)
  }

  /** The sleep after failed attempt `attempt` (1-based): `delay * 2**(attempt-1) + jitter`. */
  function Backoff(delayMs: nat, attempt: nat, jitterMs: nat): nat
    requires attempt >= 1
  {
    delayMs * Pow2(attempt - 1) + jitterMs
  }

  /** What a decorated call did: its outcome, how many times the wrapped
      function ran, and the sleeps taken, in order. */
  datatype RetryRun<T> = RetryRun(result: Result<T>, calls: nat, waits: seq<nat>)

  /** The decorator from attempt `k` on; `call(k)` is what the wrapped
      function does on attempt `k`, `jitter(k)` the jitter drawn after it,
      and `last` the last exception swallowed so far. */
  function RetryFrom<T>(fname: string, retries: int, delayMs: nat, call: nat -> Result<T>,
                        jitter: nat -> nat, k: nat, last: Option<Exc>): RetryRun<T>
    requires k >= 1
    decreases retries - k + 1
  {
    if k > retries then RetryRun(Err(DriveDBError(Exhausted(fname, retries, last))), 0, [])
    else
      var o := call(k);
      if o.Ok? || !Retryable(o.error) then RetryRun(o, 1, [])
      else
        var rest := RetryFrom(fname, retries, delayMs, call, jitter, k + 1, Some(o.error));
        RetryRun(rest.result, rest.calls + 1, [Backoff(delayMs, k, jitter(k))] + rest.waits)
  }

  /** The decorated call, as the wrapper's loop runs it. */
  method WithRetries<T>(fname: string, retries: int, delayMs: nat, call: nat -> Result<T>, jitter: nat -> nat)
    returns (result: Result<T>, calls: nat, waits: seq<nat>)
    ensures RetryRun(result, calls, waits) == RetryFrom(fname, retries, delayMs, call, jitter, 1, None)
  {
    var last: Option<Exc> := None;
    calls := 0;
    waits := [];
    var attempt := 1;
    while attempt <= retries
      invariant attempt >= 1 && calls == attempt - 1
      invariant var rest := RetryFrom(fname, retries, delayMs, call, jitter, attempt, last);
        RetryFrom(fname, retries, delayMs, call, jitter, 1, None)
          == RetryRun(rest.result, calls + rest.calls, waits + rest.waits)
      decreases retries - attempt + 1
    {
      var o := call(attempt);
      if o.Ok? {
        result, calls := o, calls + 1;
        return;
      }
      if !Retryable(o.error) {
        result, calls := o, calls + 1;
        return;
      }
      last := Some(o.error);
      var sleep := Backoff(delayMs, attempt, jitter(attempt));
      ghost var rest := RetryFrom(fname, retries, delayMs, call, jitter, attempt + 1, last);
      assert waits + ([sleep] + rest.waits) == (waits + [sleep]) + rest.waits;
      waits := waits + [sleep];
      calls := calls + 1;
      attempt := attempt + 1;
    }
    result := Err(DriveDBError(Exhausted(fname, retries, last)));
  }

  /** An attempt that fails with an exception the decorator retries. */
  predicate TransientFailure<T>(o: Result<T>) {
    o.Err? && Retryable(o.error)
  }

  /** The wrapped function runs at most `retries` times (never when
      `retries <= 0`), at least once otherwise, and one sleep follows every
      run that is retried. */
  lemma {:induction false} RetryCallsBounded<T>(fname: string, retries: int, delayMs: nat, call: nat -> Result<T>,
                                                jitter: nat -> nat, k: nat, last: Option<Exc>)
    requires k >= 1
    ensures var r := RetryFrom(fname, retries, delayMs, call, jitter, k, last);
      && (k > retries ==> r.calls == 0)
      && (k <= retries ==> 1 <= r.calls <= retries - k + 1)
      && |r.waits| <= r.calls
    decreases retries - k + 1
  {
    if k <= retries && TransientFailure(call(k)) {
      RetryCallsBounded(fname, retries, delayMs, call, jitter, k + 1, Some(call(k).error));
    }
  }

  /** The first attempt that succeeds, or that raises a non-retryable
      `HttpError`, decides the outcome: it is returned or re-raised as is,
      after exactly that many calls and one sleep per earlier attempt. */
  lemma {:induction false} RetryFirstDecisive<T>(fname: string, retries: int, delayMs: nat, call: nat -> Result<T>,
                                                 jitter: nat -> nat, k: nat, last: Option<Exc>, j: nat)
    requires 1 <= k <= j <= retries
    requires forall i :: k <= i < j ==> TransientFailure(call(i))
    requires !TransientFailure(call(j))
    ensures var r := RetryFrom(fname, retries, delayMs, call, jitter, k, last);
      && r.result == call(j)
      && r.calls == j - k + 1
      && |r.waits| == j - k
    decreases j - k
  {
    if k < j {
      RetryFirstDecisive(fname, retries, delayMs, call, jitter, k + 1, Some(call(k).error), j);
    }
  }

  /** When every attempt fails transiently the decorator raises
      `DriveDBError` naming the function, the retry count and the last
      exception, after sleeping `delay * 2**(k-1) + jitter` after every
      attempt `k`, the last one included. */
  lemma {:induction false} RetryExhausted<T>(fname: string, retries: int, delayMs: nat, call: nat -> Result<T>,
                                             jitter: nat -> nat, k: nat, last: Option<Exc>)
    requires 1 <= k <= retries
    requires forall i :: k <= i <= retries ==> TransientFailure(call(i))
    ensures var r := RetryFrom(fname, retries, delayMs, call, jitter, k, last);
      && call(retries).Err?
      && r.result == Err(DriveDBError(Exhausted(fname, retries, Some(call(retries).error))))
      && r.calls == retries - k + 1
      && |r.waits| == retries - k + 1
      && forall i :: 0 <= i < |r.waits| ==> r.waits[i] == Backoff(delayMs, k + i, jitter(k + i))
    decreases retries - k
  {
    var r := RetryFrom(fname, retries, delayMs, call, jitter, k, last);
    var rest := RetryFrom(fname, retries, delayMs, call, jitter, k + 1, Some(call(k).error));
    if k < retries {
      RetryExhausted(fname, retries, delayMs, call, jitter, k + 1, Some(call(k).error));
      assert r.waits == [Backoff(delayMs, k, jitter(k))] + rest.waits;
      forall i | 0 <= i < |r.waits| ensures r.waits[i] == Backoff(delayMs, k + i, jitter(k + i)) {
        if i > 0 {
          assert r.waits[i] == rest.waits[i - 1];
        }
      }
    }
  }

  /** With the jitter drawn from [0, 500] ms, the sleep after attempt `k`
      lies between `delay * 2**(k-1)` and that plus 500 ms. */
  lemma BackoffBounds(delayMs: nat, attempt: nat, jitterMs: nat)
    requires attempt >= 1 && jitterMs <= MaxJitterMs
    ensures delayMs * Pow2(attempt - 1) <= Backoff(delayMs, attempt, jitterMs) <= delayMs * Pow2(attempt - 1) + MaxJitterMs
    ensures attempt >= 2 ==> Backoff(delayMs, attempt, 0) == 2 * Backoff(delayMs, attempt - 1, 0)
  {
    if attempt >= 2 {
      assert Pow2(attempt - 1) == 2 * Pow2(attempt - 2);
    }
  }

  /** `_get_service` raising inside a decorated function is an ordinary
      exception, so it is retried: a call made before `set_drive_service`
      runs `retries` times and ends in `DriveDBError` whose last exception is
      the not-initialised error (none at all when `retries <= 0`). */
  lemma UninitializedCallExhausts<T>(fname: string, retries: int, delayMs: nat, jitter: nat -> nat)
    ensures var call := (k: nat) => Err(DriveDBError(NotInitialized));
      var r := RetryFrom<T>(fname, retries, delayMs, call, jitter, 1, None);
      && r.result == Err(DriveDBError(NotInitializedAfterRetries(fname, retries)))
      && r.calls == (if retries >= 1 then retries else 0)
  {
    var call: nat -> Result<T> := (k: nat) => Err(DriveDBError(NotInitialized));
    if retries >= 1 {
      RetryExhausted(fname, retries, delayMs, call, jitter, 1, None);
    }
  }

  /** What a decorated operation raises when the service was never set. */
  function NotInitializedAfterRetries(fname: string, retries: int): DriveFailure {
    Exhausted(fname, retries, if retries >= 1 then Some(DriveDBError(NotInitialized)) else None)
  }

  // ---------------------------------------------------------------------
  // Query strings
  // ---------------------------------------------------------------------

  /** `parent_id or DRIVE_FOLDER_ID`, as an f-string prints it; the module
      global `DRIVE_FOLDER_ID` is never assigned, so it prints as `None`. */
  function ParentText(parentId: Option<string>): string {
    if Truthy(parentId) then parentId.value else "None"
  }

  const NotTrashedInParents := "' in parents and trashed = false"

  /** The `q` argument `list_files` sends. */
  function ListFilesQuery(mimeFilter: Option<string>, parentId: Option<string>): string {
    "'" + ParentText(parentId) + NotTrashedInParents
    + (if Truthy(mimeFilter) then " and mimeType contains '" + mimeFilter.value + "'" else "")
  }

  /** The characters before the first `'`. */
  function UpToQuote(s: string): (r: string)
    ensures '\'' !in r
  {
    if s == [] || s[0] == '\'' then [] else [s[0]] + UpToQuote(s[1..])
  }

  lemma {:induction false} UpToQuoteOf(p: string, rest: string)
    requires '\'' !in p && rest != [] && rest[0] == '\''
    ensures UpToQuote(p + rest) == p
  {
    if p == [] {
      assert p + rest == rest;
    } else {
      assert (p + rest)[1..] == p[1..] + rest;
      UpToQuoteOf(p[1..], rest);
    }
  }

  /** The query names the parent folder between its first two quotes (a
      parent id holding a quote would break it); without a parent id that
      name is `None`. */
  lemma ListFilesQueryParent(mimeFilter: Option<string>, parentId: Option<string>)
    requires '\'' !in ParentText(parentId)
    ensures var q := ListFilesQuery(mimeFilter, parentId);
      |q| >= 1 && q[0] == '\'' && UpToQuote(q[1..]) == ParentText(parentId)
  {
    var p := ParentText(parentId);
    var q := ListFilesQuery(mimeFilter, parentId);
    var tail := NotTrashedInParents + (if Truthy(mimeFilter) then " and mimeType contains '" + mimeFilter.value + "'" else "");
    assert q == "'" + (p + tail);
    assert q[1..] == p + tail;
    UpToQuoteOf(p, tail);
  }

  /** The query restricts to untrashed files, and ends with a mimeType
      clause exactly when a filter is given. */
  lemma ListFilesQueryFilter(mimeFilter: Option<string>, parentId: Option<string>)
    ensures var q := ListFilesQuery(mimeFilter, parentId);
      && (Truthy(mimeFilter) ==> EndsWith(q, " and mimeType contains '" + mimeFilter.value + "'"))
      && (!Truthy(mimeFilter) ==> EndsWith(q, NotTrashedInParents))
  {
    var q := ListFilesQuery(mimeFilter, parentId);
    var head := "'" + ParentText(parentId) + NotTrashedInParents;
    if Truthy(mimeFilter) {
      var clause := " and mimeType contains '" + mimeFilter.value + "'";
      assert q == head + clause;
      assert q[|q| - |clause|..] == clause;
    } else {
      assert q == head;
      assert q[|q| - |NotTrashedInParents|..] == NotTrashedInParents;
    }
  }

  // ---------------------------------------------------------------------
  // The store: the files of a Drive, in listing order
  // ---------------------------------------------------------------------

  const FolderMime := "application/vnd.google-apps.folder"
  const DefaultMime := "application/octet-stream"

  datatype DriveFile = DriveFile(id: string, name: string, mimeType: string, parents: seq<string>,
                                 trashed: bool, data: Bytes)

  /** What the `name='…' and '…' in parents and trashed = false` queries
      select, with `mimeType='…folder'` added for folders. */
  predicate Matches(f: DriveFile, name: string, pid: string, foldersOnly: bool) {
    f.name == name && pid in f.parents && !f.trashed && (foldersOnly ==> f.mimeType == FolderMime)
  }

  /** The position of the first file the query selects. */
  function FirstMatch(files: seq<DriveFile>, name: string, pid: string, foldersOnly: bool): (r: Option<nat>)
    ensures r.Some? ==> r.value < |files| && Matches(files[r.value], name, pid, foldersOnly)
    ensures r.Some? ==> forall i :: 0 <= i < r.value ==> !Matches(files[i], name, pid, foldersOnly)
    ensures r.None? ==> forall i :: 0 <= i < |files| ==> !Matches(files[i], name, pid, foldersOnly)
  {
    if files == [] then None
    else if Matches(files[0], name, pid, foldersOnly) then Some(0)
    else
      var r := FirstMatch(files[1..], name, pid, foldersOnly);
      if r.Some? then Some(r.value + 1) else None
  }

  /** The position of the first file with the given id. */
  function FileWithId(files: seq<DriveFile>, fileId: string): (r: Option<nat>)
    ensures r.Some? ==> r.value < |files| && files[r.value].id == fileId
    ensures r.None? ==> forall i :: 0 <= i < |files| ==> files[i].id != fileId
  {
    if files == [] then None
    else if files[0].id == fileId then Some(0)
    else
      var r := FileWithId(files[1..], fileId);
      if r.Some? then Some(r.value + 1) else None
  }

  /** What `list_files` returns: untrashed files in the parent whose
      mimeType contains the filter, if one is given. */
  predicate Listed(f: DriveFile, pid: string, mimeFilter: Option<string>) {
    pid in f.parents && !f.trashed && (Truthy(mimeFilter) ==> Contains(f.mimeType, mimeFilter.value))
  }

  function ListedFiles(files: seq<DriveFile>, pid: string, mimeFilter: Option<string>): (r: seq<DriveFile>)
    ensures |r| <= |files|
    ensures forall i :: 0 <= i < |r| ==> Listed(r[i], pid, mimeFilter) && r[i] in files
  {
    if files == [] then []
    else if Listed(files[0], pid, mimeFilter) then [files[0]] + ListedFiles(files[1..], pid, mimeFilter)
    else ListedFiles(files[1..], pid, mimeFilter)
  }

  /** Every listed file of the store is returned. */
  lemma {:induction false} ListedFilesComplete(files: seq<DriveFile>, pid: string, mimeFilter: Option<string>, f: DriveFile)
    requires f in files && Listed(f, pid, mimeFilter)
    ensures f in ListedFiles(files, pid, mimeFilter)
  {
    if files[0] != f {
      ListedFilesComplete(files[1..], pid, mimeFilter, f);
    }
  }

  /** `upload_file`'s `mime_type or _guess_mime_type(name)`, with the guess
      of the `mimetypes` module as a parameter. */
  function UploadMime(mimeType: Option<string>, guessed: Option<string>): string {
    if Truthy(mimeType) then mimeType.value
    else if Truthy(guessed) then guessed.value
    else DefaultMime
  }

  /** The store after `upload_file`: the first same-named file in the
      parent (of any type) gets the new content, or a new file is added. */
  function Upserted(files: seq<DriveFile>, name: string, pid: string, mime: string, data: Bytes, newId: string): seq<DriveFile> {
    var existing := FirstMatch(files, name, pid, false);
    if existing.Some? then files[existing.value := files[existing.value].(data := data)]
    else files + [DriveFile(newId, name, mime, [pid], false, data)]
  }

  /** After an upload, looking the name up in the parent finds the new
      content; the update case keeps the file's id, every other file is
      untouched, and no file is added. */
  lemma UpsertedFinds(files: seq<DriveFile>, name: string, pid: string, mime: string, data: Bytes, newId: string)
    ensures var after := Upserted(files, name, pid, mime, data, newId);
      var m := FirstMatch(after, name, pid, false);
      && m.Some? && after[m.value].data == data
      && (FirstMatch(files, name, pid, false).Some? ==>
            |after| == |files| && m == FirstMatch(files, name, pid, false) && after[m.value].id == files[m.value].id
            && forall i :: 0 <= i < |files| && i != m.value ==> after[i] == files[i])
      && (FirstMatch(files, name, pid, false).None? ==>
            after == files + [DriveFile(newId, name, mime, [pid], false, data)])
  {
    var after := Upserted(files, name, pid, mime, data, newId);
    var e := FirstMatch(files, name, pid, false);
    if e.Some? {
      assert Matches(after[e.value], name, pid, false);
      FirstMatchUnique(after, name, pid, false, e.value);
    } else {
      assert Matches(after[|files|], name, pid, false);
      FirstMatchUnique(after, name, pid, false, |files|);
    }
  }

  /** The first match is the position of a matching file with none before it. */
  lemma FirstMatchUnique(files: seq<DriveFile>, name: string, pid: string, foldersOnly: bool, k: nat)
    requires k < |files| && Matches(files[k], name, pid, foldersOnly)
    requires forall i :: 0 <= i < k ==> !Matches(files[i], name, pid, foldersOnly)
    ensures FirstMatch(files, name, pid, foldersOnly) == Some(k)
  {
    var r := FirstMatch(files, name, pid, foldersOnly);
    assert r.Some?;
  }

  /** An upload under one name does not change what another name finds.
      (A file may sit in several parents, so the same name in another
      parent can be the very file the upload rewrote.) */
  lemma UpsertedKeepsOthers(files: seq<DriveFile>, name: string, pid: string, mime: string, data: Bytes, newId: string,
                            other: string, opid: string)
    requires other != name
    ensures var after := Upserted(files, name, pid, mime, data, newId);
      var before := FirstMatch(files, other, opid, false);
      before.Some? ==> FirstMatch(after, other, opid, false) == before && after[before.value].data == files[before.value].data
  {
    var after := Upserted(files, name, pid, mime, data, newId);
    var before := FirstMatch(files, other, opid, false);
    var e := FirstMatch(files, name, pid, false);
    if before.Some? {
      var k := before.value;
      if e.Some? {
        assert e.value != k;
        forall i | 0 <= i < k ensures !Matches(after[i], other, opid, false) {
          assert !Matches(files[i], other, opid, false);
        }
        FirstMatchUnique(after, other, opid, false, k);
      } else {
        FirstMatchUnique(after, other, opid, false, k);
      }
    }
  }

  /** What the adapter sees of Drive: the injected service handle
      (`_drive_service`, `None` until `set_drive_service` runs) and the
      files behind it, in listing order. */
  datatype Drive = Drive(service: Option<nat>, files: seq<DriveFile>)

  /** `_get_service()`: the handle, or `DriveDBError` before it was set. */
  function GetService(d: Drive): (r: Result<nat>)
    ensures r.Ok? <==> d.service.Some?
    ensures r.Ok? ==> d.service == Some(r.value)
    ensures r.Err? ==> r.error == DriveDBError(NotInitialized)
  {
    if d.service.None? then Err(DriveDBError(NotInitialized)) else Ok(d.service.value)
  }

  /** `list_files(mime_filter, parent_id)`, decorated: without a service
      every attempt fails and the decorator gives up. */
  function ListFiles(d: Drive, mimeFilter: Option<string>, parentId: Option<string>): Result<seq<DriveFile>> {
    if d.service.None? then Err(DriveDBError(NotInitializedAfterRetries("list_files", DefaultRetries)))
    else Ok(ListedFiles(d.files, ParentText(parentId), mimeFilter))
  }

  /** `download_file(file_id)`, decorated: the content of the file with
      that id. Drive answers an unknown id with status 404, which the
      decorator does not retry. */
  function DownloadFile(d: Drive, fileId: string): (r: Result<Bytes>)
    ensures r.Ok? ==> exists i :: 0 <= i < |d.files| && d.files[i].id == fileId && d.files[i].data == r.value
    ensures d.service.Some? && (forall i :: 0 <= i < |d.files| ==> d.files[i].id != fileId) ==> r == Err(HttpError(404))
  {
    if d.service.None? then Err(DriveDBError(NotInitializedAfterRetries("download_file", DefaultRetries)))
    else
      var i := FileWithId(d.files, fileId);
      if i.Some? then Ok(d.files[i.value].data) else Err(HttpError(404))
  }

  /** `find_folder(name, parent_id)`, decorated: the id of the first
      untrashed folder of that name in the parent. */
  function FindFolder(d: Drive, name: string, parentId: Option<string>): (r: Result<Option<string>>)
    ensures r.Ok? <==> d.service.Some?
    ensures r.Ok? && r.value.Some? ==>
      exists i :: 0 <= i < |d.files| && Matches(d.files[i], name, ParentText(parentId), true) && d.files[i].id == r.value.value
    ensures r.Ok? && r.value.None? ==>
      forall i :: 0 <= i < |d.files| ==> !Matches(d.files[i], name, ParentText(parentId), true)
  {
    if d.service.None? then Err(DriveDBError(NotInitializedAfterRetries("find_folder", DefaultRetries)))
    else
      var m := FirstMatch(d.files, name, ParentText(parentId), true);
      Ok(if m.Some? then Some(d.files[m.value].id) else None)
  }

  /** The folder `create_folder` adds. */
  function NewFolder(name: string, parentId: Option<string>, newId: string): DriveFile {
    DriveFile(newId, name, FolderMime, [ParentText(parentId)], false, [])
  }

  /** `create_folder(name, parent_id)`, decorated; `newId` is the id the
      service assigns. */
  function CreateFolderOn(d: Drive, name: string, parentId: Option<string>, newId: string): (Result<string>, Drive) {
    if d.service.None? then (Err(DriveDBError(NotInitializedAfterRetries("create_folder", DefaultRetries))), d)
    else (Ok(newId), d.(files := d.files + [NewFolder(name, parentId, newId)]))
  }

  /** `upload_file(name, data, mime_type, parent_id)`, decorated, with the
      `mimetypes` guess for the name as `guessed`. */
  function UploadFileOn(d: Drive, name: string, data: Bytes, mimeType: Option<string>, guessed: Option<string>,
                        parentId: Option<string>, newId: string): (Outcome, Drive) {
    if d.service.None? then (Raised(DriveDBError(NotInitializedAfterRetries("upload_file", DefaultRetries))), d)
    else (Done, d.(files := Upserted(d.files, name, ParentText(parentId), UploadMime(mimeType, guessed), data, newId)))
  }

  /** The `try: fid = find_folder(...) except DriveDBError: fid = None`
      step: a `DriveDBError` becomes "not found", anything else propagates. */
  function FolderChoice(found: Result<Option<string>>, findRaised: Option<Exc>): (r: Result<Option<string>>)
    ensures r.Err? ==> !r.error.DriveDBError?
    ensures findRaised.Some? && findRaised.value.DriveDBError? ==> r == Ok(None)
    ensures findRaised.None? && found.Ok? ==> r == found
  {
    var outcome := if findRaised.Some? then Err(findRaised.value) else found;
    if outcome.Err? && outcome.error.DriveDBError? then Ok(None) else outcome
  }

  /** `find_or_create_folder(name, parent_id)`: `fid or create_folder(...)`.
      `findRaised` is an exception the decorated `find_folder` raised for
      reasons outside the store (a `DriveDBError` after transient
      failures, or an `HttpError` it re-raised), if any. */
  function FindOrCreateFolderOn(d: Drive, name: string, parentId: Option<string>, findRaised: Option<Exc>,
                                newId: string): (Result<string>, Drive) {
    var found := FolderChoice(FindFolder(d, name, parentId), findRaised);
    if found.Err? then (Err(found.error), d)
    else if Truthy(found.value) then (Ok(found.value.value), d)
    else CreateFolderOn(d, name, parentId, newId)
  }

  /** `find_or_create_folder` succeeds only with a service; the id it
      returns names an untrashed folder of that name in the parent; it adds
      at most that one folder and touches nothing else; and it adds none
      when `find_folder` found a folder with a non-empty id. */
  lemma FindOrCreateFolderSpec(d: Drive, name: string, parentId: Option<string>, findRaised: Option<Exc>, newId: string)
    ensures var (r, after) := FindOrCreateFolderOn(d, name, parentId, findRaised, newId);
      && after.service == d.service
      && (r.Ok? ==> d.service.Some?)
      && (r.Ok? ==> exists i :: 0 <= i < |after.files| && Matches(after.files[i], name, ParentText(parentId), true)
                                 && after.files[i].id == r.value)
      && (after.files == d.files || after.files == d.files + [NewFolder(name, parentId, newId)])
      && (findRaised.None? && FindFolder(d, name, parentId).Ok? && Truthy(FindFolder(d, name, parentId).value) ==>
            after == d && r == Ok(FindFolder(d, name, parentId).value.value))
      && (r.Err? ==> after == d)
  {
    var (r, after) := FindOrCreateFolderOn(d, name, parentId, findRaised, newId);
    var found := FolderChoice(FindFolder(d, name, parentId), findRaised);
    if r.Ok? && found.Ok? && !Truthy(found.value) {
      assert Matches(after.files[|d.files|], name, ParentText(parentId), true);
    }
  }

  /** Creating a folder the parent did not have makes `find_folder` find it. */
  lemma CreateFolderFound(d: Drive, name: string, parentId: Option<string>, newId: string)
    requires d.service.Some?
    requires FindFolder(d, name, parentId) == Ok(None)
    ensures FindFolder(CreateFolderOn(d, name, parentId, newId).1, name, parentId) == Ok(Some(newId))
  {
    var after := CreateFolderOn(d, name, parentId, newId).1;
    FirstMatchUnique(after.files, name, ParentText(parentId), true, |d.files|);
  }

  /** The Drive the adapter talks to, updated in place by its operations. */
  class DriveStore {
    /** `_drive_service` */
    var service: Option<nat>
    var files: seq<DriveFile>

    function State(): Drive
      reads this
    {
      Drive(service, files)
    }

    constructor ()
      ensures State() == Drive(None, [])
    {
      service := None;
      files := [];
    }

    /** `set_drive_service(svc)`. */
    method SetDriveService(svc: Option<nat>)
      modifies this
      ensures State() == Drive(svc, old(files))
    {
      service := svc;
    }

    method CreateFolder(name: string, parentId: Option<string>, newId: string) returns (r: Result<string>)
      modifies this
      ensures (r, State()) == CreateFolderOn(old(State()), name, parentId, newId)
    {
      if service.None? {
        return Err(DriveDBError(NotInitializedAfterRetries("create_folder", DefaultRetries)));
      }
      files := files + [NewFolder(name, parentId, newId)];
      r := Ok(newId);
    }

    /** Updates the first same-named file in the parent, or adds one. */
    method UploadFile(name: string, data: Bytes, mimeType: Option<string>, guessed: Option<string>,
                      parentId: Option<string>, newId: string) returns (r: Outcome)
      modifies this
      ensures (r, State()) == UploadFileOn(old(State()), name, data, mimeType, guessed, parentId, newId)
    {
      if service.None? {
        return Raised(DriveDBError(NotInitializedAfterRetries("upload_file", DefaultRetries)));
      }
      var pid := ParentText(parentId);
      var existing := FirstMatch(files, name, pid, false);
      if existing.Some? {
        files := files[existing.value := files[existing.value].(data := data)];
      } else {
        files := files + [DriveFile(newId, name, UploadMime(mimeType, guessed), [pid], false, data)];
      }
      r := Done;
    }

    method FindOrCreateFolder(name: string, parentId: Option<string>, findRaised: Option<Exc>, newId: string)
      returns (r: Result<string>)
      modifies this
      ensures (r, State()) == FindOrCreateFolderOn(old(State()), name, parentId, findRaised, newId)
    {
      var found := FolderChoice(FindFolder(State(), name, parentId), findRaised);
      if found.Err? {
        return Err(found.error);
      }
      var fid := found.value;
      if Truthy(fid) {
        return Ok(fid.value);
      }
      r := CreateFolder(name, parentId, newId);
    }
  }
}
