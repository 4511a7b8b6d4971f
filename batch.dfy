/** The batch drivers: the row loops of frontend/app.py, main.py and app.py,
    with image-URL extraction from a CSV row, the row key, and the lookup
    in the images JSON side table. A table is the already-parsed CSV (column
    names after `strip`, each cell as `str()` gives it); generation, upload
    and the memory probe are parameters. */
module Batch {
  import opened Common
  import opened Text
  import opened ImagesJson
  import opened Cache

  // ---------------------------------------------------------------------
  // Table
  // ---------------------------------------------------------------------

  /** One CSV row: the four required columns and every cell by column. */
  datatype Row = Row(listingId: string, productId: string, title: string, description: string,
                     cells: map<string, string>)

  /** The parsed CSV and the (validated) images JSON list; the JSON list is
      empty when no file was uploaded. */
  datatype Table = Table(columns: seq<string>, rows: seq<Row>, imagesData: seq<Json>)

  /** `row.get(column, "")`. */
  function Cell(row: Row, column: string): string {
    if column in row.cells then row.cells[column] else ""
  }

  /** `f"{lid}_{pid}"`: the row's output sub-folder and slug. */
  function SubFolder(row: Row): string {
    row.listingId + "_" + row.productId
  }

  // ---------------------------------------------------------------------
  // The image-URL column
  // ---------------------------------------------------------------------

  /** `"image" in c.lower() and "url" in c.lower()`. */
  predicate IsImageUrlHeader(h: string) {
    Contains(Lower(h), "image") && Contains(Lower(h), "url")
  }

  /** Position of the first column whose name qualifies. */
  function FirstImageIndex(columns: seq<string>): (r: Option<nat>)
    ensures r.Some? ==> r.value < |columns| && IsImageUrlHeader(columns[r.value])
    ensures r.Some? ==> forall j :: 0 <= j < r.value ==> !IsImageUrlHeader(columns[j])
    ensures r.None? ==> forall j :: 0 <= j < |columns| ==> !IsImageUrlHeader(columns[j])
  {
    if columns == [] then None
    else if IsImageUrlHeader(columns[0]) then Some(0)
    else match FirstImageIndex(columns[1..])
      case None => None
      case Some(j) => Some(j + 1)
  }

  /** The last column whose lower-cased name equals that of column `i`. */
  function LastSameLower(columns: seq<string>, i: nat): (j: nat)
    requires i < |columns|
    ensures i <= j < |columns| && Lower(columns[j]) == Lower(columns[i])
    ensures forall k :: j < k < |columns| ==> Lower(columns[k]) != Lower(columns[i])
    decreases |columns|
  {
    var last := |columns| - 1;
    if last == i || Lower(columns[last]) == Lower(columns[i]) then last
    else LastSameLower(columns[..last], i)
  }

  /** `next((c for c in df.columns if …), None)` of app.py: the first
      qualifying column itself. */
  function AppImageColumn(columns: seq<string>): (r: Option<string>)
    ensures r.Some? ==> r.value in columns && IsImageUrlHeader(r.value)
    ensures r.None? <==> forall j :: 0 <= j < |columns| ==> !IsImageUrlHeader(columns[j])
  {
    match FirstImageIndex(columns)
    case None => None
    case Some(i) => Some(columns[i])
  }

  /** `col_map = {c.lower(): c for c in df_columns}` then the first key of
      `col_map` that qualifies, mapped back: the dictionary keeps the
      lower-cased names in order of first appearance and maps each to the
      LAST column spelled that way. */
  function ColMapImageColumn(columns: seq<string>): (r: Option<string>)
    ensures r.Some? ==> r.value in columns && IsImageUrlHeader(r.value)
    ensures r.None? <==> forall j :: 0 <= j < |columns| ==> !IsImageUrlHeader(columns[j])
  {
    match FirstImageIndex(columns)
    case None => None
    case Some(i) => Some(columns[LastSameLower(columns, i)])
  }

  /** Two headers that differ only in case: the frontend and main.py read
      the second, app.py the first. */
  lemma CaseVariantHeaders(a: string, b: string)
    requires IsImageUrlHeader(a) && Lower(a) == Lower(b)
    ensures ColMapImageColumn([a, b]) == Some(b)
    ensures AppImageColumn([a, b]) == Some(a)
  {
    assert LastSameLower([a, b], 0) == 1;
  }

  // ---------------------------------------------------------------------
  // The single-escaped filter: re.search(r"\.(png|jpe?g)(\?|$)", u, re.I)
  // ---------------------------------------------------------------------

  /** `ext` (lower case) occurs at `j`, ignoring ASCII case. */
  predicate ExtIs(u: string, j: int, ext: string) {
    0 <= j && j + |ext| <= |u| && forall k :: 0 <= k < |ext| ==> LowerChar(u[j + k]) == ext[k]
  }

  /** `ext` at `j`, then `?` or the end of the piece. */
  predicate ExtEndsAt(u: string, j: int, ext: string) {
    ExtIs(u, j, ext) && (j + |ext| == |u| || u[j + |ext|] == '?')
  }

  /** `.` at `i`, then `ext`, then `?` or the end. */
  predicate DotExtAt(u: string, i: int, ext: string) {
    0 <= i < |u| && u[i] == '.' && ExtEndsAt(u, i + 1, ext)
  }

  /** The pattern matches starting at `i`: `jpe?g` is `jpg` or `jpeg`. */
  predicate MatchAt(u: string, i: int) {
    DotExtAt(u, i, "png") || DotExtAt(u, i, "jpg") || DotExtAt(u, i, "jpeg")
  }

  /** `re.search` finds the pattern somewhere in the piece. Pieces never
      hold a newline, so `$` is the end of the piece. */
  predicate LooksLikeImageUrl(u: string) {
    exists i :: 0 <= i < |u| && MatchAt(u, i)
  }

  predicate IsUrlSeparator(c: char) {
    c == ',' || c == '\n' || c == ';'
  }

  predicate NoSeparator(p: string) {
    forall j :: 0 <= j < |p| ==> !IsUrlSeparator(p[j])
  }

  /** `re.split(r"[,\n;]", raw)`. */
  function SplitUrls(s: string): (r: seq<string>)
    ensures |r| >= 1
    ensures forall k :: 0 <= k < |r| ==> NoSeparator(r[k])
  {
    if s == [] then [""]
    else
      var rest := SplitUrls(s[1..]);
      if IsUrlSeparator(s[0]) then [""] + rest
      else
        assert NoSeparator(rest[0]);
        [[s[0]] + rest[0]] + rest[1..]
  }

  /** `[u.strip() for u in pieces if re.search(…, u, re.I)]`: the test
      sees the piece before it is stripped. */
  function KeepImageUrls(pieces: seq<string>): (r: seq<string>)
    ensures |r| <= |pieces|
  {
    if pieces == [] then []
    else (if LooksLikeImageUrl(pieces[0]) then [Strip(pieces[0])] else []) + KeepImageUrls(pieces[1..])
  }

  /** `extract_image_urls_from_row` of frontend/app.py and main.py (the two
      are the same code). */
  function ExtractImageUrlsFromRow(row: Row, columns: seq<string>): (r: seq<string>)
    ensures (forall j :: 0 <= j < |columns| ==> !IsImageUrlHeader(columns[j])) ==> r == []
  {
    match ColMapImageColumn(columns)
    case None => []
    case Some(c) => KeepImageUrls(SplitUrls(Cell(row, c)))
  }

  lemma StripEnds(s: string)
    ensures var t := Strip(s); t != [] ==> !IsSpace(t[0]) && !IsSpace(t[|t| - 1])
  {
    var x := TrimLeft(s, IsSpace);
    var t := TrimRight(x, IsSpace);
    if t != [] {
      assert t[0] == x[0];
    }
  }

  /** A slice that keeps the dot, the extension and the `?` after it
      keeps the match. */
  lemma SliceKeeps(u: string, i: int, ext: string, a: int, b: int)
    requires DotExtAt(u, i, ext) && 0 <= a <= i
    requires i + 1 + |ext| <= b <= |u|
    requires i + 1 + |ext| < |u| ==> i + 1 + |ext| < b
    ensures DotExtAt(u[a..b], i - a, ext)
  {
    var x := u[a..b];
    forall k | 0 <= k < |ext|
      ensures LowerChar(x[i - a + 1 + k]) == ext[k]
    {
      assert x[i - a + 1 + k] == u[i + 1 + k];
    }
    var e := i + 1 + |ext|;
    if e < |u| {
      assert x[e - a] == u[e];
    }
  }

  /** The dot, a letter and `?` are not whitespace. */
  lemma NotSpace(c: char)
    requires c == '.' || c == '?' || IsAsciiLower(LowerChar(c))
    ensures !IsSpace(c)
  {
  }

  /** Leading whitespace comes before the dot, so dropping it keeps the
      match. */
  lemma {:induction false} TrimLeftKeepsMatch(u: string, i: int, ext: string) returns (j: int)
    requires DotExtAt(u, i, ext)
    ensures DotExtAt(TrimLeft(u, IsSpace), j, ext)
    decreases |u|
  {
    if u != [] && IsSpace(u[0]) {
      NotSpace(u[i]);
      SliceKeeps(u, i, ext, 1, |u|);
      assert u[1..|u|] == u[1..];
      j := TrimLeftKeepsMatch(u[1..], i - 1, ext);
    } else {
      j := i;
    }
  }

  /** Trailing whitespace comes after the extension and its `?`, so
      dropping it keeps the match. */
  lemma {:induction false} TrimRightKeepsMatch(x: string, i: int, ext: string)
    requires DotExtAt(x, i, ext) && ext != [] && IsAsciiLower(ext[|ext| - 1])
    ensures DotExtAt(TrimRight(x, IsSpace), i, ext)
    decreases |x|
  {
    if x != [] && IsSpace(x[|x| - 1]) {
      var e := i + 1 + |ext|;
      assert LowerChar(x[e - 1]) == ext[|ext| - 1];
      NotSpace(x[e - 1]);
      assert e < |x|;
      NotSpace(x[e]);
      SliceKeeps(x, i, ext, 0, |x| - 1);
      assert x[0..|x| - 1] == x[..|x| - 1];
      TrimRightKeepsMatch(x[..|x| - 1], i, ext);
    }
  }

  /** One matching extension survives `strip`, shifted by the leading
      whitespace removed. */
  lemma StripKeepsDotExt(u: string, i: int, ext: string) returns (j: int)
    requires DotExtAt(u, i, ext) && ext != [] && IsAsciiLower(ext[|ext| - 1])
    ensures DotExtAt(Strip(u), j, ext)
  {
    j := TrimLeftKeepsMatch(u, i, ext);
    TrimRightKeepsMatch(TrimLeft(u, IsSpace), j, ext);
  }

  /** A piece the filter keeps still matches once stripped. */
  lemma StripKeepsMatch(u: string)
    requires LooksLikeImageUrl(u)
    ensures LooksLikeImageUrl(Strip(u))
  {
    var i :| 0 <= i < |u| && MatchAt(u, i);
    var t := Strip(u);
    var j: int;
    if DotExtAt(u, i, "png") {
      j := StripKeepsDotExt(u, i, "png");
    } else if DotExtAt(u, i, "jpg") {
      j := StripKeepsDotExt(u, i, "jpg");
    } else {
      j := StripKeepsDotExt(u, i, "jpeg");
    }
    assert MatchAt(t, j);
  }

  /** A URL as the extraction returns it: matching, without surrounding
      whitespace. */
  predicate CleanUrl(u: string) {
    LooksLikeImageUrl(u) && u != [] && !IsSpace(u[0]) && !IsSpace(u[|u| - 1])
  }

  /** Every URL extracted matches the pattern and carries no surrounding
      whitespace. */
  lemma {:induction false} ExtractedAreImageUrls(pieces: seq<string>)
    ensures forall u :: u in KeepImageUrls(pieces) ==> CleanUrl(u)
  {
    if pieces != [] {
      ExtractedAreImageUrls(pieces[1..]);
      var rest := KeepImageUrls(pieces[1..]);
      assert forall u :: u in rest ==> CleanUrl(u);
      if LooksLikeImageUrl(pieces[0]) {
        var t := Strip(pieces[0]);
        StripKeepsMatch(pieces[0]);
        StripEnds(pieces[0]);
        assert CleanUrl(t);
        assert KeepImageUrls(pieces) == [t] + rest;
      } else {
        assert KeepImageUrls(pieces) == rest;
      }
    }
  }

  /** The filter keeps exactly the matching pieces, stripped, and nothing
      else. */
  lemma {:induction false} KeepImageUrlsExact(pieces: seq<string>)
    ensures forall p :: p in pieces && LooksLikeImageUrl(p) ==> Strip(p) in KeepImageUrls(pieces)
    ensures forall u :: u in KeepImageUrls(pieces) ==> exists p :: p in pieces && LooksLikeImageUrl(p) && u == Strip(p)
  {
    if pieces != [] {
      KeepImageUrlsExact(pieces[1..]);
      assert forall p :: p in pieces ==> p == pieces[0] || p in pieces[1..];
    }
  }

  /** A cell with one URL and no separator yields that URL, stripped. */
  lemma OneUrlCell(row: Row, columns: seq<string>, c: string)
    requires ColMapImageColumn(columns) == Some(c)
    requires NoSeparator(Cell(row, c)) && LooksLikeImageUrl(Cell(row, c))
    ensures ExtractImageUrlsFromRow(row, columns) == [Strip(Cell(row, c))]
  {
    var s := Cell(row, c);
    SingleSplit(s);
  }

  lemma {:induction false} SingleSplit(s: string)
    requires NoSeparator(s)
    ensures SplitUrls(s) == [s]
  {
    if s != [] {
      SingleSplit(s[1..]);
      assert [s[0]] + s[1..] == s;
    }
  }

  /** A piece ending in whitespace and holding no `?` cannot end an
      extension match. */
  lemma SpaceEndBlocks(u: string, j: int, ext: string)
    requires ext != [] && IsAsciiLower(ext[|ext| - 1])
    requires u != [] && IsSpace(u[|u| - 1])
    requires forall k :: 0 <= k < |u| ==> u[k] != '?'
    ensures !ExtEndsAt(u, j, ext)
  {
    var k := |ext| - 1;
    assert LowerChar(u[|u| - 1]) != ext[k];
  }

  /** The filter runs before `strip`: a URL followed by trailing
      whitespace (and no `?`) is dropped, while the same URL without the
      whitespace is kept. */
  lemma TrailingSpaceDropsUrl(w: string, c: char)
    requires IsSpace(c) && '?' !in w
    ensures !LooksLikeImageUrl(w + ".jpg" + [c])
    ensures LooksLikeImageUrl(w + ".jpg")
  {
    var u := w + ".jpg" + [c];
    assert u[|u| - 1] == c && LowerChar(c) == c;
    assert forall j :: 0 <= j < |w| ==> u[j] == w[j];
    assert u[|w|..|w| + 4] == ".jpg";
    assert forall j :: 0 <= j < |u| ==> u[j] != '?';
    forall i | 0 <= i < |u|
      ensures !MatchAt(u, i)
    {
      SpaceEndBlocks(u, i + 1, "png");
      SpaceEndBlocks(u, i + 1, "jpg");
      SpaceEndBlocks(u, i + 1, "jpeg");
    }
    var v := w + ".jpg";
    assert v[|w|] == '.' && v[|w| + 1] == 'j' && v[|w| + 2] == 'p' && v[|w| + 3] == 'g';
    assert DotExtAt(v, |w|, "jpg");
    assert MatchAt(v, |w|);
  }

  // ---------------------------------------------------------------------
  // The double-escaped filter of app.py
  // ---------------------------------------------------------------------

  /** `.png`, `.jpg` or `.jpeg` after any one character; what follows does
      not matter. */
  predicate AppMatchAt(u: string, i: int) {
    && 0 <= i && i + 1 < |u|
    && u[i] == '\\' && u[i + 1] != '\n'
    && (ExtIs(u, i + 2, "png") || ExtIs(u, i + 2, "jpg") || ExtIs(u, i + 2, "jpeg"))
  }

  /** `re.search(r"\\.(png|jpe?g)(\\?|$)", u, re.I)` as app.py writes it:
      the raw string makes `\\` a literal backslash and `.` any character
      but a newline, and the last group always matches the empty string. */
  predicate AppKeepsPiece(u: string) {
    exists i :: 0 <= i < |u| && AppMatchAt(u, i)
  }

  /** app.py's CSV fallback as written: split on `,`, keep the pieces the
      double-escaped pattern finds, strip them. */
  function AppCsvUrlsAsWritten(cell: string): seq<string> {
    AppKeepUrls(SplitOn(cell, ','))
  }

  function AppKeepUrls(pieces: seq<string>): seq<string> {
    if pieces == [] then []
    else (if AppKeepsPiece(pieces[0]) then [Strip(pieces[0])] else []) + AppKeepUrls(pieces[1..])
  }

  /** As written, app.py keeps no piece without a backslash, so an
      ordinary URL list yields no URLs at all. */
  lemma {:induction false} AppFilterRejectsPlainUrls(cell: string)
    requires '\\' !in cell
    ensures AppCsvUrlsAsWritten(cell) == []
  {
    var pieces := SplitOn(cell, ',');
    SplitOnSubstrings(cell, ',');
    AppKeepUrlsNoBackslash(pieces);
  }

  lemma {:induction false} AppKeepUrlsNoBackslash(pieces: seq<string>)
    requires forall k :: 0 <= k < |pieces| ==> '\\' !in pieces[k]
    ensures AppKeepUrls(pieces) == []
  {
    if pieces != [] {
      var p := pieces[0];
      assert '\\' !in p;
      assert !AppKeepsPiece(p) by {
        forall i | 0 <= i < |p|
          ensures !AppMatchAt(p, i)
        {
          assert p[i] in p;
        }
      }
      AppKeepUrlsNoBackslash(pieces[1..]);
    }
  }

  /** The pieces of `s.split(sep)` only hold characters of `s`. */
  lemma {:induction false} SplitOnSubstrings(s: string, sep: char)
    ensures forall k, c :: 0 <= k < |SplitOn(s, sep)| && c in SplitOn(s, sep)[k] ==> c in s
  {
    if s != [] {
      SplitOnSubstrings(s[1..], sep);
      assert forall c :: c in s[1..] ==> c in s;
    }
  }

  /** The intended filter (the single-escaped pattern that
      frontend/app.py and main.py use) with app.py's comma split. */
  function AppCsvUrls(cell: string): (r: seq<string>)
    ensures forall u :: u in r ==> CleanUrl(u)
  {
    ExtractedAreImageUrls(SplitOn(cell, ','));
    KeepImageUrls(SplitOn(cell, ','))
  }

  /** Which CSV filter app.py's loop applies: line 254 as written, or the
      single-escaped pattern it evidently means. */
  datatype CsvFilter = AsWritten | Intended

  function AppCsvFilter(filter: CsvFilter, cell: string): seq<string> {
    if filter.AsWritten? then AppCsvUrlsAsWritten(cell) else AppCsvUrls(cell)
  }

  /** With the intended pattern a plain `name.jpg` is kept, where the
      as-written app.py filter drops it. */
  lemma PlainImageUrlKept(w: string)
    requires ',' !in w && '\\' !in w && '?' !in w
    ensures AppCsvUrls(w + ".jpg") == [Strip(w + ".jpg")]
    ensures AppCsvUrlsAsWritten(w + ".jpg") == []
  {
    var v := w + ".jpg";
    TrailingSpaceDropsUrl(w, ' ');
    assert ',' !in v by {
      assert forall c :: c in v ==> c in w || c in ".jpg";
    }
    assert '\\' !in v by {
      assert forall c :: c in v ==> c in w || c in ".jpg";
    }
    SplitOnWithout(v, ',');
    AppFilterRejectsPlainUrls(v);
  }

  // ---------------------------------------------------------------------
  // Row key and the JSON side table
  // ---------------------------------------------------------------------

  /** `(int(lid), int(pid))` when both ids are digit strings, else the
      pair of strings. */
  datatype RowKey = IdKey(listing: nat, product: nat) | TextKey(lid: string, pid: string)

  function KeyOf(lid: string, pid: string): RowKey {
    if IsDecimal(lid) && IsDecimal(pid) then IdKey(DecimalValue(lid), DecimalValue(pid))
    else TextKey(lid, pid)
  }

  lemma {:induction false} DecimalLeadingZero(s: string)
    requires forall i :: 0 <= i < |s| ==> IsAsciiDigit(s[i])
    ensures DecimalValue("0" + s) == DecimalValue(s)
    decreases |s|
  {
    if s != [] {
      var t := "0" + s;
      assert t[..|t| - 1] == "0" + s[..|s| - 1];
      DecimalLeadingZero(s[..|s| - 1]);
    } else {
      assert ("0" + s)[..0] == [];
    }
  }

  /** `int()` drops leading zeros, so `"007"` and `"7"` name the same
      product. */
  lemma KeyIgnoresLeadingZeros(lid: string, pid: string)
    requires IsDecimal(lid) && IsDecimal(pid)
    ensures KeyOf("0" + lid, pid) == KeyOf(lid, pid)
  {
    DecimalLeadingZero(lid);
    assert IsDecimal("0" + lid);
  }

  predicate ImageObject(j: Json) {
    j.JObj? && "imageURL" in j.fields && j.fields["imageURL"].JStr?
  }

  /** What the lookup indexes into: numeric ids and image objects with a
      string `imageURL`; every validated entry is of this shape. */
  predicate Indexable(e: Json) {
    && e.JObj?
    && "listingId" in e.fields && e.fields["listingId"].JNum?
    && "productId" in e.fields && e.fields["productId"].JNum?
    && "images" in e.fields && e.fields["images"].JArr?
    && forall k :: 0 <= k < |e.fields["images"].items| ==> ImageObject(e.fields["images"].items[k])
  }

  predicate AllIndexable(data: seq<Json>) {
    forall k :: 0 <= k < |data| ==> Indexable(data[k])
  }

  lemma ValidEntryIndexable(e: Json, isUri: string -> bool)
    requires ValidEntry(e, isUri)
    ensures Indexable(e)
  {
    var imgs := e.fields["images"].items;
    forall k | 0 <= k < |imgs|
      ensures ImageObject(imgs[k])
    {
      assert ValidImage(imgs[k], isUri);
    }
  }

  /** `(entry["listingId"], entry["productId"]) == key`: a string key
      never equals a pair of JSON numbers. */
  predicate KeyMatches(e: Json, key: RowKey)
    requires Indexable(e)
  {
    key.IdKey? && e.fields["listingId"].n == key.listing && e.fields["productId"].n == key.product
  }

  /** `[img["imageURL"] for img in entry["images"]]`. */
  function EntryUrls(e: Json): (r: seq<string>)
    requires Indexable(e)
    ensures |r| == |e.fields["images"].items|
  {
    var imgs := e.fields["images"].items;
    seq(|imgs|, k requires 0 <= k < |imgs| && ImageObject(imgs[k]) => imgs[k].fields["imageURL"].s)
  }

  /** The URLs of the first entry whose ids equal the key, or none. */
  function JsonUrls(data: seq<Json>, key: RowKey): seq<string>
    requires AllIndexable(data)
  {
    if data == [] then []
    else if KeyMatches(data[0], key) then EntryUrls(data[0])
    else JsonUrls(data[1..], key)
  }

  /** The first matching entry decides, whatever follows it. */
  lemma {:induction false} JsonUrlsFirstMatch(data: seq<Json>, key: RowKey, i: nat)
    requires AllIndexable(data)
    requires i < |data| && KeyMatches(data[i], key)
    requires forall j :: 0 <= j < i ==> !KeyMatches(data[j], key)
    ensures JsonUrls(data, key) == EntryUrls(data[i])
  {
    if i > 0 {
      JsonUrlsFirstMatch(data[1..], key, i - 1);
    }
  }

  /** No matching entry gives no URLs. */
  lemma {:induction false} JsonUrlsNoMatch(data: seq<Json>, key: RowKey)
    requires AllIndexable(data)
    requires forall j :: 0 <= j < |data| ==> !KeyMatches(data[j], key)
    ensures JsonUrls(data, key) == []
  {
    if data != [] {
      JsonUrlsNoMatch(data[1..], key);
    }
  }

  /** A row whose ids are not both digit strings never finds its entry. */
  lemma TextKeyNeverMatches(data: seq<Json>, lid: string, pid: string)
    requires AllIndexable(data)
    requires !(IsDecimal(lid) && IsDecimal(pid))
    ensures JsonUrls(data, KeyOf(lid, pid)) == []
  {
    JsonUrlsNoMatch(data, KeyOf(lid, pid));
  }

  /** The inner `for entry in images_data` loop with its `break`. */
  method LookupUrls(data: seq<Json>, key: RowKey) returns (urls: seq<string>)
    requires AllIndexable(data)
    ensures urls == JsonUrls(data, key)
  {
    urls := [];
    var i := 0;
    while i < |data|
      invariant 0 <= i <= |data|
      invariant JsonUrls(data, key) == JsonUrls(data[i..], key)
    {
      if KeyMatches(data[i], key) {
        urls := EntryUrls(data[i]);
        return;
      }
      assert data[i..][1..] == data[i + 1..];
      i := i + 1;
    }
  }

  /** What a row of the frontend or main.py loop works with: the JSON
      table when it is non-empty (no CSV fallback), else the CSV cell. */
  function RowUrls(t: Table, row: Row): seq<string>
    requires AllIndexable(t.imagesData)
  {
    if t.imagesData != [] then JsonUrls(t.imagesData, KeyOf(row.listingId, row.productId))
    else ExtractImageUrlsFromRow(row, t.columns)
  }

  /** app.py's row URLs: JSON first, else the first qualifying column,
      through the given CSV filter. */
  function AppRowUrls(t: Table, row: Row, filter: CsvFilter): seq<string>
    requires AllIndexable(t.imagesData)
  {
    if t.imagesData != [] then JsonUrls(t.imagesData, KeyOf(row.listingId, row.productId))
    else match AppImageColumn(t.columns)
      case None => []
      case Some(c) => AppCsvFilter(filter, Cell(row, c))
  }

  /** With a JSON table the CSV cells and columns play no part. */
  lemma JsonTakesPrecedence(t: Table, row: Row, columns: seq<string>, cells: map<string, string>, filter: CsvFilter)
    requires AllIndexable(t.imagesData) && t.imagesData != []
    ensures RowUrls(t, row) == RowUrls(t.(columns := columns), row.(cells := cells))
    ensures AppRowUrls(t, row, filter) == AppRowUrls(t.(columns := columns), row.(cells := cells), filter)
    ensures RowUrls(t, row) == AppRowUrls(t, row, filter)
  {
  }

  // ---------------------------------------------------------------------
  // What a row loop does: events, uploads, how it ends
  // ---------------------------------------------------------------------

  /** Why a row was passed over. */
  datatype Skip = NoUrls | NoText

  /** What happened to one row. */
  datatype Event =
    | Skipped(sub: string, why: Skip)
    | Produced(sub: string, cacheHit: bool)
    | Failed(sub: string)

  /** How a loop ended: past the last row, by the breaker's `break`, or by
      an exception that left the loop (caught around it and reported, or
      propagated). */
  datatype End = Finished | Tripped | Aborted(error: Exc)

  /** The row events in order, the sub-folders handed to the upload helper
      in order, and the end. */
  datatype Report = Report(events: seq<Event>, uploads: seq<string>, end: End)

  /** Some rows' events and uploads, followed by the rest of the run. */
  function Then(evs: seq<Event>, ups: seq<string>, r: Report): (q: Report)
    ensures q.end == r.end && |q.events| == |evs| + |r.events|
  {
    Report(evs + r.events, ups + r.uploads, r.end)
  }

  lemma ThenNothing(r: Report)
    ensures Then([], [], r) == r
  {
    assert [] + r.events == r.events;
    assert [] + r.uploads == r.uploads;
  }

  lemma ThenThen(e1: seq<Event>, u1: seq<string>, e2: seq<Event>, u2: seq<string>, r: Report)
    ensures Then(e1, u1, Then(e2, u2, r)) == Then(e1 + e2, u1 + u2, r)
  {
    assert e1 + (e2 + r.events) == (e1 + e2) + r.events;
    assert u1 + (u2 + r.uploads) == (u1 + u2) + r.uploads;
  }

  /** The sub-folders of the rows produced without a cache hit. */
  function MissSubs(evs: seq<Event>): seq<string> {
    if evs == [] then []
    else (if evs[0].Produced? && !evs[0].cacheHit then [evs[0].sub] else []) + MissSubs(evs[1..])
  }

  lemma {:induction false} MissSubsAppend(a: seq<Event>, b: seq<Event>)
    ensures MissSubs(a + b) == MissSubs(a) + MissSubs(b)
  {
    if a != [] {
      assert (a + b)[1..] == a[1..] + b;
      MissSubsAppend(a[1..], b);
    } else {
      assert a + b == b;
    }
  }

  /** Every upload is the upload of a miss, one per miss, in order. */
  predicate UploadsAreMisses(r: Report) {
    r.uploads == MissSubs(r.events)
  }

  lemma UploadsAreMissesThen(evs: seq<Event>, ups: seq<string>, r: Report)
    requires ups == MissSubs(evs) && UploadsAreMisses(r)
    ensures UploadsAreMisses(Then(evs, ups, r))
  {
    MissSubsAppend(evs, r.events);
  }

  function FailedCount(evs: seq<Event>): nat {
    if evs == [] then 0 else (if evs[0].Failed? then 1 else 0) + FailedCount(evs[1..])
  }

  lemma {:induction false} FailedCountAppend(a: seq<Event>, b: seq<Event>)
    ensures FailedCount(a + b) == FailedCount(a) + FailedCount(b)
  {
    if a != [] {
      assert (a + b)[1..] == a[1..] + b;
      FailedCountAppend(a[1..], b);
    } else {
      assert a + b == b;
    }
  }

  predicate NoneProduced(evs: seq<Event>) {
    forall k :: 0 <= k < |evs| ==> !evs[k].Produced?
  }

  /** The failure streak after `evs`, starting from `c`: a failure adds
      one, a produced row resets it, a skipped row leaves it. */
  function Streak(evs: seq<Event>, c: nat): nat {
    if evs == [] then c
    else if evs[0].Failed? then Streak(evs[1..], c + 1)
    else if evs[0].Produced? then Streak(evs[1..], 0)
    else Streak(evs[1..], c)
  }

  /** A row goes to generation: it has URLs, a title and a description. */
  predicate Eligible(t: Table, row: Row)
    requires AllIndexable(t.imagesData)
  {
    RowUrls(t, row) != [] && row.title != "" && row.description != ""
  }

  /** The number of rows from `i` on that go to generation. */
  function EligibleFrom(t: Table, i: nat): nat
    requires AllIndexable(t.imagesData)
    decreases |t.rows| - i
  {
    if i >= |t.rows| then 0
    else (if Eligible(t, t.rows[i]) then 1 else 0) + EligibleFrom(t, i + 1)
  }

  // ---------------------------------------------------------------------
  // frontend/app.py: the batch loop with the consecutive-failure breaker
  // ---------------------------------------------------------------------

  const MaxFails := 3

  /** What the frontend loop consults: the memory probe before row `i`
      (`monitor_memory` raises `MemoryError` when memory is high), the
      `generate_video` call of a row (its cache-hit flag, or what it
      raises) and the upload of a sub-folder. */
  datatype FrontendEnv = FrontendEnv(memoryHigh: nat -> bool, generate: (Row, seq<string>) -> Result<bool>,
                                     upload: string -> Outcome)

  /** The frontend loop from row `i` on. `counter` is the module-level
      `consecutive_failures`: `None` until a success first binds it. */
  function FrontendFrom(t: Table, i: nat, counter: Option<nat>, env: FrontendEnv): Report
    requires AllIndexable(t.imagesData)
    decreases |t.rows| - i
  {
    if i >= |t.rows| then Report([], [], Finished)
    else if env.memoryHigh(i) then Report([], [], Aborted(MemoryError))
    else
      var row := t.rows[i];
      var sub := SubFolder(row);
      var urls := RowUrls(t, row);
      if urls == [] then Then([Skipped(sub, NoUrls)], [], FrontendFrom(t, i + 1, counter, env))
      else if row.title == "" || row.description == "" then
        Then([Skipped(sub, NoText)], [], FrontendFrom(t, i + 1, counter, env))
      else match env.generate(row, urls)
        case Ok(hit) =>
          if hit then Then([Produced(sub, true)], [], FrontendFrom(t, i + 1, Some(0), env))
          else (match env.upload(sub)
            case Done => Then([Produced(sub, false)], [sub], FrontendFrom(t, i + 1, Some(0), env))
            case Raised(e) => Report([Produced(sub, false)], [sub], Aborted(e)))
        case Err(e) =>
          if !e.GenerationError? then Report([], [], Aborted(e))
          else match counter
            case None => Report([Failed(sub)], [], Aborted(NameError("consecutive_failures")))
            case Some(c) =>
              if c + 1 >= MaxFails then Report([Failed(sub)], [], Tripped)
              else Then([Failed(sub)], [], FrontendFrom(t, i + 1, Some(c + 1), env))
  }

  /** One pass of the frontend loop body on row `i`: its events and
      uploads, then either the counter the next row sees or how the loop
      ends here. */
  method FrontendRow(t: Table, i: nat, counter: Option<nat>, env: FrontendEnv)
    returns (evs: seq<Event>, ups: seq<string>, next: Option<nat>, stop: Option<End>)
    requires AllIndexable(t.imagesData) && i < |t.rows|
    ensures stop.Some? ==> FrontendFrom(t, i, counter, env) == Report(evs, ups, stop.value)
    ensures stop.None? ==> FrontendFrom(t, i, counter, env) == Then(evs, ups, FrontendFrom(t, i + 1, next, env))
  {
    evs, ups, next, stop := [], [], counter, None;
    if env.memoryHigh(i) {
      stop := Some(Aborted(MemoryError));
      return;
    }
    var row := t.rows[i];
    var sub := row.listingId + "_" + row.productId;
    var urls: seq<string>;
    if t.imagesData != [] {
      urls := LookupUrls(t.imagesData, KeyOf(row.listingId, row.productId));
    } else {
      urls := ExtractImageUrlsFromRow(row, t.columns);
    }
    if urls == [] {
      evs := [Skipped(sub, NoUrls)];
    } else if row.title == "" || row.description == "" {
      evs := [Skipped(sub, NoText)];
    } else {
      var generated := env.generate(row, urls);
      if generated.Err? {
        if !generated.error.GenerationError? {
          stop := Some(Aborted(generated.error));
        } else if counter.None? {
          evs, stop := [Failed(sub)], Some(Aborted(NameError("consecutive_failures")));
        } else if counter.value + 1 >= MaxFails {
          evs, stop := [Failed(sub)], Some(Tripped);
        } else {
          evs, next := [Failed(sub)], Some(counter.value + 1);
        }
      } else if generated.value {
        evs, next := [Produced(sub, true)], Some(0);
      } else {
        evs, ups, next := [Produced(sub, false)], [sub], Some(0);
        var uploaded := env.upload(sub);
        if uploaded.Raised? {
          stop := Some(Aborted(uploaded.error));
        }
      }
    }
  }

  /** The row loop of frontend/app.py, inside its `try`. `initial` is the
      counter before the first row: `None` as written (the name is never
      bound before the loop), `Some(0)` once initialised. */
  method RunFrontendBatch(t: Table, env: FrontendEnv, initial: Option<nat>) returns (r: Report)
    requires AllIndexable(t.imagesData)
    ensures r == FrontendFrom(t, 0, initial, env)
  {
    var events: seq<Event> := [];
    var uploads: seq<string> := [];
    var counter := initial;
    var i := 0;
    ThenNothing(FrontendFrom(t, 0, initial, env));
    while i < |t.rows|
      invariant 0 <= i <= |t.rows|
      invariant FrontendFrom(t, 0, initial, env) == Then(events, uploads, FrontendFrom(t, i, counter, env))
      decreases |t.rows| - i
    {
      var evs, ups, next, stop := FrontendRow(t, i, counter, env);
      if stop.Some? {
        ThenThen(events, uploads, evs, ups, Report([], [], stop.value));
        return Report(events + evs, uploads + ups, stop.value);
      }
      ThenThen(events, uploads, evs, ups, FrontendFrom(t, i + 1, next, env));
      events, uploads, counter := events + evs, uploads + ups, next;
      i := i + 1;
    }
    r := Report(events, uploads, Finished);
  }

  ghost predicate NoMemoryPressure(env: FrontendEnv) {
    forall j: nat :: !env.memoryHigh(j)
  }

  /** Every generation raises `GenerationError`. */
  ghost predicate GenerationAlwaysFails(env: FrontendEnv) {
    forall row, urls :: env.generate(row, urls).Err? && env.generate(row, urls).error.GenerationError?
  }

  /** The skip event of an ineligible row. */
  function SkipEvent(t: Table, row: Row): Event
    requires AllIndexable(t.imagesData)
  {
    Skipped(SubFolder(row), if RowUrls(t, row) == [] then NoUrls else NoText)
  }

  /** An ineligible row adds its skip and leaves the counter as it was. */
  lemma FrontendSkips(t: Table, i: nat, counter: Option<nat>, env: FrontendEnv)
    requires AllIndexable(t.imagesData) && i < |t.rows| && !env.memoryHigh(i) && !Eligible(t, t.rows[i])
    ensures FrontendFrom(t, i, counter, env) == Then([SkipEvent(t, t.rows[i])], [], FrontendFrom(t, i + 1, counter, env))
  {
  }

  /** Results are uploaded exactly for the rows generated without a cache
      hit, in row order. */
  lemma {:induction false} FrontendUploadsExactlyMisses(t: Table, i: nat, counter: Option<nat>, env: FrontendEnv)
    requires AllIndexable(t.imagesData)
    ensures UploadsAreMisses(FrontendFrom(t, i, counter, env))
    decreases |t.rows| - i
  {
    if i < |t.rows| && !env.memoryHigh(i) {
      var row := t.rows[i];
      var sub := SubFolder(row);
      if !Eligible(t, row) {
        FrontendSkips(t, i, counter, env);
        FrontendUploadsExactlyMisses(t, i + 1, counter, env);
        UploadsAreMissesThen([SkipEvent(t, row)], [], FrontendFrom(t, i + 1, counter, env));
      } else {
        var g := env.generate(row, RowUrls(t, row));
        if g.Ok? {
          FrontendUploadsExactlyMisses(t, i + 1, Some(0), env);
          if g.value {
            UploadsAreMissesThen([Produced(sub, true)], [], FrontendFrom(t, i + 1, Some(0), env));
          } else {
            assert MissSubs([Produced(sub, false)]) == [sub];
            UploadsAreMissesThen([Produced(sub, false)], [sub], FrontendFrom(t, i + 1, Some(0), env));
          }
        } else if g.error.GenerationError? && counter.Some? && counter.value + 1 < MaxFails {
          FrontendUploadsExactlyMisses(t, i + 1, Some(counter.value + 1), env);
          UploadsAreMissesThen([Failed(sub)], [], FrontendFrom(t, i + 1, Some(counter.value + 1), env));
        }
      }
    }
  }

  /** An eligible row whose generation fails counts one more failure and
      trips the breaker at `MaxFails`. */
  lemma FrontendFailStep(t: Table, i: nat, c: nat, env: FrontendEnv)
    requires AllIndexable(t.imagesData) && i < |t.rows| && Eligible(t, t.rows[i])
    requires NoMemoryPressure(env) && GenerationAlwaysFails(env)
    ensures var sub := SubFolder(t.rows[i]);
      FrontendFrom(t, i, Some(c), env)
        == if c + 1 >= MaxFails then Report([Failed(sub)], [], Tripped)
           else Then([Failed(sub)], [], FrontendFrom(t, i + 1, Some(c + 1), env))
  {
    assert !env.memoryHigh(i);
    var urls := RowUrls(t, t.rows[i]);
    assert env.generate(t.rows[i], urls).Err? && env.generate(t.rows[i], urls).error.GenerationError?;
  }

  /** The breaker, with the counter bound to `c`: when every generation
      fails, the loop breaks exactly when `c` plus the rows that reach
      generation makes `MaxFails`, after `MaxFails - c` failures; nothing
      is produced or uploaded. */
  lemma BreakerTrips(t: Table, i: nat, c: nat, env: FrontendEnv)
    requires AllIndexable(t.imagesData) && c < MaxFails
    requires NoMemoryPressure(env) && GenerationAlwaysFails(env)
    ensures var r := FrontendFrom(t, i, Some(c), env);
      var n := EligibleFrom(t, i);
      && r.end == (if c + n >= MaxFails then Tripped else Finished)
      && FailedCount(r.events) == (if c + n >= MaxFails then MaxFails - c else n)
      && r.uploads == [] && NoneProduced(r.events)
  {
    BreakerEnds(t, i, c, env);
    BreakerCounts(t, i, c, env);
  }

  lemma {:induction false} BreakerEnds(t: Table, i: nat, c: nat, env: FrontendEnv)
    requires AllIndexable(t.imagesData) && c < MaxFails
    requires NoMemoryPressure(env) && GenerationAlwaysFails(env)
    ensures var r := FrontendFrom(t, i, Some(c), env);
      && r.end == (if c + EligibleFrom(t, i) >= MaxFails then Tripped else Finished)
      && r.uploads == [] && NoneProduced(r.events)
    decreases |t.rows| - i
  {
    if i < |t.rows| {
      if !Eligible(t, t.rows[i]) {
        FrontendSkips(t, i, Some(c), env);
        BreakerEnds(t, i + 1, c, env);
      } else {
        FrontendFailStep(t, i, c, env);
        if c + 1 < MaxFails {
          BreakerEnds(t, i + 1, c + 1, env);
        }
      }
    }
  }

  lemma {:induction false} BreakerCounts(t: Table, i: nat, c: nat, env: FrontendEnv)
    requires AllIndexable(t.imagesData) && c < MaxFails
    requires NoMemoryPressure(env) && GenerationAlwaysFails(env)
    ensures FailedCount(FrontendFrom(t, i, Some(c), env).events)
         == (if c + EligibleFrom(t, i) >= MaxFails then MaxFails - c else EligibleFrom(t, i))
    decreases |t.rows| - i
  {
    if i < |t.rows| {
      var row := t.rows[i];
      if !Eligible(t, row) {
        FrontendSkips(t, i, Some(c), env);
        BreakerCounts(t, i + 1, c, env);
        FailedCountAppend([SkipEvent(t, row)], FrontendFrom(t, i + 1, Some(c), env).events);
      } else {
        FrontendFailStep(t, i, c, env);
        if c + 1 < MaxFails {
          BreakerCounts(t, i + 1, c + 1, env);
          FailedCountAppend([Failed(SubFolder(row))], FrontendFrom(t, i + 1, Some(c + 1), env).events);
        }
      }
    }
  }

  /** As written the counter is unbound before the first success: when
      every generation fails, the first row that reaches generation raises
      `NameError`, which aborts the batch after one failure; the breaker
      never trips. */
  lemma {:induction false} FrontendFirstFailureAborts(t: Table, i: nat, env: FrontendEnv)
    requires AllIndexable(t.imagesData)
    requires NoMemoryPressure(env) && GenerationAlwaysFails(env)
    ensures var r := FrontendFrom(t, i, None, env);
      && r.end == (if EligibleFrom(t, i) >= 1 then Aborted(NameError("consecutive_failures")) else Finished)
      && FailedCount(r.events) == (if EligibleFrom(t, i) >= 1 then 1 else 0)
      && r.uploads == [] && NoneProduced(r.events)
    decreases |t.rows| - i
  {
    if i < |t.rows| {
      var row := t.rows[i];
      if !Eligible(t, row) {
        FrontendSkips(t, i, None, env);
        FrontendFirstFailureAborts(t, i + 1, env);
        FailedCountAppend([SkipEvent(t, row)], FrontendFrom(t, i + 1, None, env).events);
      } else {
        assert FrontendFrom(t, i, None, env) == Report([Failed(SubFolder(row))], [], Aborted(NameError("consecutive_failures")));
      }
    }
  }

  /** When generation raises anything but `GenerationError` (as written,
      the batch calls `generate_video` without `cfg`, a `TypeError`), the
      first row that reaches generation aborts the batch, whatever the
      counter. */
  lemma {:induction false} FrontendOtherErrorAborts(t: Table, i: nat, counter: Option<nat>, env: FrontendEnv, e: Exc)
    requires AllIndexable(t.imagesData) && NoMemoryPressure(env) && !e.GenerationError?
    requires forall row, urls :: env.generate(row, urls) == Err(e)
    ensures var r := FrontendFrom(t, i, counter, env);
      && r.end == (if EligibleFrom(t, i) >= 1 then Aborted(e) else Finished)
      && FailedCount(r.events) == 0 && r.uploads == [] && NoneProduced(r.events)
    decreases |t.rows| - i
  {
    if i < |t.rows| {
      var row := t.rows[i];
      if !Eligible(t, row) {
        FrontendSkips(t, i, counter, env);
        FrontendOtherErrorAborts(t, i + 1, counter, env, e);
        FailedCountAppend([SkipEvent(t, row)], FrontendFrom(t, i + 1, counter, env).events);
      }
    }
  }

  /** What one event does to the streak. */
  function StreakStep(ev: Event, c: nat): nat {
    if ev.Failed? then c + 1 else if ev.Produced? then 0 else c
  }

  /** The breaker's promise about a run, from a streak of `c`. */
  predicate StreakKept(r: Report, c: nat) {
    && (r.end == Tripped ==> Streak(r.events, c) == MaxFails && r.events != [] && r.events[|r.events| - 1].Failed?)
    && (r.end == Finished ==> Streak(r.events, c) < MaxFails)
  }

  lemma StreakThen(ev: Event, ups: seq<string>, rest: Report, c: nat)
    requires StreakKept(rest, StreakStep(ev, c))
    ensures StreakKept(Then([ev], ups, rest), c)
  {
    assert ([ev] + rest.events)[1..] == rest.events;
  }

  /** The breaker counts failures since the last success: when it trips
      the streak started from `c` has just reached `MaxFails`, the last
      event is a failure, and a loop that finishes ends below it. */
  lemma {:induction false} BreakerStreak(t: Table, i: nat, counter: Option<nat>, env: FrontendEnv)
    requires AllIndexable(t.imagesData)
    requires counter.Some? ==> counter.value < MaxFails
    ensures StreakKept(FrontendFrom(t, i, counter, env), if counter.Some? then counter.value else 0)
    decreases |t.rows| - i
  {
    var c := if counter.Some? then counter.value else 0;
    if i < |t.rows| && !env.memoryHigh(i) {
      var row := t.rows[i];
      var sub := SubFolder(row);
      if !Eligible(t, row) {
        FrontendSkips(t, i, counter, env);
        BreakerStreak(t, i + 1, counter, env);
        StreakThen(SkipEvent(t, row), [], FrontendFrom(t, i + 1, counter, env), c);
      } else {
        var g := env.generate(row, RowUrls(t, row));
        if g.Ok? {
          BreakerStreak(t, i + 1, Some(0), env);
          var rest := FrontendFrom(t, i + 1, Some(0), env);
          if g.value {
            StreakThen(Produced(sub, true), [], rest, c);
          } else {
            StreakThen(Produced(sub, false), [sub], rest, c);
          }
        } else if g.error.GenerationError? && counter.Some? {
          if c + 1 < MaxFails {
            BreakerStreak(t, i + 1, Some(c + 1), env);
            StreakThen(Failed(sub), [], FrontendFrom(t, i + 1, Some(c + 1), env), c);
          } else {
            assert [Failed(sub)][1..] == [];
            assert Streak([Failed(sub)], c) == c + 1;
          }
        }
      }
    }
  }

  // ---------------------------------------------------------------------
  // main.py: on_run_batch, no breaker
  // ---------------------------------------------------------------------

  /** What main.py's loop consults: the files on disk, the configured
      output folder, the delegated `generate_video` of a row, and
      `upload_and_cleanup` of a slug. */
  datatype MainEnv = MainEnv(fs: set<string>, outputBase: string,
                             delegate: (Row, seq<string>) -> Result<Artifacts>, upload: string -> Outcome)

  /** main.py's loop from row `i` on. Rows without URLs, title or
      description are passed over silently; every row goes through the
      cache check; a `GenerationError` from generation or upload is logged
      and the loop goes on; anything else leaves the loop. */
  function MainFrom(t: Table, i: nat, env: MainEnv): Report
    requires AllIndexable(t.imagesData)
    decreases |t.rows| - i
  {
    if i >= |t.rows| then Report([], [], Finished)
    else
      var row := t.rows[i];
      var slug := SubFolder(row);
      var urls := RowUrls(t, row);
      if urls == [] || row.title == "" || row.description == "" then
        Then([SkipEvent(t, row)], [], MainFrom(t, i + 1, env))
      else match GenerateVideoCached(env.fs, env.outputBase, slug, env.delegate(row, urls))
        case Ok(v) =>
          if v.1 then Then([Produced(slug, true)], [], MainFrom(t, i + 1, env))
          else (match env.upload(slug)
            case Done => Then([Produced(slug, false)], [slug], MainFrom(t, i + 1, env))
            case Raised(e) =>
              if e.GenerationError? then Then([Produced(slug, false)], [slug], MainFrom(t, i + 1, env))
              else Report([Produced(slug, false)], [slug], Aborted(e)))
        case Err(e) =>
          if e.GenerationError? then Then([Failed(slug)], [], MainFrom(t, i + 1, env))
          else Report([], [], Aborted(e))
  }

  /** One pass of main.py's loop body on row `i`. */
  method MainRow(t: Table, i: nat, env: MainEnv) returns (evs: seq<Event>, ups: seq<string>, stop: Option<End>)
    requires AllIndexable(t.imagesData) && i < |t.rows|
    ensures stop.Some? ==> MainFrom(t, i, env) == Report(evs, ups, stop.value)
    ensures stop.None? ==> MainFrom(t, i, env) == Then(evs, ups, MainFrom(t, i + 1, env))
  {
    evs, ups, stop := [], [], None;
    var row := t.rows[i];
    var slug := row.listingId + "_" + row.productId;
    var urls: seq<string>;
    if t.imagesData != [] {
      urls := LookupUrls(t.imagesData, KeyOf(row.listingId, row.productId));
    } else {
      urls := ExtractImageUrlsFromRow(row, t.columns);
    }
    if urls == [] || row.title == "" || row.description == "" {
      evs := [SkipEvent(t, row)];
      return;
    }
    var cached := GenerateVideoCached(env.fs, env.outputBase, slug, env.delegate(row, urls));
    if cached.Err? {
      if cached.error.GenerationError? {
        evs := [Failed(slug)];
      } else {
        stop := Some(Aborted(cached.error));
      }
    } else if cached.value.1 {
      evs := [Produced(slug, true)];
    } else {
      evs, ups := [Produced(slug, false)], [slug];
      var uploaded := env.upload(slug);
      if uploaded.Raised? && !uploaded.error.GenerationError? {
        stop := Some(Aborted(uploaded.error));
      }
    }
  }

  /** main.py's row loop, inside its `try`. */
  method RunMainBatch(t: Table, env: MainEnv) returns (r: Report)
    requires AllIndexable(t.imagesData)
    ensures r == MainFrom(t, 0, env)
  {
    var events: seq<Event> := [];
    var uploads: seq<string> := [];
    var i := 0;
    ThenNothing(MainFrom(t, 0, env));
    while i < |t.rows|
      invariant 0 <= i <= |t.rows|
      invariant MainFrom(t, 0, env) == Then(events, uploads, MainFrom(t, i, env))
      decreases |t.rows| - i
    {
      var evs, ups, stop := MainRow(t, i, env);
      if stop.Some? {
        ThenThen(events, uploads, evs, ups, Report([], [], stop.value));
        return Report(events + evs, uploads + ups, stop.value);
      }
      ThenThen(events, uploads, evs, ups, MainFrom(t, i + 1, env));
      events, uploads := events + evs, uploads + ups;
      i := i + 1;
    }
    r := Report(events, uploads, Finished);
  }

  /** Only a `GenerationError` is ever raised by the delegate and the
      upload. */
  ghost predicate MainRaisesOnlyGenerationErrors(env: MainEnv) {
    && (forall row, urls :: env.delegate(row, urls).Err? ==> env.delegate(row, urls).error.GenerationError?)
    && (forall slug :: env.upload(slug).Raised? ==> env.upload(slug).error.GenerationError?)
  }

  /** Results are uploaded exactly on cache misses, in row order. */
  lemma {:induction false} MainUploadsExactlyMisses(t: Table, i: nat, env: MainEnv)
    requires AllIndexable(t.imagesData)
    ensures UploadsAreMisses(MainFrom(t, i, env))
    decreases |t.rows| - i
  {
    if i < |t.rows| {
      var row := t.rows[i];
      var slug := SubFolder(row);
      MainUploadsExactlyMisses(t, i + 1, env);
      var rest := MainFrom(t, i + 1, env);
      if !Eligible(t, row) {
        UploadsAreMissesThen([SkipEvent(t, row)], [], rest);
      } else {
        var cached := GenerateVideoCached(env.fs, env.outputBase, slug, env.delegate(row, RowUrls(t, row)));
        if cached.Err? {
          UploadsAreMissesThen([Failed(slug)], [], rest);
        } else if cached.value.1 {
          UploadsAreMissesThen([Produced(slug, true)], [], rest);
        } else {
          assert MissSubs([Produced(slug, false)]) == [slug];
          UploadsAreMissesThen([Produced(slug, false)], [slug], rest);
        }
      }
    }
  }

  /** There is no failure cap: when nothing but `GenerationError` is
      raised, even if every generation fails, the loop reaches the end
      with exactly one event per row. */
  lemma {:induction false} MainNoBreaker(t: Table, i: nat, env: MainEnv)
    requires AllIndexable(t.imagesData) && i <= |t.rows|
    requires MainRaisesOnlyGenerationErrors(env)
    ensures var r := MainFrom(t, i, env); r.end == Finished && |r.events| == |t.rows| - i
    decreases |t.rows| - i
  {
    if i < |t.rows| {
      MainNoBreaker(t, i + 1, env);
      var row := t.rows[i];
      var slug := SubFolder(row);
      var rest := MainFrom(t, i + 1, env);
      if !Eligible(t, row) {
        assert MainFrom(t, i, env) == Then([SkipEvent(t, row)], [], rest);
      } else {
        var cached := GenerateVideoCached(env.fs, env.outputBase, slug, env.delegate(row, RowUrls(t, row)));
        if cached.Err? {
          assert MainFrom(t, i, env) == Then([Failed(slug)], [], rest);
        } else if cached.value.1 {
          assert MainFrom(t, i, env) == Then([Produced(slug, true)], [], rest);
        } else {
          assert MainFrom(t, i, env) == Then([Produced(slug, false)], [slug], rest);
        }
      }
    }
  }

  /** At most one upload, and after it the run ends with `e`, the uploaded
      row being the last event. */
  predicate UploadThenAbort(r: Report, e: Exc) {
    && |r.uploads| <= 1
    && (r.uploads != [] ==> r.end == Aborted(e) && r.events != [] && r.events[|r.events| - 1] == Produced(r.uploads[0], false))
  }

  lemma UploadThenAbortThen(ev: Event, rest: Report, e: Exc)
    requires UploadThenAbort(rest, e)
    ensures UploadThenAbort(Then([ev], [], rest), e)
  {
    if rest.uploads != [] {
      assert ([ev] + rest.events)[|rest.events|] == rest.events[|rest.events| - 1];
    }
  }

  /** When every upload raises (main.py's `upload_and_cleanup` passes
      `subdir=` and `parent_id=`, which raise `TypeError` if the top-level
      `utils` it imports has shared/utils.py's signature), the first cache
      miss is uploaded and aborts the batch, and no later row is reached. */
  lemma {:induction false} MainUploadWiringAborts(t: Table, i: nat, env: MainEnv, e: Exc)
    requires AllIndexable(t.imagesData) && !e.GenerationError?
    requires forall slug :: env.upload(slug) == Raised(e)
    ensures UploadThenAbort(MainFrom(t, i, env), e)
    decreases |t.rows| - i
  {
    if i < |t.rows| {
      var row := t.rows[i];
      var slug := SubFolder(row);
      MainUploadWiringAborts(t, i + 1, env, e);
      var rest := MainFrom(t, i + 1, env);
      if !Eligible(t, row) {
        UploadThenAbortThen(SkipEvent(t, row), rest, e);
      } else {
        var cached := GenerateVideoCached(env.fs, env.outputBase, slug, env.delegate(row, RowUrls(t, row)));
        if cached.Ok? && cached.value.1 {
          UploadThenAbortThen(Produced(slug, true), rest, e);
        } else if cached.Err? && cached.error.GenerationError? {
          UploadThenAbortThen(Failed(slug), rest, e);
        }
      }
    }
  }

  /** As written frontend/app.py's `upload_results` passes `subdir=` and
      `parent_id=` to shared/utils.py's `upload_output_files_to_drive`,
      which takes neither, so every upload raises `TypeError` and the
      batch's `except Exception` ends the run: the first cache miss is
      uploaded and aborts it, whatever the counter. */
  lemma {:induction false} FrontendUploadWiringAborts(t: Table, i: nat, counter: Option<nat>, env: FrontendEnv, e: Exc)
    requires AllIndexable(t.imagesData)
    requires forall sub :: env.upload(sub) == Raised(e)
    ensures UploadThenAbort(FrontendFrom(t, i, counter, env), e)
    decreases |t.rows| - i
  {
    if i < |t.rows| && !env.memoryHigh(i) {
      var row := t.rows[i];
      var sub := SubFolder(row);
      var urls := RowUrls(t, row);
      if urls == [] || row.title == "" || row.description == "" {
        FrontendUploadWiringAborts(t, i + 1, counter, env, e);
        var ev := if urls == [] then Skipped(sub, NoUrls) else Skipped(sub, NoText);
        UploadThenAbortThen(ev, FrontendFrom(t, i + 1, counter, env), e);
      } else {
        match env.generate(row, urls)
        case Ok(hit) =>
          if hit {
            FrontendUploadWiringAborts(t, i + 1, Some(0), env, e);
            UploadThenAbortThen(Produced(sub, true), FrontendFrom(t, i + 1, Some(0), env), e);
          }
        case Err(err) =>
          if err.GenerationError? && counter.Some? && counter.value + 1 < MaxFails {
            FrontendUploadWiringAborts(t, i + 1, Some(counter.value + 1), env, e);
            UploadThenAbortThen(Failed(sub), FrontendFrom(t, i + 1, Some(counter.value + 1), env), e);
          }
      }
    }
  }

  /** With uploads that complete, generation that raises only
      `GenerationError` and no memory pressure, the frontend batch can end
      early only by the breaker or, while the counter is still unbound,
      by the `NameError` of its first failure; with the counter bound it
      never aborts. */
  lemma {:induction false} FrontendUploadsComplete(t: Table, i: nat, counter: Option<nat>, env: FrontendEnv)
    requires AllIndexable(t.imagesData) && NoMemoryPressure(env)
    requires forall sub :: env.upload(sub) == Done
    requires forall row, urls :: env.generate(row, urls).Err? ==> env.generate(row, urls).error.GenerationError?
    ensures var r := FrontendFrom(t, i, counter, env);
      && (r.end.Aborted? ==> r.end == Aborted(NameError("consecutive_failures")))
      && (counter.Some? ==> r.end == Finished || r.end == Tripped)
    decreases |t.rows| - i
  {
    if i < |t.rows| {
      var row := t.rows[i];
      var urls := RowUrls(t, row);
      assert !env.memoryHigh(i);
      if urls == [] || row.title == "" || row.description == "" {
        FrontendUploadsComplete(t, i + 1, counter, env);
      } else {
        match env.generate(row, urls)
        case Ok(hit) =>
          FrontendUploadsComplete(t, i + 1, Some(0), env);
        case Err(err) =>
          if counter.Some? && counter.value + 1 < MaxFails {
            FrontendUploadsComplete(t, i + 1, Some(counter.value + 1), env);
          }
      }
    }
  }

  // ---------------------------------------------------------------------
  // app.py: the batch loop, no breaker, no cache
  // ---------------------------------------------------------------------

  /** What app.py's loop consults: `generate_video` of a row,
      `upload_and_cleanup` of a sub-folder, and the CSV filter of line 254
      (`AsWritten` is the script as it stands). */
  datatype AppEnv = AppEnv(generate: (Row, seq<string>) -> Outcome, upload: string -> Outcome, filter: CsvFilter)

  predicate AppEligible(t: Table, row: Row, filter: CsvFilter)
    requires AllIndexable(t.imagesData)
  {
    AppRowUrls(t, row, filter) != [] && row.title != "" && row.description != ""
  }

  function AppSkipEvent(t: Table, row: Row, filter: CsvFilter): Event
    requires AllIndexable(t.imagesData)
  {
    Skipped(SubFolder(row), if AppRowUrls(t, row, filter) == [] then NoUrls else NoText)
  }

  /** app.py's loop from row `i` on: every generated row is uploaded; a
      `GenerationError` skips the row; anything else propagates out of
      the script. */
  function AppFrom(t: Table, i: nat, env: AppEnv): Report
    requires AllIndexable(t.imagesData)
    decreases |t.rows| - i
  {
    if i >= |t.rows| then Report([], [], Finished)
    else
      var row := t.rows[i];
      var sub := SubFolder(row);
      if !AppEligible(t, row, env.filter) then Then([AppSkipEvent(t, row, env.filter)], [], AppFrom(t, i + 1, env))
      else match env.generate(row, AppRowUrls(t, row, env.filter))
        case Raised(e) =>
          if e.GenerationError? then Then([Failed(sub)], [], AppFrom(t, i + 1, env))
          else Report([], [], Aborted(e))
        case Done =>
          match env.upload(sub)
          case Done => Then([Produced(sub, false)], [sub], AppFrom(t, i + 1, env))
          case Raised(e) => Report([Produced(sub, false)], [sub], Aborted(e))
  }

  /** One pass of app.py's loop body on row `i`. */
  method AppRow(t: Table, i: nat, env: AppEnv) returns (evs: seq<Event>, ups: seq<string>, stop: Option<End>)
    requires AllIndexable(t.imagesData) && i < |t.rows|
    ensures stop.Some? ==> AppFrom(t, i, env) == Report(evs, ups, stop.value)
    ensures stop.None? ==> AppFrom(t, i, env) == Then(evs, ups, AppFrom(t, i + 1, env))
  {
    evs, ups, stop := [], [], None;
    var row := t.rows[i];
    var urls: seq<string> := [];
    if t.imagesData != [] {
      urls := LookupUrls(t.imagesData, KeyOf(row.listingId, row.productId));
    } else {
      var column := AppImageColumn(t.columns);
      if column.Some? {
        urls := AppCsvFilter(env.filter, Cell(row, column.value));
      }
    }
    var sub := row.listingId + "_" + row.productId;
    if urls == [] || row.title == "" || row.description == "" {
      evs := [AppSkipEvent(t, row, env.filter)];
      return;
    }
    var generated := env.generate(row, urls);
    if generated.Raised? {
      if generated.error.GenerationError? {
        evs := [Failed(sub)];
      } else {
        stop := Some(Aborted(generated.error));
      }
      return;
    }
    evs, ups := [Produced(sub, false)], [sub];
    var uploaded := env.upload(sub);
    if uploaded.Raised? {
      stop := Some(Aborted(uploaded.error));
    }
  }

  /** app.py's row loop. */
  method RunAppBatch(t: Table, env: AppEnv) returns (r: Report)
    requires AllIndexable(t.imagesData)
    ensures r == AppFrom(t, 0, env)
  {
    var events: seq<Event> := [];
    var uploads: seq<string> := [];
    var i := 0;
    ThenNothing(AppFrom(t, 0, env));
    while i < |t.rows|
      invariant 0 <= i <= |t.rows|
      invariant AppFrom(t, 0, env) == Then(events, uploads, AppFrom(t, i, env))
      decreases |t.rows| - i
    {
      var evs, ups, stop := AppRow(t, i, env);
      if stop.Some? {
        ThenThen(events, uploads, evs, ups, Report([], [], stop.value));
        return Report(events + evs, uploads + ups, stop.value);
      }
      ThenThen(events, uploads, evs, ups, AppFrom(t, i + 1, env));
      events, uploads := events + evs, uploads + ups;
      i := i + 1;
    }
    r := Report(events, uploads, Finished);
  }

  /** No row is ever reported as a cache hit. */
  predicate NoCacheHits(evs: seq<Event>) {
    forall k :: 0 <= k < |evs| ==> evs[k].Produced? ==> !evs[k].cacheHit
  }

  /** Every generated row is uploaded, in row order, and there is no
      cache. */
  lemma {:induction false} AppUploadsEverySuccess(t: Table, i: nat, env: AppEnv)
    requires AllIndexable(t.imagesData)
    ensures var r := AppFrom(t, i, env); UploadsAreMisses(r) && NoCacheHits(r.events)
    decreases |t.rows| - i
  {
    if i < |t.rows| {
      var row := t.rows[i];
      var sub := SubFolder(row);
      AppUploadsEverySuccess(t, i + 1, env);
      var rest := AppFrom(t, i + 1, env);
      if !AppEligible(t, row, env.filter) {
        UploadsAreMissesThen([AppSkipEvent(t, row, env.filter)], [], rest);
      } else if env.generate(row, AppRowUrls(t, row, env.filter)).Raised? {
        UploadsAreMissesThen([Failed(sub)], [], rest);
      } else {
        assert MissSubs([Produced(sub, false)]) == [sub];
        UploadsAreMissesThen([Produced(sub, false)], [sub], rest);
      }
    }
  }

  /** A CSV row is plain when its image column, if any, holds no
      backslash (an ordinary comma-separated URL list). */
  predicate AppCsvCellPlain(t: Table, row: Row) {
    match AppImageColumn(t.columns)
    case None => true
    case Some(c) => '\\' !in Cell(row, c)
  }

  /** One `NoUrls` skip per row, in row order. */
  function NoUrlSkips(rows: seq<Row>): (r: seq<Event>)
    ensures |r| == |rows| && NoneProduced(r)
  {
    if rows == [] then [] else [Skipped(SubFolder(rows[0]), NoUrls)] + NoUrlSkips(rows[1..])
  }

  /** As written, app.py's loop over a CSV without JSON image data skips
      every plain row for lack of URLs: nothing is generated, nothing is
      uploaded, and the loop runs to the end. */
  lemma {:induction false} AppPlainCsvSkipsAll(t: Table, i: nat, env: AppEnv)
    requires AllIndexable(t.imagesData) && t.imagesData == [] && env.filter == AsWritten && i <= |t.rows|
    requires forall k :: i <= k < |t.rows| ==> AppCsvCellPlain(t, t.rows[k])
    ensures var r := AppFrom(t, i, env);
      && r.end == Finished && r.uploads == [] && NoneProduced(r.events)
      && r.events == NoUrlSkips(t.rows[i..])
    decreases |t.rows| - i
  {
    if i < |t.rows| {
      var row := t.rows[i];
      assert AppCsvCellPlain(t, row);
      match AppImageColumn(t.columns) {
        case None =>
        case Some(c) => AppFilterRejectsPlainUrls(Cell(row, c));
      }
      assert AppRowUrls(t, row, env.filter) == [];
      AppPlainCsvSkipsAll(t, i + 1, env);
      assert t.rows[i..][0] == row && t.rows[i..][1..] == t.rows[i + 1..];
    }
  }

  /** When every upload raises (app.py's `upload_and_cleanup` passes
      `subdir=` and `parent_id=`, as main.py's does), the first generated
      row is uploaded and aborts the batch. */
  lemma {:induction false} AppUploadWiringAborts(t: Table, i: nat, env: AppEnv, e: Exc)
    requires AllIndexable(t.imagesData)
    requires forall sub :: env.upload(sub) == Raised(e)
    ensures UploadThenAbort(AppFrom(t, i, env), e)
    decreases |t.rows| - i
  {
    if i < |t.rows| {
      var row := t.rows[i];
      AppUploadWiringAborts(t, i + 1, env, e);
      var rest := AppFrom(t, i + 1, env);
      if !AppEligible(t, row, env.filter) {
        UploadThenAbortThen(AppSkipEvent(t, row, env.filter), rest, e);
      } else if env.generate(row, AppRowUrls(t, row, env.filter)).Raised? {
        UploadThenAbortThen(Failed(SubFolder(row)), rest, e);
      }
    }
  }

  /** There is no failure cap: when generation raises only
      `GenerationError` and uploads complete, the loop reaches the end
      with one event per row, failing rows included. */
  lemma {:induction false} AppNoBreaker(t: Table, i: nat, env: AppEnv)
    requires AllIndexable(t.imagesData) && i <= |t.rows|
    requires forall row, urls :: env.generate(row, urls).Raised? ==> env.generate(row, urls).error.GenerationError?
    requires forall sub :: env.upload(sub) == Done
    ensures var r := AppFrom(t, i, env); r.end == Finished && |r.events| == |t.rows| - i
    decreases |t.rows| - i
  {
    if i < |t.rows| {
      AppNoBreaker(t, i + 1, env);
    }
  }
}
