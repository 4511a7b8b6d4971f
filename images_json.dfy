/** `validate_images_json` and `images_json_schema` of shared/utils.py:
    the side table mapping (listingId, productId) to product images. */
module ImagesJson {

  /** A parsed JSON value. Numbers are integers; JSON floats are not part of
      this model. */
  datatype Json =
    | JNull
    | JBool(b: bool)
    | JNum(n: int)
    | JStr(s: string)
    | JArr(items: seq<Json>)
    | JObj(fields: map<string, Json>)

  /** Python truthiness of the value `json.load` produced. */
  predicate JsonTruthy(j: Json) {
    match j
    case JNull => false
    case JBool(b) => b
    case JNum(n) => n != 0
    case JStr(s) => s != ""
    case JArr(items) => items != []
    case JObj(fields) => |fields| != 0
  }

  /** `dict.get(key)`: the value, or `None`. */
  function Get(fields: map<string, Json>, key: string): Json {
    if key in fields then fields[key] else JNull
  }

  /** `{"type": "string"}` on a property that need not be present. */
  predicate OptionalString(fields: map<string, Json>, key: string) {
    key in fields ==> fields[key].JStr?
  }

  /** The schema of one image object; `isUri` is the `"format": "uri"` check. */
  predicate ValidImage(j: Json, isUri: string -> bool) {
    && j.JObj?
    && "imageURL" in j.fields
    && j.fields["imageURL"].JStr? && isUri(j.fields["imageURL"].s)
    && OptionalString(j.fields, "imageFilename")
    && OptionalString(j.fields, "thumbURL")
    && OptionalString(j.fields, "imageKey")
  }

  /** `images_json_schema["items"]`: an object with numeric `listingId` and
      `productId` (`"number"` excludes booleans, which are their own JSON
      type) and a non-empty `images` array of valid image objects; other
      properties are allowed. */
  predicate ValidEntry(j: Json, isUri: string -> bool) {
    && j.JObj?
    && "listingId" in j.fields && j.fields["listingId"].JNum?
    && "productId" in j.fields && j.fields["productId"].JNum?
    && "images" in j.fields && j.fields["images"].JArr?
    && |j.fields["images"].items| >= 1
    && forall k :: 0 <= k < |j.fields["images"].items| ==> ValidImage(j.fields["images"].items[k], isUri)
  }

  /** How the error message names the offending entry. */
  datatype Ident =
    | ByIds(listingId: Json, productId: Json)  // `(listingId=…, productId=…)`
    | ByPosition(index: nat)                   // `# idx`, 1-based

  /** The outcome of `validate_images_json(data)`. */
  datatype Validation =
    | Valid
      /** `ValueError` for input that is not a list. */
    | NotAList
      /** `ValueError` naming the first entry the schema rejects. */
    | Invalid(ident: Ident)
      /** `AttributeError`: the first rejected entry is not an object, so
          `entry.get` does not exist; `index` is its 1-based position. */
    | NoGet(index: nat)

  /** The identification `validate_images_json` reports for a rejected object. */
  function IdentOf(fields: map<string, Json>, index: nat): Ident {
    var lid := Get(fields, "listingId");
    var pid := Get(fields, "productId");
    if JsonTruthy(lid) && JsonTruthy(pid) then ByIds(lid, pid) else ByPosition(index)
  }

  /** Entry `k` is the first the schema rejects. */
  predicate FirstRejected(entries: seq<Json>, k: int, isUri: string -> bool) {
    && 0 <= k < |entries|
    && !ValidEntry(entries[k], isUri)
    && forall i :: 0 <= i < k ==> ValidEntry(entries[i], isUri)
  }

  /** What a rejected entry at 1-based `index` raises: a `ValueError`
      naming it when it is an object, an `AttributeError` otherwise. */
  function Rejection(entry: Json, index: nat): Validation {
    if entry.JObj? then Invalid(IdentOf(entry.fields, index)) else NoGet(index)
  }

  /** Validates the entries in order and stops at the first one the
      schema rejects. */
  method ValidateImagesJson(data: Json, isUri: string -> bool) returns (v: Validation)
    ensures !data.JArr? <==> v == NotAList
    ensures v == Valid <==> data.JArr? && forall i :: 0 <= i < |data.items| ==> ValidEntry(data.items[i], isUri)
    ensures v.Invalid? || v.NoGet? ==>
      && data.JArr?
      && exists k :: FirstRejected(data.items, k, isUri) && v == Rejection(data.items[k], k + 1)
  {
    if !data.JArr? {
      return NotAList;
    }
    var entries := data.items;
    for i := 0 to |entries|
      invariant forall j :: 0 <= j < i ==> ValidEntry(entries[j], isUri)
    {
      var entry := entries[i];
      if !ValidEntry(entry, isUri) {
        assert FirstRejected(entries, i, isUri);
        if !entry.JObj? {
          return NoGet(i + 1);
        }
        return Invalid(IdentOf(entry.fields, i + 1));
      }
    }
    v := Valid;
  }

  /** The identification cites the ids exactly when both are truthy, and
      the 1-based position otherwise. */
  lemma IdentOfCases(fields: map<string, Json>, index: nat)
    ensures IdentOf(fields, index).ByIds? <==>
      "listingId" in fields && "productId" in fields && JsonTruthy(fields["listingId"]) && JsonTruthy(fields["productId"])
    ensures IdentOf(fields, index).ByIds? ==>
      IdentOf(fields, index) == ByIds(fields["listingId"], fields["productId"])
    ensures IdentOf(fields, index).ByPosition? ==> IdentOf(fields, index) == ByPosition(index)
  {
  }

  /** Adding a property the schema does not name keeps an entry valid. */
  lemma ExtraPropertyAllowed(fields: map<string, Json>, key: string, value: Json, isUri: string -> bool)
    requires ValidEntry(JObj(fields), isUri)
    requires key !in {"listingId", "productId", "images"}
    ensures ValidEntry(JObj(fields[key := value]), isUri)
  {
    var after := fields[key := value];
    assert after["images"] == fields["images"];
  }

  /** A valid entry has numeric ids and a first image whose `imageURL` is a URI. */
  lemma ValidEntryShape(j: Json, isUri: string -> bool)
    requires ValidEntry(j, isUri)
    ensures j.fields["listingId"].JNum? && j.fields["productId"].JNum?
    ensures var first := j.fields["images"].items[0];
      first.JObj? && first.fields["imageURL"].JStr? && isUri(first.fields["imageURL"].s)
  {
    assert ValidImage(j.fields["images"].items[0], isUri);
  }

  /** Boolean ids, string ids and an empty `images` list are all rejected. */
  lemma RejectedEntries(fields: map<string, Json>, isUri: string -> bool)
    ensures "listingId" in fields && fields["listingId"].JBool? ==> !ValidEntry(JObj(fields), isUri)
    ensures "productId" in fields && fields["productId"].JStr? ==> !ValidEntry(JObj(fields), isUri)
    ensures "images" in fields && fields["images"] == JArr([]) ==> !ValidEntry(JObj(fields), isUri)
  {
  }
}
