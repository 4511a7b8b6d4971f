/** The session bookkeeping shared by the three front ends (frontend/app.py,
    app.py and main.py): the full reset, the reset on an input change
    keyed by a hash of the sorted inputs, and the inactivity timeout. The
    session is a dictionary from key to value that the helpers update in
    place; time is in integer milliseconds and the MD5 digest is an opaque
    function of the text it hashes. */
module Session {
  import opened Common
  import opened Text

  /** A session value: a text, a number (a time stamp, in ms), or any other
      object the pages store (results, paths, data frames). */
  datatype Value = Str(s: string) | Num(n: int) | Other(id: nat)

  /** The keys every `full_reset_session_state` pops, in order. */
  const KeysToClear: seq<string> := [
    "output_options", "show_output_radio_single", "show_output_radio_batch",
    "last_single_result", "last_batch_folder", "uploaded_image_paths",
    "batch_csv_path", "batch_json_path", "batch_images_data",
    "batch_csv_file_path", "batch_json_file_path", "input_signature",
    "previous_input_hash", "previous_input_hash_single", "previous_input_hash_batch",
    "title", "description"]

  /** The keys frontend/app.py's reset refuses to pop. */
  const PreservedKeys: set<string> := {"cleared_cache", "last_mode", "last_interaction"}

  const LastInteractionKey := "last_interaction"

  /** `INACTIVITY_TIMEOUT_SECONDS = 5 * 60`, in milliseconds. */
  const InactivityTimeoutMs := 5 * 60 * 1000

  /** The session after a full reset: the listed keys are gone and every
      other key keeps its value. */
  function Cleared(entries: map<string, Value>): map<string, Value> {
    map k | k in entries && k !in KeysToClear :: entries[k]
  }

  /** The session after popping the first `n` listed keys. */
  function ClearedUpTo(entries: map<string, Value>, n: nat): map<string, Value>
    requires n <= |KeysToClear|
  {
    map k | k in entries && k !in KeysToClear[..n] :: entries[k]
  }

  // ---------------------------------------------------------------------
  // The order Python's `sorted` puts strings in
  // ---------------------------------------------------------------------

  /** `a <= b` for Python strings: code point by code point, a prefix first. */
  predicate LexLe(a: string, b: string) {
    a == [] || (b != [] && (a[0] < b[0] || (a[0] == b[0] && LexLe(a[1..], b[1..]))))
  }

  lemma {:induction false} LexReflexive(a: string)
    ensures LexLe(a, a)
  {
    if a != [] {
      LexReflexive(a[1..]);
    }
  }

  lemma {:induction false} LexTotal(a: string, b: string)
    ensures LexLe(a, b) || LexLe(b, a)
  {
    if a != [] && b != [] && a[0] == b[0] {
      LexTotal(a[1..], b[1..]);
    }
  }

  lemma {:induction false} LexAntisymmetric(a: string, b: string)
    requires LexLe(a, b) && LexLe(b, a)
    ensures a == b
  {
    if a != [] {
      LexAntisymmetric(a[1..], b[1..]);
      assert a == [a[0]] + a[1..] && b == [b[0]] + b[1..];
    }
  }

  lemma {:induction false} LexTransitive(a: string, b: string, c: string)
    requires LexLe(a, b) && LexLe(b, c)
    ensures LexLe(a, c)
  {
    if a != [] && a[0] == b[0] && b[0] == c[0] {
      LexTransitive(a[1..], b[1..], c[1..]);
    }
  }

  predicate IsSorted(s: seq<string>) {
    forall i, j :: 0 <= i < j < |s| ==> LexLe(s[i], s[j])
  }

  /** Inserts `x` before the first element it does not exceed. */
  function Insert(x: string, s: seq<string>): seq<string> {
    if s == [] || LexLe(x, s[0]) then [x] + s else [s[0]] + Insert(x, s[1..])
  }

  /** `sorted(parts)`. */
  function SortStrings(parts: seq<string>): seq<string> {
    if parts == [] then [] else Insert(parts[0], SortStrings(parts[1..]))
  }

  lemma {:induction false} InsertPermutes(x: string, s: seq<string>)
    ensures multiset(Insert(x, s)) == multiset{x} + multiset(s)
  {
    if s != [] && !LexLe(x, s[0]) {
      InsertPermutes(x, s[1..]);
      assert s == [s[0]] + s[1..];
    }
  }

  lemma {:induction false} InsertSorted(x: string, s: seq<string>)
    requires IsSorted(s)
    ensures IsSorted(Insert(x, s))
  {
    if s == [] {
    } else if LexLe(x, s[0]) {
      var r := [x] + s;
      forall i, j | 0 <= i < j < |r| ensures LexLe(r[i], r[j]) {
        if i == 0 && j > 1 {
          LexTransitive(x, s[0], s[j - 1]);
        }
      }
    } else {
      LexTotal(x, s[0]);
      var tail := Insert(x, s[1..]);
      InsertSorted(x, s[1..]);
      InsertPermutes(x, s[1..]);
      var r := [s[0]] + tail;
      forall j | 0 <= j < |tail| ensures LexLe(s[0], tail[j]) {
        assert tail[j] in multiset(tail);
        if tail[j] != x {
          assert tail[j] in multiset(s[1..]);
          var k :| 0 <= k < |s[1..]| && s[1..][k] == tail[j];
          assert s[k + 1] == tail[j];
        }
      }
      forall i, j | 0 <= i < j < |r| ensures LexLe(r[i], r[j]) {
        if i == 0 {
          assert r[j] == tail[j - 1];
        } else {
          assert r[i] == tail[i - 1] && r[j] == tail[j - 1];
        }
      }
    }
  }

  /** `sorted` returns its input in order. */
  lemma {:induction false} SortStringsCorrect(parts: seq<string>)
    ensures IsSorted(SortStrings(parts))
    ensures multiset(SortStrings(parts)) == multiset(parts)
  {
    if parts != [] {
      SortStringsCorrect(parts[1..]);
      InsertSorted(parts[0], SortStrings(parts[1..]));
      InsertPermutes(parts[0], SortStrings(parts[1..]));
      assert parts == [parts[0]] + parts[1..];
    }
  }

  /** Sorted sequences with the same elements start with the same one. */
  lemma SortedSameHead(a: seq<string>, b: seq<string>)
    requires IsSorted(a) && IsSorted(b) && multiset(a) == multiset(b) && a != []
    ensures b != [] && a[0] == b[0]
  {
    assert a[0] in multiset(b);
    assert b[0] in multiset(a);
    var j :| 0 <= j < |b| && b[j] == a[0];
    var k :| 0 <= k < |a| && a[k] == b[0];
    if j != 0 && k != 0 {
      assert LexLe(b[0], b[j]);
      assert LexLe(a[0], a[k]);
      LexAntisymmetric(a[0], b[0]);
    }
  }

  lemma SortedTail(a: seq<string>)
    requires IsSorted(a) && a != []
    ensures IsSorted(a[1..])
  {
    forall i, j | 0 <= i < j < |a[1..]| ensures LexLe(a[1..][i], a[1..][j]) {
      assert a[1..][i] == a[i + 1] && a[1..][j] == a[j + 1];
    }
  }

  /** Two sorted sequences with the same elements are the same sequence. */
  lemma {:induction false} SortedUnique(a: seq<string>, b: seq<string>)
    requires IsSorted(a) && IsSorted(b) && multiset(a) == multiset(b)
    ensures a == b
    decreases |a|
  {
    if a == [] {
      assert |multiset(b)| == 0;
    } else {
      SortedSameHead(a, b);
      SortedTail(a);
      SortedTail(b);
      assert a == [a[0]] + a[1..] && b == [b[0]] + b[1..];
      assert multiset(a[1..]) == multiset(a) - multiset{a[0]};
      assert multiset(b[1..]) == multiset(b) - multiset{b[0]};
      SortedUnique(a[1..], b[1..]);
    }
  }

  // ---------------------------------------------------------------------
  // detect_and_reset_on_input_change
  // ---------------------------------------------------------------------

  /** `''.join(sorted(input_parts))`. */
  function Combined(parts: seq<string>): string {
    Concat(SortStrings(parts))
  }

  /** `hashlib.md5(combined.encode()).hexdigest()`, the digest taken as given. */
  function InputHash(parts: seq<string>, md5: string -> string): string {
    md5(Combined(parts))
  }

  /** `f"previous_input_hash_{context_id}"`. */
  function HashKey(contextId: string): string {
    "previous_input_hash_" + contextId
  }

  /** The session after `detect_and_reset_on_input_change(context_id,
      input_parts)`: untouched when the stored hash equals the new one,
      otherwise fully reset with the new hash stored. */
  function AfterDetect(entries: map<string, Value>, contextId: string, parts: seq<string>,
                       md5: string -> string): map<string, Value> {
    var k := HashKey(contextId);
    var h := Str(InputHash(parts, md5));
    if k in entries && entries[k] == h then entries else Cleared(entries)[k := h]
  }

  /** The hash sees only which inputs were given, not their order. */
  lemma CombinedOrderInsensitive(p: seq<string>, q: seq<string>)
    requires multiset(p) == multiset(q)
    ensures Combined(p) == Combined(q)
  {
    SortStringsCorrect(p);
    SortStringsCorrect(q);
    SortedUnique(SortStrings(p), SortStrings(q));
  }

  /** Reordering the inputs never triggers a reset. */
  lemma DetectOrderInsensitive(entries: map<string, Value>, contextId: string, p: seq<string>, q: seq<string>,
                               md5: string -> string)
    requires multiset(p) == multiset(q)
    ensures AfterDetect(entries, contextId, p, md5) == AfterDetect(entries, contextId, q, md5)
  {
    CombinedOrderInsensitive(p, q);
  }

  /** After the call the context's key holds the new hash; a session that
      already held it is left as it was, and one that did not loses every
      listed key but keeps every other key. */
  lemma DetectOutcome(entries: map<string, Value>, contextId: string, parts: seq<string>, md5: string -> string)
    ensures var after := AfterDetect(entries, contextId, parts, md5);
      && HashKey(contextId) in after && after[HashKey(contextId)] == Str(InputHash(parts, md5))
      && (HashKey(contextId) in entries && entries[HashKey(contextId)] == Str(InputHash(parts, md5)) ==> after == entries)
      && (forall k :: k in entries && k !in KeysToClear && k != HashKey(contextId) ==> k in after && after[k] == entries[k])
      && (!(HashKey(contextId) in entries && entries[HashKey(contextId)] == Str(InputHash(parts, md5))) ==>
            forall k :: k in KeysToClear && k != HashKey(contextId) ==> k !in after)
  {
  }

  /** A second call with the same inputs, in any order, changes nothing. */
  lemma DetectIdempotent(entries: map<string, Value>, contextId: string, p: seq<string>, q: seq<string>,
                         md5: string -> string)
    requires multiset(p) == multiset(q)
    ensures var once := AfterDetect(entries, contextId, p, md5);
      AfterDetect(once, contextId, q, md5) == once
  {
    CombinedOrderInsensitive(p, q);
  }

  /** Both contexts' hash keys are among the listed keys, so a reset for
      one page forgets the hash stored by the other. */
  lemma ResetForgetsOtherContext(entries: map<string, Value>, parts: seq<string>, md5: string -> string)
    requires !(HashKey("single") in entries && entries[HashKey("single")] == Str(InputHash(parts, md5)))
    ensures HashKey("batch") !in AfterDetect(entries, "single", parts, md5)
  {
    assert KeysToClear[14] == HashKey("batch");
  }

  /** The hash joins the sorted inputs without a separator, so moving text
      from one input to the next can go unnoticed: a title "ab" with a
      description "c" hashes like a title "a" with a description "bc". */
  lemma RegroupingUndetected()
    ensures Combined(["ab", "c"]) == Combined(["a", "bc"]) == "abc"
  {
    assert LexLe("ab", "c");
    assert LexLe("a", "bc");
  }

  // ---------------------------------------------------------------------
  // The session dictionary
  // ---------------------------------------------------------------------

  /** How `handle_inactivity` of frontend/app.py ends: it returns, it
      stops the script (`st.stop()`), or the subtraction raises. */
  datatype Run = Continue | Stop | Raise(error: Exc)

  /** `st.session_state` of the Streamlit pages, or the module-level
      `session_state` dict of main.py. */
  class SessionState {
    var entries: map<string, Value>

    constructor (entries0: map<string, Value>)
      ensures entries == entries0
    {
      entries := entries0;
    }

    /** `full_reset_session_state` of app.py and main.py: pops every
        listed key, absent or not. */
    method FullReset()
      modifies this
      ensures entries == Cleared(old(entries))
    {
      for i := 0 to |KeysToClear|
        invariant entries == ClearedUpTo(old(entries), i)
      {
        assert KeysToClear[..i + 1] == KeysToClear[..i] + [KeysToClear[i]];
        entries := entries - {KeysToClear[i]};
      }
      assert KeysToClear[..|KeysToClear|] == KeysToClear;
    }

    /** `full_reset_session_state` of frontend/app.py: the same pops, each
        guarded by `key not in preserved_keys`. No listed key is preserved,
        so the guard never skips one. */
    method FullResetPreserving()
      modifies this
      ensures entries == Cleared(old(entries))
    {
      for i := 0 to |KeysToClear|
        invariant entries == ClearedUpTo(old(entries), i)
      {
        assert KeysToClear[..i + 1] == KeysToClear[..i] + [KeysToClear[i]];
        var key := KeysToClear[i];
        assert key !in PreservedKeys;
        if key !in PreservedKeys {
          entries := entries - {key};
        }
      }
      assert KeysToClear[..|KeysToClear|] == KeysToClear;
    }

    /** `detect_and_reset_on_input_change(context_id, input_parts)`;
        `preserving` selects frontend/app.py's reset. */
    method DetectAndReset(contextId: string, inputParts: seq<string>, md5: string -> string, preserving: bool)
      modifies this
      ensures entries == AfterDetect(old(entries), contextId, inputParts, md5)
    {
      var combined := Concat(SortStrings(inputParts));
      var inputHash := md5(combined);
      var hashKey := "previous_input_hash_" + contextId;
      if !(hashKey in entries && entries[hashKey] == Str(inputHash)) {
        if preserving {
          FullResetPreserving();
        } else {
          FullReset();
        }
        entries := entries[hashKey := Str(inputHash)];
      }
    }

    /** `handle_inactivity` of frontend/app.py. The last touch is the stored
        time stamp, or now when none is stored; idle for longer than the
        timeout, the session is emptied and the script stops before the
        time stamp is written; otherwise now is stored. A stored value that
        is not a number makes the subtraction raise `TypeError`. */
    method HandleInactivity(now: int) returns (run: Run, cachesCleared: bool)
      modifies this
      ensures LastInteractionKey in old(entries) && !old(entries)[LastInteractionKey].Num? ==>
        run.Raise? && run.error.TypeError? && !cachesCleared && entries == old(entries)
      ensures !(LastInteractionKey in old(entries) && !old(entries)[LastInteractionKey].Num?) ==>
        var last := if LastInteractionKey in old(entries) then old(entries)[LastInteractionKey].n else now;
        && cachesCleared == (now - last > InactivityTimeoutMs)
        && (cachesCleared ==> run == Stop && entries == map[])
        && (!cachesCleared ==> run == Continue && entries == old(entries)[LastInteractionKey := Num(now)])
    {
      var lastTouch := now;
      if LastInteractionKey in entries {
        var stored := entries[LastInteractionKey];
        if !stored.Num? {
          return Raise(TypeError("unsupported operand type(s) for -")), false;
        }
        lastTouch := stored.n;
      }
      if now - lastTouch > InactivityTimeoutMs {
        entries := map[];
        return Stop, true;
      }
      entries := entries[LastInteractionKey := Num(now)];
      run, cachesCleared := Continue, false;
    }
  }

  /** main.py's module-level `last_interaction`. */
  class Clock {
    var lastInteraction: int

    constructor (start: int)
      ensures lastInteraction == start
    {
      lastInteraction := start;
    }
  }

  /** `handle_inactivity` of main.py: idle for longer than the timeout, the
      caches and the session are cleared; the time stamp is updated to now
      in every case. */
  method MainHandleInactivity(session: SessionState, clock: Clock, now: int) returns (cachesCleared: bool)
    modifies session, clock
    ensures cachesCleared == (now - old(clock.lastInteraction) > InactivityTimeoutMs)
    ensures session.entries == if cachesCleared then map[] else old(session.entries)
    ensures clock.lastInteraction == now
  {
    cachesCleared := now - clock.lastInteraction > InactivityTimeoutMs;
    if cachesCleared {
      session.entries := map[];
    }
    clock.lastInteraction := now;
  }

  /** The keys frontend/app.py preserves are never among the listed
      keys, so every reset keeps them, the last-interaction time stamp
      included. */
  lemma ResetKeepsPreserved(entries: map<string, Value>)
    ensures forall k :: k in PreservedKeys && k in entries ==> k in Cleared(entries) && Cleared(entries)[k] == entries[k]
  {
  }
}
