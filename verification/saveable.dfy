/**
  The `Saveable` mixin: it turns an entity's identifier into a file-system
  safe storage key (`safe_id`) and derives the name of the JSON file the
  entity is saved to.

  `safe_id` is the pipeline `id.downcase.tr(" ", "_").gsub(/[^0-9a-z_-]/, "-")`.
  Each stage is modelled as its own character map, in the order Ruby applies
  them; `SafeIdChar` is an independent one-character table of the same
  transformation, and `SafeIdPointwise` proves the two agree.
*/
module Saveable {

  /** Characters the key may contain: the class `[0-9a-z_-]`. */
  predicate IsSafeChar(c: char) {
    ('0' <= c <= '9') || ('a' <= c <= 'z') || c == '_' || c == '-'
  }

  predicate IsUpper(c: char) {
    'A' <= c <= 'Z'
  }

  /** `String#downcase` restricted to ASCII: `A`-`Z` become `a`-`z`. */
  function DowncaseChar(c: char): (d: char)
    ensures IsUpper(c) ==> 'a' <= d <= 'z' && d as int - c as int == 'a' as int - 'A' as int
    ensures !IsUpper(c) ==> d == c
  {
    if IsUpper(c) then (c as int - 'A' as int + 'a' as int) as char else c
  }

  /** `tr(" ", "_")` on one character. */
  function TrSpaceChar(c: char): char {
    if c == ' ' then '_' else c
  }

  /** `gsub(/[^0-9a-z_-]/, "-")` on one character. */
  function ScrubChar(c: char): char {
    if IsSafeChar(c) then c else '-'
  }

  /** Applies a per-character rewrite to every character of `s`. */
  function MapChars(f: char -> char, s: string): (r: string)
    ensures |r| == |s|
    ensures forall i :: 0 <= i < |s| ==> r[i] == f(s[i])
  {
    seq(|s|, i requires 0 <= i < |s| => f(s[i]))
  }

  function Downcase(s: string): string {
    MapChars(DowncaseChar, s)
  }

  function TrSpace(s: string): string {
    MapChars(TrSpaceChar, s)
  }

  function Scrub(s: string): string {
    MapChars(ScrubChar, s)
  }

  /** `Saveable#safe_id`: the storage key of an identifier. */
  function SafeId(id: string): (key: string)
    ensures |key| == |id|
    ensures forall i :: 0 <= i < |key| ==> IsSafeChar(key[i])
  {
    Scrub(TrSpace(Downcase(id)))
  }

  /**
    The transformation as a table on one character, written independently of
    the pipeline: a space becomes `_`, an upper-case ASCII letter its
    lower-case letter, a character of `[0-9a-z_-]` itself, anything else `-`.
  */
  function SafeIdChar(c: char): char {
    if c == ' ' then '_'
    else if 'A' <= c <= 'Z' then "abcdefghijklmnopqrstuvwxyz"[c as int - 'A' as int]
    else if IsSafeChar(c) then c
    else '-'
  }

  /** The pipeline maps the identifier one character at a time by the table. */
  lemma SafeIdPointwise(id: string)
    ensures |SafeId(id)| == |id|
    ensures forall i :: 0 <= i < |id| ==> SafeId(id)[i] == SafeIdChar(id[i])
  {
    forall i | 0 <= i < |id|
      ensures SafeId(id)[i] == SafeIdChar(id[i])
    {
      var c := id[i];
      assert SafeId(id)[i] == ScrubChar(TrSpaceChar(DowncaseChar(c)));
    }
  }

  /** Keys of concatenated identifiers concatenate. */
  lemma SafeIdAppend(x: string, y: string)
    ensures SafeId(x + y) == SafeId(x) + SafeId(y)
  {
    SafeIdPointwise(x);
    SafeIdPointwise(y);
    SafeIdPointwise(x + y);
  }

  /** A key character is left alone by the transformation, and only those are. */
  lemma SafeIdCharFixedIff(c: char)
    ensures SafeIdChar(c) == c <==> IsSafeChar(c)
  {
  }

  /** `safe_id` is idempotent: a key is its own key. */
  lemma SafeIdIdempotent(id: string)
    ensures SafeId(SafeId(id)) == SafeId(id)
  {
    var key := SafeId(id);
    SafeIdFixedIff(key);
  }

  /** A string is unchanged by `safe_id` exactly when it is already made of key characters. */
  lemma SafeIdFixedIff(s: string)
    ensures SafeId(s) == s <==> forall i :: 0 <= i < |s| ==> IsSafeChar(s[i])
  {
    SafeIdPointwise(s);
    if forall i :: 0 <= i < |s| ==> IsSafeChar(s[i]) {
      forall i | 0 <= i < |s|
        ensures SafeId(s)[i] == s[i]
      {
        SafeIdCharFixedIff(s[i]);
      }
    }
  }

  /** Different identifiers can share a key, e.g. "A b" and "a_b". */
  lemma SafeIdNotInjective()
    ensures exists x: string, y: string :: x != y && SafeId(x) == SafeId(y)
  {
    var x, y := "A b", "a_b";
    SafeIdPointwise(x);
    SafeIdPointwise(y);
    assert SafeId(x) == "a_b" == SafeId(y);
    assert x[0] != y[0];
  }

  /** The file name `"#{safe_id}.json"` that `storage_path` joins to the directory. */
  function StorageFileName(id: string): (name: string)
    ensures |name| == |id| + 5
    ensures name[..|id|] == SafeId(id) && name[|id|..] == ".json"
    ensures '/' !in name
    ensures forall i :: 0 <= i < |name| && name[i] == '.' ==> i == |id|
  {
    SafeId(id) + ".json"
  }
}
