/** Deriving a file's extension from its object key, as the importer's
    storage service does before choosing a parser. */
module S3Keys {
  import opened Text

  /** `s.split(".")`: the pieces between dots, in order. There is always at
      least one piece; a string with no dot is a single piece. */
  function Split(s: string): (parts: seq<string>)
    ensures |parts| >= 1
  {
    if s == [] then [""]
    else
      var init := Split(s[..|s| - 1]);
      var c := s[|s| - 1];
      if c == '.' then init + [""]
      else init[..|init| - 1] + [init[|init| - 1] + [c]]
  }

  /** The text after the last dot of `s` (all of `s` when it has no dot). */
  function LastSegment(s: string): (r: string)
    ensures |r| <= |s| && r == s[|s| - |r|..]
    ensures '.' !in r
    ensures |r| < |s| ==> s[|s| - |r| - 1] == '.'
  {
    if s == [] then ""
    else if s[|s| - 1] == '.' then ""
    else LastSegment(s[..|s| - 1]) + [s[|s| - 1]]
  }

  /** The piece `pop()` takes off the end of `split(".")` is the text after
      the last dot. */
  lemma {:induction false} SplitLastIsLastSegment(s: string)
    ensures Split(s)[|Split(s)| - 1] == LastSegment(s)
  {
    if s != [] {
      SplitLastIsLastSegment(s[..|s| - 1]);
    }
  }

  /** `key.split(".").pop()?.toLowerCase() || ""`. `pop()` on the result of
      `split` is never undefined, and `x || ""` leaves every string as it
      is, so the result is the lower-cased last piece: the text after the
      last dot of the key, or the whole key when it has no dot. */
  function GetFileExtension(key: string): (ext: string)
    ensures |ext| <= |key| && ext == Lower(key[|key| - |ext|..])
    ensures |ext| < |key| ==> key[|key| - |ext| - 1] == '.'
    ensures '.' !in ext && IsLower(ext)
  {
    var parts := Split(key);
    SplitLastIsLastSegment(key);
    var last := parts[|parts| - 1];
    var popped := Lower(last);
    assert '.' !in popped by {
      forall i | 0 <= i < |popped| ensures popped[i] != '.' {
        assert last[i] != '.';
      }
    }
    if popped != "" then popped else ""
  }

  /** A key with no dot gives the whole key, lower-cased; not "". */
  lemma NoDotGivesWholeKey(key: string)
    requires '.' !in key
    ensures GetFileExtension(key) == Lower(key)
  {
  }

  /** An empty key, or one ending in a dot, gives "". */
  lemma TrailingDotGivesEmpty(key: string)
    requires key == [] || key[|key| - 1] == '.'
    ensures GetFileExtension(key) == ""
  {
  }

  /** Deriving the extension of an extension changes nothing. */
  lemma ExtensionIdempotent(key: string)
    ensures GetFileExtension(GetFileExtension(key)) == GetFileExtension(key)
  {
    var ext := GetFileExtension(key);
    NoDotGivesWholeKey(ext);
    LowerOfLower(ext);
  }
}
