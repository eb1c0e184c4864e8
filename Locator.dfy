/**
 * The code-pattern locator of src/lib.rs: an exact, first-match search of a
 * byte signature in the executable's text region, and the choice of the
 * offset at which the character-select hook is installed.
 */
module Locator {
  import opened Common

  /** Offset of the character-select routine in build 13.0.2, kept when the scan finds nothing. */
  const DEFAULT_FIGHTER_SELECTED_OFFSET: nat := 0x66e140

  /** The twelve instruction bytes that start the character-select routine. */
  const FIGHTER_SELECTED_SEARCH_CODE: seq<byte> :=
    [0xb0, 0xde, 0x45, 0x94,
     0xe0, 0x03, 0x1c, 0x32,
     0xe1, 0x03, 0x1a, 0x32]

  /** The window of `haystack` starting at `i` exists and equals `needle`. */
  predicate MatchesAt(haystack: seq<byte>, needle: seq<byte>, i: nat)
  {
    i + |needle| <= |haystack| && haystack[i..i + |needle|] == needle
  }

  /**
   * `windows(|needle|).position(..)` started at window `i`: the first window at
   * or after `i` that equals `needle`.
   */
  function FindFrom(haystack: seq<byte>, needle: seq<byte>, i: nat): (r: Option<nat>)
    requires |needle| > 0
    decreases |haystack| - i
    ensures r.Some? ==> i <= r.value && MatchesAt(haystack, needle, r.value)
    ensures r.Some? ==> forall j: nat :: i <= j < r.value ==> !MatchesAt(haystack, needle, j)
    ensures r.None? ==> forall j: nat :: i <= j ==> !MatchesAt(haystack, needle, j)
  {
    if i + |needle| > |haystack| then None
    else if haystack[i..i + |needle|] == needle then Some(i)
    else FindFrom(haystack, needle, i + 1)
  }

  /**
   * `find_subsequence`: the lowest offset at which `needle` occurs in
   * `haystack`, or `None` when it occurs nowhere. An empty needle makes
   * `windows(0)` panic, hence the precondition.
   */
  function FindSubsequence(haystack: seq<byte>, needle: seq<byte>): (r: Option<nat>)
    requires |needle| > 0
    ensures r.Some? ==> r.value + |needle| <= |haystack| && haystack[r.value..r.value + |needle|] == needle
    ensures r.Some? ==> forall j: nat :: j < r.value ==> !MatchesAt(haystack, needle, j)
    ensures r.None? <==> forall j: nat :: !MatchesAt(haystack, needle, j)
    ensures |haystack| < |needle| ==> r.None?
  {
    FindFrom(haystack, needle, 0)
  }

  /**
   * A first match in a region is still the first match when more bytes are
   * appended to the region: the scan never looks past the window it reports.
   */
  lemma FindSubsequenceExtend(haystack: seq<byte>, tail: seq<byte>, needle: seq<byte>)
    requires |needle| > 0
    requires FindSubsequence(haystack, needle).Some?
    ensures FindSubsequence(haystack + tail, needle) == FindSubsequence(haystack, needle)
  {
    var k := FindSubsequence(haystack, needle).value;
    var longer := haystack + tail;
    forall j: nat | j <= k
      ensures MatchesAt(longer, needle, j) == MatchesAt(haystack, needle, j)
    {
      assert longer[j..j + |needle|] == haystack[j..j + |needle|];
    }
    var r := FindSubsequence(longer, needle);
    assert r.Some? && r.value <= k;
  }

  /**
   * The offset the hook is installed at after `search_offsets` has run over
   * the text region `text`, starting from the offset `current`.
   */
  function ResolveOffset(text: seq<byte>, current: nat): (offset: nat)
    ensures (exists j: nat :: MatchesAt(text, FIGHTER_SELECTED_SEARCH_CODE, j)) ==>
              MatchesAt(text, FIGHTER_SELECTED_SEARCH_CODE, offset) &&
              forall j: nat :: j < offset ==> !MatchesAt(text, FIGHTER_SELECTED_SEARCH_CODE, j)
    ensures (forall j: nat :: !MatchesAt(text, FIGHTER_SELECTED_SEARCH_CODE, j)) ==> offset == current
  {
    match FindSubsequence(text, FIGHTER_SELECTED_SEARCH_CODE)
    case Some(found) => found
    case None => current
  }
}
