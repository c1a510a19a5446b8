/**
 * The keyboard handling the search-and-select inputs share: which key was
 * pressed, and how the arrow keys move the highlighted dropdown entry.
 */
module Highlight {

  /** The keys the handlers tell apart; every other key is `OtherKey`. */
  datatype Key = ArrowDown | ArrowUp | Enter | Escape | OtherKey

  /**
   * The highlight after ArrowDown: one further down, but never past the last
   * match, and 0 when nothing matches.
   */
  function Down(prev: int, hasNoMatches: bool, matches: nat): int {
    var last := if hasNoMatches then 0 else matches - 1;
    if prev + 1 < last then prev + 1 else last
  }

  /** The highlight after ArrowUp: one further up, but never above the first entry. */
  function Up(prev: int): int {
    if prev - 1 > 0 then prev - 1 else 0
  }

  /**
   * ArrowDown moves one place unless that would pass the last match, and then
   * lands on the last match; it never passes it. From a valid position, with
   * a match to land on or none at all, it stays non-negative.
   */
  lemma DownSpec(prev: int, hasNoMatches: bool, matches: nat)
    ensures var r := Down(prev, hasNoMatches, matches);
      var last := if hasNoMatches then 0 else matches - 1;
      r <= last && r <= prev + 1 && (r == prev + 1 || r == last) &&
      (prev >= 0 && (hasNoMatches || matches > 0) ==> r >= 0) &&
      (!hasNoMatches && 0 <= prev + 1 < matches ==> r == prev + 1)
  {
  }

  /** ArrowUp moves one place up, or stays on the first entry. */
  lemma UpSpec(prev: int)
    ensures var r := Up(prev);
      r >= 0 && (prev >= 1 ==> r == prev - 1) && (prev <= 1 ==> r == 0)
  {
  }
}
