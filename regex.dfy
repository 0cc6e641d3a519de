/**
 * The regular-expression searches of the FDA 510(k) stages, as an oracle:
 * the patterns are kept as text and `re.search` is a given function.
 */
module Regex {
  import opened TextUtil

  /** A match: where it starts and ends in the searched text, and its first group. */
  datatype Match = Match(start: int, end: int, group1: string)

  /**
   * `re.search(pattern, text)` with the flags of one call site, `None` when
   * nothing matches.
   */
  type Search = (string, string) -> Option<Match>

  /** Every match lies inside the text searched. */
  ghost predicate Sound(search: Search)
  {
    forall p, t :: search(p, t).Some? ==> 0 <= search(p, t).value.start <= search(p, t).value.end <= |t|
  }

  /** `m.group(0)`: the matched text. */
  function Group0(t: string, m: Match): string
  {
    PySlice(t, m.start, m.end)
  }
}
