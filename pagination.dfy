/**
 * Moving from one 510(k) result page to the next
 * (`_bump_pagenum_in_href`, the PAGENUM arithmetic of
 * `find_next_page_element` and `try_next_page` in
 * BioLLM/fda_data_parsing/parsing.py).
 *
 * A URL is kept split into the six parts `urlparse` returns, with its query as
 * the list of already-decoded `key=value` pairs; the text form of a URL
 * (`urlunparse`, percent-encoding) is not modelled. What the browser shows
 * after each navigation is an oracle.
 */
module Pagination {
  import opened TextUtil
  import opened Listing

  /** One `key=value` pair of a query string. */
  datatype Pair = Pair(key: string, value: string)

  /** A URL as `urlparse` splits it; `query` holds the pairs in order. */
  datatype Url = Url(scheme: string, netloc: string, path: string, params: string,
                     query: seq<Pair>, fragment: string)

  /** One entry of the dictionary `parse_qs` builds: a key and all its values. */
  datatype Param = Param(key: string, values: seq<string>)

  // ---------------------------------------------------------------------
  // The parse_qs dictionary
  // ---------------------------------------------------------------------

  /** Keys are distinct and every key has at least one value. */
  predicate WellFormed(q: seq<Param>)
  {
    (forall i, j :: 0 <= i < j < |q| ==> q[i].key != q[j].key)
    && (forall i :: 0 <= i < |q| ==> q[i].values != [])
  }

  /** Position of key `k`, if present. */
  function IndexOf(q: seq<Param>, k: string): (r: Option<nat>)
    ensures r.Some? ==> r.value < |q| && q[r.value].key == k
    ensures r.None? <==> forall i :: 0 <= i < |q| ==> q[i].key != k
  {
    if q == [] then None
    else if q[0].key == k then Some(0)
    else match IndexOf(q[1..], k)
      case None => None
      case Some(i) => Some(i + 1)
  }

  /** Python `q.get(k)`. */
  function Find(q: seq<Param>, k: string): Option<seq<string>>
  {
    match IndexOf(q, k)
    case None => None
    case Some(i) => Some(q[i].values)
  }

  /** One pair read by `parse_qs`: a blank value is dropped, otherwise it joins its key's list. */
  function AddPair(q: seq<Param>, p: Pair): (r: seq<Param>)
    requires WellFormed(q)
    ensures WellFormed(r)
  {
    if p.value == "" then q
    else match IndexOf(q, p.key)
      case Some(i) => q[i := Param(p.key, q[i].values + [p.value])]
      case None => q + [Param(p.key, [p.value])]
  }

  /** Python `parse_qs(query)` on the decoded pairs. */
  function ParseQs(pairs: seq<Pair>): (q: seq<Param>)
    ensures WellFormed(q)
  {
    if pairs == [] then [] else AddPair(ParseQs(pairs[..|pairs| - 1]), pairs[|pairs| - 1])
  }

  /** The non-blank values given to key `k`, in query order. */
  function ValuesOf(pairs: seq<Pair>, k: string): seq<string>
  {
    if pairs == [] then []
    else
      var last := pairs[|pairs| - 1];
      ValuesOf(pairs[..|pairs| - 1], k) + (if last.key == k && last.value != "" then [last.value] else [])
  }

  /** Python `q[k] = vs`: an existing key keeps its place, a new one goes last. */
  function Put(q: seq<Param>, k: string, vs: seq<string>): (r: seq<Param>)
    requires WellFormed(q) && vs != []
    ensures WellFormed(r)
  {
    match IndexOf(q, k)
    case Some(i) => q[i := Param(k, vs)]
    case None => q + [Param(k, vs)]
  }

  /** Python `urlencode({k: v[0] for k, v in q.items()})`, as pairs. */
  function FirstValues(q: seq<Param>): (r: seq<Pair>)
    requires WellFormed(q)
    ensures |r| == |q|
    ensures forall i :: 0 <= i < |q| ==> r[i] == Pair(q[i].key, q[i].values[0])
  {
    seq(|q|, i requires 0 <= i < |q| => Pair(q[i].key, q[i].values[0]))
  }

  /** In a well-formed dictionary a key's position is the one `IndexOf` finds. */
  lemma IndexOfUnique(q: seq<Param>, k: string, i: nat)
    requires WellFormed(q) && i < |q| && q[i].key == k
    ensures IndexOf(q, k) == Some(i)
  {
  }

  lemma FindAddPair(q: seq<Param>, p: Pair, k: string)
    requires WellFormed(q)
    ensures Find(AddPair(q, p), k) ==
              if p.key == k && p.value != "" then
                Some((if Find(q, k).Some? then Find(q, k).value else []) + [p.value])
              else Find(q, k)
  {
    var r := AddPair(q, p);
    if p.value != "" {
      match IndexOf(q, p.key)
      case Some(i) =>
        assert r == q[i := Param(p.key, q[i].values + [p.value])];
        if p.key == k {
          IndexOfUnique(r, k, i);
        } else if IndexOf(q, k).Some? {
          var j := IndexOf(q, k).value;
          assert r[j] == q[j];
          IndexOfUnique(r, k, j);
        } else {
          assert IndexOf(r, k).None?;
        }
      case None =>
        assert r == q + [Param(p.key, [p.value])];
        if p.key == k {
          IndexOfUnique(r, k, |q|);
          assert Find(r, k) == Some([p.value]);
          assert Find(q, k).None?;
          var none: seq<string> := [];
          assert none + [p.value] == [p.value];
        } else if IndexOf(q, k).Some? {
          var j := IndexOf(q, k).value;
          assert r[j] == q[j];
          IndexOfUnique(r, k, j);
        } else {
          assert IndexOf(r, k).None?;
        }
    }
  }

  /** `parse_qs` gives a key exactly its non-blank values, in order; a key with none is absent. */
  lemma {:induction false} ParseQsValues(pairs: seq<Pair>, k: string)
    ensures Find(ParseQs(pairs), k) == if ValuesOf(pairs, k) == [] then None else Some(ValuesOf(pairs, k))
  {
    if pairs != [] {
      var init := pairs[..|pairs| - 1];
      var last := pairs[|pairs| - 1];
      ParseQsValues(init, k);
      FindAddPair(ParseQs(init), last, k);
      var before := ValuesOf(init, k);
      assert ParseQs(pairs) == AddPair(ParseQs(init), last);
      if last.key == k && last.value != "" {
        assert ValuesOf(pairs, k) == before + [last.value];
        if before == [] {
          assert before + [last.value] == [last.value];
        }
      } else {
        assert ValuesOf(pairs, k) == before + [];
        assert before + [] == before;
      }
    }
  }

  /** `q[k] = vs` changes only the entry of `k`, appending it when `k` is new. */
  lemma PutEntries(q: seq<Param>, k: string, vs: seq<string>)
    requires WellFormed(q) && vs != []
    ensures var r := Put(q, k, vs);
      && |r| == |q| + (if IndexOf(q, k).None? then 1 else 0)
      && (forall i :: 0 <= i < |q| ==> r[i] == if q[i].key == k then Param(k, vs) else q[i])
      && (IndexOf(q, k).None? ==> r[|q|] == Param(k, vs))
  {
    match IndexOf(q, k)
    case Some(i) =>
      assert forall j :: 0 <= j < |q| && q[j].key == k ==> j == i;
    case None =>
  }

  /** Re-encoding after `q[k] = [v]` for a present key: `v` at `k`'s place, first values elsewhere. */
  lemma ReencodeAfterPut(q: seq<Param>, k: string, v: string)
    requires WellFormed(q) && IndexOf(q, k).Some?
    ensures var r := FirstValues(Put(q, k, [v]));
      && |r| == |q|
      && forall i :: 0 <= i < |q| ==> r[i] == if q[i].key == k then Pair(k, v) else Pair(q[i].key, q[i].values[0])
  {
    PutEntries(q, k, [v]);
  }

  // ---------------------------------------------------------------------
  // _bump_pagenum_in_href
  // ---------------------------------------------------------------------

  /** The parameter the bump rewrites: PAGENUM when present, else start, else none. */
  function BumpedKey(q: seq<Param>): Option<string>
  {
    if Find(q, "PAGENUM").Some? then Some("PAGENUM")
    else if Find(q, "start").Some? then Some("start")
    else None
  }

  /** The URL with query `q` re-encoded keeping the first value of every key. */
  function WithQuery(u: Url, q: seq<Param>): Url
    requires WellFormed(q)
  {
    u.(query := FirstValues(q))
  }

  /**
   * Python `_bump_pagenum_in_href(href, step)`: add `step` to PAGENUM, else to
   * start, else add PAGENUM=11; `None` stands for the `ValueError` of `int()`.
   */
  function BumpPagenumInHref(href: Url, step: int): Option<Url>
  {
    var q := ParseQs(href.query);
    match BumpedKey(q)
    case None => Some(WithQuery(href, Put(q, "PAGENUM", ["11"])))
    case Some(k) =>
      var vs := Find(q, k).value;
      match ParseInt(vs[0])
      case None => None
      case Some(cur) => Some(WithQuery(href, Put(q, k, [IntToStr(cur + step)])))
  }

  /** The bump fails exactly when the parameter it rewrites does not hold an integer. */
  lemma BumpFailsOnNonInteger(href: Url, step: int)
    ensures var q := ParseQs(href.query);
      BumpPagenumInHref(href, step).None? <==>
        BumpedKey(q).Some? && ParseInt(Find(q, BumpedKey(q).value).value[0]).None?
  {
  }

  /**
   * A successful bump keeps the scheme, host, path, parameters and fragment,
   * keeps every key in place with its first value, and gives the rewritten key
   * a value that reads back as the old one plus `step`.
   */
  lemma BumpRewritesOneKey(href: Url, step: int, k: string, cur: int)
    requires BumpedKey(ParseQs(href.query)) == Some(k)
    requires ParseInt(Find(ParseQs(href.query), k).value[0]) == Some(cur)
    ensures var q := ParseQs(href.query);
      var r := BumpPagenumInHref(href, step);
      && r.Some?
      && r.value.(query := []) == href.(query := [])
      && |r.value.query| == |q|
      && (forall i :: 0 <= i < |q| && q[i].key != k ==> r.value.query[i] == Pair(q[i].key, q[i].values[0]))
      && (forall i :: 0 <= i < |q| && q[i].key == k ==>
            r.value.query[i].key == k && ParseInt(r.value.query[i].value) == Some(cur + step))
  {
    var q := ParseQs(href.query);
    var v := IntToStr(cur + step);
    assert BumpPagenumInHref(href, step) == Some(WithQuery(href, Put(q, k, [v])));
    ReencodeAfterPut(q, k, v);
    ParseIntOfIntToStr(cur + step);
  }

  /** Without PAGENUM or start the pairs keep their first values and PAGENUM=11 is appended. */
  lemma BumpAddsPagenum(href: Url, step: int)
    requires BumpedKey(ParseQs(href.query)).None?
    ensures var q := ParseQs(href.query);
      var r := BumpPagenumInHref(href, step);
      && r.Some?
      && r.value.(query := []) == href.(query := [])
      && r.value.query == FirstValues(q) + [Pair("PAGENUM", "11")]
  {
    var q := ParseQs(href.query);
    var r := BumpPagenumInHref(href, step).value;
    assert r.query == FirstValues(q + [Param("PAGENUM", ["11"])]);
  }

  /** A PAGENUM given in the query is what the bump increments, even when start is also there. */
  lemma BumpPrefersPagenum(href: Url, step: int)
    requires ValuesOf(href.query, "PAGENUM") != []
    ensures BumpedKey(ParseQs(href.query)) == Some("PAGENUM")
    ensures Find(ParseQs(href.query), "PAGENUM") == Some(ValuesOf(href.query, "PAGENUM"))
  {
    ParseQsValues(href.query, "PAGENUM");
  }

  // ---------------------------------------------------------------------
  // PAGENUM to page number
  // ---------------------------------------------------------------------

  /** Python `(pagenum - 1) // 10 + 1`; `//` floors, as Dafny's `/` does for a positive divisor. */
  function PageOfPagenum(pagenum: int): int
  {
    (pagenum - 1) / 10 + 1
  }

  /** The current page read from a URL: 1 without PAGENUM or when its value is not an integer. */
  function CurrentPage(u: Url): int
  {
    match Find(ParseQs(u.query), "PAGENUM")
    case None => 1
    case Some(vs) =>
      match ParseInt(vs[0])
      case None => 1
      case Some(n) => PageOfPagenum(n)
  }

  /** Page p covers the PAGENUM values 10(p-1)+1 to 10p: 1, 11, 21 are pages 1, 2, 3. */
  lemma PagenumBand(n: int)
    ensures var p := PageOfPagenum(n); 10 * (p - 1) + 1 <= n <= 10 * p
    ensures forall p: int :: 10 * (p - 1) + 1 <= n <= 10 * p ==> PageOfPagenum(n) == p
  {
  }

  /** A URL whose first PAGENUM value is the number `n` is on page `(n-1)//10+1`. */
  lemma CurrentPageOfUrl(u: Url, n: int)
    requires ValuesOf(u.query, "PAGENUM") != [] && ValuesOf(u.query, "PAGENUM")[0] == IntToStr(n)
    ensures CurrentPage(u) == PageOfPagenum(n)
  {
    ParseQsValues(u.query, "PAGENUM");
    ParseIntOfIntToStr(n);
  }

  lemma FirstPages()
    ensures PageOfPagenum(1) == 1 && PageOfPagenum(11) == 2 && PageOfPagenum(21) == 3
    ensures PageOfPagenum(10) == 1 && PageOfPagenum(20) == 2
  {
  }

  // ---------------------------------------------------------------------
  // try_next_page
  // ---------------------------------------------------------------------

  /** The browser after a navigation: an exception was raised, or the page shows these rows. */
  datatype Landing = NavFailed | Landed(rows: seq<ListingRow>)

  /** The three strategies, in the order they are tried. */
  datatype Strategy = Arrow | PageLink | RebuiltUrl

  /**
   * What one strategy decides: `Some(moved)` when the first-row signature
   * changed (then `moved` is whether the new page has rows), `None` to go on.
   */
  function Attempt(before: string, l: Landing): Option<bool>
  {
    if l.Landed? && Signature(l.rows) != before then Some(|l.rows| > 0) else None
  }

  /** Python `int(params.get("PAGENUM", ["1"])[0])`; `None` is the `ValueError`. */
  function PagenumForNext(u: Url): Option<int>
  {
    match Find(ParseQs(u.query), "PAGENUM")
    case None => Some(1)
    case Some(vs) => ParseInt(vs[0])
  }

  /** The third strategy's URL: PAGENUM set to `cur + 10`, every key with its first value. */
  function NextUrl(u: Url, cur: int): Url
  {
    WithQuery(u, Put(ParseQs(u.query), "PAGENUM", [IntToStr(cur + 10)]))
  }

  /**
   * Python `try_next_page`. `arrow` is where clicking or following the ">"
   * link lands (`None`: no such link); `linkTo(n)` is where the link whose href
   * contains `PAGENUM=n` lands (`None`: no such link); `visit(u)` is where
   * loading `u` lands.
   */
  function TryNextPage(beforeRows: seq<ListingRow>, beforeUrl: Url, arrow: Option<Landing>,
                       linkTo: int -> Option<Landing>, visit: Url -> Landing): bool
  {
    var before := Signature(beforeRows);
    var first := if arrow.Some? then Attempt(before, arrow.value) else None;
    if first.Some? then first.value
    else match PagenumForNext(beforeUrl)
      case None => false
      case Some(cur) =>
        var second := if linkTo(cur + 10).Some? then Attempt(before, linkTo(cur + 10).value) else None;
        if second.Some? then second.value
        else
          var third := Attempt(before, visit(NextUrl(beforeUrl, cur)));
          third.Some? && third.value
  }

  /**
   * The strategy that decided, and the rows it landed on: the first one whose
   * landing page has a first-row signature different from before.
   */
  function Decider(beforeRows: seq<ListingRow>, beforeUrl: Url, arrow: Option<Landing>,
                   linkTo: int -> Option<Landing>, visit: Url -> Landing): (d: Option<(Strategy, seq<ListingRow>)>)
    ensures d.Some? ==> Signature(d.value.1) != Signature(beforeRows)
  {
    var before := Signature(beforeRows);
    if arrow.Some? && arrow.value.Landed? && Signature(arrow.value.rows) != before then
      Some((Arrow, arrow.value.rows))
    else match PagenumForNext(beforeUrl)
      case None => None
      case Some(cur) =>
        var l := linkTo(cur + 10);
        if l.Some? && l.value.Landed? && Signature(l.value.rows) != before then
          Some((PageLink, l.value.rows))
        else
          var v := visit(NextUrl(beforeUrl, cur));
          if v.Landed? && Signature(v.rows) != before then Some((RebuiltUrl, v.rows)) else None
  }

  /** The result is true exactly when some strategy changed the page and the new page has rows. */
  lemma TryNextPageDecided(beforeRows: seq<ListingRow>, beforeUrl: Url, arrow: Option<Landing>,
                           linkTo: int -> Option<Landing>, visit: Url -> Landing)
    ensures var d := Decider(beforeRows, beforeUrl, arrow, linkTo, visit);
      TryNextPage(beforeRows, beforeUrl, arrow, linkTo, visit) <==> d.Some? && |d.value.1| > 0
  {
    var before := Signature(beforeRows);
    var t := TryNextPage(beforeRows, beforeUrl, arrow, linkTo, visit);
    var d := Decider(beforeRows, beforeUrl, arrow, linkTo, visit);
    if arrow.Some? && Attempt(before, arrow.value).Some? {
      assert d == Some((Arrow, arrow.value.rows));
      assert t == (|arrow.value.rows| > 0);
    } else if PagenumForNext(beforeUrl).None? {
      assert d.None? && !t;
    } else {
      var cur := PagenumForNext(beforeUrl).value;
      var l := linkTo(cur + 10);
      if l.Some? && Attempt(before, l.value).Some? {
        assert d == Some((PageLink, l.value.rows));
        assert t == (|l.value.rows| > 0);
      } else {
        var v := visit(NextUrl(beforeUrl, cur));
        assert t == (Attempt(before, v) == Some(true));
        assert d == if v.Landed? && Signature(v.rows) != before then Some((RebuiltUrl, v.rows)) else None;
      }
    }
  }

  /** Once the arrow changes the page, the other strategies are never consulted. */
  lemma ArrowFirst(beforeRows: seq<ListingRow>, beforeUrl: Url, arrow: Option<Landing>,
                   linkTo: int -> Option<Landing>, visit: Url -> Landing,
                   linkTo': int -> Option<Landing>, visit': Url -> Landing)
    requires arrow.Some? && Attempt(Signature(beforeRows), arrow.value).Some?
    ensures TryNextPage(beforeRows, beforeUrl, arrow, linkTo, visit)
            == TryNextPage(beforeRows, beforeUrl, arrow, linkTo', visit')
    ensures Decider(beforeRows, beforeUrl, arrow, linkTo, visit).value.0 == Arrow
  {
  }

  /** When the page link changes the page, the rebuilt URL is never loaded. */
  lemma PageLinkSecond(beforeRows: seq<ListingRow>, beforeUrl: Url, arrow: Option<Landing>,
                       linkTo: int -> Option<Landing>, visit: Url -> Landing, visit': Url -> Landing, cur: int)
    requires arrow.None? || Attempt(Signature(beforeRows), arrow.value).None?
    requires PagenumForNext(beforeUrl) == Some(cur)
    requires linkTo(cur + 10).Some? && Attempt(Signature(beforeRows), linkTo(cur + 10).value).Some?
    ensures TryNextPage(beforeRows, beforeUrl, arrow, linkTo, visit)
            == TryNextPage(beforeRows, beforeUrl, arrow, linkTo, visit')
    ensures Decider(beforeRows, beforeUrl, arrow, linkTo, visit).value.0 == PageLink
  {
  }

  /** A PAGENUM that is not an integer leaves only the arrow: strategies 2 and 3 both raise. */
  lemma UnparsablePagenumOnlyArrow(beforeRows: seq<ListingRow>, beforeUrl: Url, arrow: Option<Landing>,
                                   linkTo: int -> Option<Landing>, visit: Url -> Landing)
    requires PagenumForNext(beforeUrl).None?
    ensures TryNextPage(beforeRows, beforeUrl, arrow, linkTo, visit)
            <==> arrow.Some? && Attempt(Signature(beforeRows), arrow.value) == Some(true)
  {
  }

  /**
   * A strategy that reaches a different page with no rows ends the search
   * with false, though a later strategy might have found rows.
   */
  lemma ChangedToEmptyPageStops(beforeRows: seq<ListingRow>, beforeUrl: Url,
                                linkTo: int -> Option<Landing>, visit: Url -> Landing)
    requires beforeRows != [] && beforeRows[0].first.Some? && beforeRows[0].second.Some?
    ensures !TryNextPage(beforeRows, beforeUrl, Some(Landed([])), linkTo, visit)
  {
  }

  /**
   * The rebuilt URL carries PAGENUM = cur + 10, readable back as a number,
   * and keeps the rest of the URL.
   */
  lemma NextUrlPagenum(u: Url, cur: int)
    ensures var r := NextUrl(u, cur);
      && r.(query := []) == u.(query := [])
      && (exists i :: 0 <= i < |r.query| && r.query[i].key == "PAGENUM" && ParseInt(r.query[i].value) == Some(cur + 10))
  {
    var q := ParseQs(u.query);
    var r := NextUrl(u, cur);
    ParseIntOfIntToStr(cur + 10);
    match IndexOf(q, "PAGENUM")
    case Some(i) =>
      assert r.query[i] == Pair("PAGENUM", IntToStr(cur + 10));
    case None =>
      assert r.query[|q|] == Pair("PAGENUM", IntToStr(cur + 10));
  }
}
