/**
 * The crawl controller of BioLLM/fda_data_parsing/parsing.py:
 * `process_detail_page`, the resume set and the main loop of
 * `crawl_fda_510k`.
 *
 * The browser is an oracle. `navigate(n)` is what the `n`-th call of
 * `try_next_page` returned together with the rows the browser shows after
 * it (its decision is modelled by `Pagination.TryNextPage`); `detail(n)` is
 * the `n`-th detail tab: `None` when opening it raised `TimeoutException` or
 * `WebDriverException`, otherwise the page it shows. `join` is `urljoin`.
 * `while True` is bounded by `fuel`.
 */
module Crawl {
  import opened TextUtil
  import opened Listing
  import opened PdfLink
  import opened PdfFetch

  /** The default `tries` of `extract_pdf_text_with_session`. */
  const PdfTries := 3

  /** One JSONL line written by the crawler: the listing item enriched from its detail page. */
  datatype Record = Record(kNumber: string, deviceName: string, applicant: string, decisionDate: string,
                           detailLink: Option<string>, summaryLink: Option<string>,
                           summaryText: Option<string>, pdfType: string)

  /**
   * The detail tab: its URL, its `<a href>` anchors, the HTTP session that
   * fetches the chosen PDF, and the first `K\d{6}` match of the body text.
   */
  datatype DetailPage = DetailPage(currentUrl: string, anchors: seq<Anchor>, fetch: nat -> Reply,
                                   bodyKNumber: Option<string>)

  // ---------------------------------------------------------------------
  // process_detail_page
  // ---------------------------------------------------------------------

  /** The record `process_detail_page` returns for item `it`. */
  function DetailRecord(page: DetailPage, it: Item, join: (string, string) -> string): Record
  {
    var best := Select(Candidates(page.anchors, SummaryTier), Candidates(page.anchors, BackupTier),
                       Candidates(page.anchors, AnyTier));
    var link := if best.0.Some? && best.0.value != "" then Some(join(page.currentUrl, best.0.value)) else None;
    var text := if link.Some? then Run(page.fetch, 1, PdfTries).0 else None;
    var k := if page.bodyKNumber.Some? && page.bodyKNumber.value != "" then page.bodyKNumber.value else it.kNumber;
    Record(k, it.deviceName, it.applicant, it.decisionDate, it.detailLink, link, text, best.1)
  }

  /** Picks the best PDF link, fetches its text when there is one, and reads the K-number of the page. */
  method ProcessDetailPage(page: DetailPage, it: Item, join: (string, string) -> string) returns (rec: Record)
    ensures rec == DetailRecord(page, it, join)
  {
    var pdfUrl, pdfType := FindBestPdfLink(page.anchors);
    var summaryLink: Option<string> := None;
    var summaryText: Option<string> := None;
    if pdfUrl.Some? && pdfUrl.value != "" {
      summaryLink := Some(join(page.currentUrl, pdfUrl.value));
      var fetches;
      summaryText, fetches := ExtractPdfText(page.fetch, PdfTries);
    }
    var k := it.kNumber;
    if page.bodyKNumber.Some? && page.bodyKNumber.value != "" {
      k := page.bodyKNumber.value;
    }
    rec := Record(k, it.deviceName, it.applicant, it.decisionDate, it.detailLink, summaryLink, summaryText, pdfType);
  }

  /**
   * The enriched record keeps the listing fields, names the type of the best
   * PDF tier, has a summary link exactly when that type is not "", has text
   * only with a link, and takes the detail page's K-number when it has one.
   */
  lemma DetailRecordFields(page: DetailPage, it: Item, join: (string, string) -> string)
    ensures var rec := DetailRecord(page, it, join);
      && rec.deviceName == it.deviceName && rec.applicant == it.applicant
      && rec.decisionDate == it.decisionDate && rec.detailLink == it.detailLink
      && rec.pdfType == TypeName(BestTier(page.anchors))
      && (rec.summaryLink.None? <==> rec.pdfType == "")
      && (rec.summaryText.Some? ==> rec.summaryLink.Some? && rec.summaryText.value != [])
      && rec.kNumber == (if page.bodyKNumber.Some? && page.bodyKNumber.value != "" then page.bodyKNumber.value
                         else it.kNumber)
  {
    var best := Select(Candidates(page.anchors, SummaryTier), Candidates(page.anchors, BackupTier),
                       Candidates(page.anchors, AnyTier));
    SelectionIsFirstOfBestTier(page.anchors, best.0, best.1);
    if best.0.Some? {
      var j :| 0 <= j < |page.anchors| && page.anchors[j].Anchor? && best.0.value == page.anchors[j].href;
      var c := Candidates(page.anchors, BestTier(page.anchors));
      BestTierFirst(page.anchors, BestTier(page.anchors));
      CandidateIsPdfLink(page.anchors[FirstOfTier(page.anchors, BestTier(page.anchors))]);
      assert best.0.value != "";
    }
    if Run(page.fetch, 1, PdfTries).0.Some? {
      TextComesFromAcceptedPdf(page.fetch, 1, PdfTries);
    }
  }

  // ---------------------------------------------------------------------
  // The resume set
  // ---------------------------------------------------------------------

  /** A line of an earlier output file: unparseable JSON, or an object and its `k_number` if any. */
  datatype SavedLine = Unparseable | Parsed(kNumber: Option<string>)

  /** Some parseable line of `lines` has `k_number` equal to `k`. */
  predicate InSaved(lines: seq<SavedLine>, k: string)
  {
    exists j :: 0 <= j < |lines| && lines[j] == Parsed(Some(k))
  }

  /**
   * The K-numbers to skip: with `resume`, those of every parseable line of
   * the existing file (`None`: the file does not exist); otherwise none.
   */
  method LoadSeen(resume: bool, saved: Option<seq<SavedLine>>) returns (seen: set<string>)
    ensures forall k :: k in seen <==> resume && saved.Some? && InSaved(saved.value, k)
  {
    seen := {};
    if resume && saved.Some? {
      var lines := saved.value;
      for i := 0 to |lines|
        invariant forall k :: k in seen <==> InSaved(lines[..i], k)
      {
        assert forall k :: InSaved(lines[..i], k) ==> InSaved(lines[..i + 1], k) by {
          forall k | InSaved(lines[..i], k) ensures InSaved(lines[..i + 1], k) {
            var j :| 0 <= j < i && lines[..i][j] == Parsed(Some(k));
            assert lines[..i + 1][j] == lines[..i][j];
          }
        }
        assert forall k :: InSaved(lines[..i + 1], k) ==> InSaved(lines[..i], k) || lines[i] == Parsed(Some(k)) by {
          forall k | InSaved(lines[..i + 1], k) ensures InSaved(lines[..i], k) || lines[i] == Parsed(Some(k)) {
            var j :| 0 <= j < i + 1 && lines[..i + 1][j] == Parsed(Some(k));
            if j < i {
              assert lines[..i][j] == lines[..i + 1][j];
            }
          }
        }
        match lines[i]
        case Unparseable =>
        case Parsed(k) =>
          if k.Some? {
            seen := seen + {k.value};
            assert lines[..i + 1][i] == lines[i];
          }
      }
      assert lines[..|lines|] == lines;
    }
  }

  // ---------------------------------------------------------------------
  // One result page
  // ---------------------------------------------------------------------

  /** The fixed inputs of a crawl. */
  datatype Config = Config(maxPages: int, resume: bool, seen: set<string>,
                           navigate: nat -> NextPage, detail: nat -> Option<DetailPage>,
                           join: (string, string) -> string)

  /** What a call of `try_next_page` returned and the rows the browser shows afterwards. */
  datatype NextPage = NextPage(moved: bool, rows: seq<ListingRow>)

  /** A listing item the resume check skips. */
  predicate Skipped(cfg: Config, it: Item)
  {
    cfg.resume && it.kNumber in cfg.seen
  }

  /** No item of `items` is skipped by the resume check. */
  predicate NoneSkipped(cfg: Config, items: seq<Item>)
  {
    forall j :: 0 <= j < |items| ==> !Skipped(cfg, items[j])
  }

  /** The `count` detail tabs from the `visits`-th on all open. */
  predicate TabsOpen(cfg: Config, visits: nat, count: nat)
  {
    forall n :: visits <= n < visits + count ==> cfg.detail(n).Some?
  }

  /**
   * A line of the output file, by where it comes from: the detail tab it was
   * read from and the listing item it enriches. The JSON object on the line
   * is `DetailRecord(page, item, join)`, as `Lines` spells out.
   */
  datatype Visit = Visit(page: DetailPage, item: Item)

  /** The JSON objects of the lines `vs`. */
  function Lines(vs: seq<Visit>, join: (string, string) -> string): seq<Record>
  {
    seq(|vs|, i requires 0 <= i < |vs| => DetailRecord(vs[i].page, vs[i].item, join))
  }

  /** The objects of two runs of lines, one after the other. */
  lemma LinesAppend(a: seq<Visit>, b: seq<Visit>, join: (string, string) -> string)
    ensures Lines(a + b, join) == Lines(a, join) + Lines(b, join)
  {
    var l := Lines(a + b, join);
    var r := Lines(a, join) + Lines(b, join);
    forall i | 0 <= i < |l| ensures l[i] == r[i] {
      if i < |a| {
        assert (a + b)[i] == a[i];
      } else {
        assert (a + b)[i] == b[i - |a|];
      }
    }
  }

  /**
   * The lines written for `items` and the number of detail tabs opened so
   * far, the first tab opened here being `detail(visits)`.
   */
  function PageVisits(cfg: Config, items: seq<Item>, visits: nat): (r: (seq<Visit>, nat))
    ensures visits <= r.1 && |r.0| <= r.1 - visits && |r.0| <= |items|
    decreases |items|
  {
    if |items| == 0 then ([], visits)
    else if Skipped(cfg, items[0]) then PageVisits(cfg, items[1..], visits)
    else
      var rest := PageVisits(cfg, items[1..], visits + 1);
      match cfg.detail(visits)
      case None => rest
      case Some(page) => ([Visit(page, items[0])] + rest.0, rest.1)
  }

  /** The inner loop over one page's items; `pageWritten` counts the lines written. */
  method ProcessPage(cfg: Config, items: seq<Item>, visits0: nat)
    returns (records: seq<Record>, visits: nat, pageWritten: nat)
    ensures var p := PageVisits(cfg, items, visits0);
      records == Lines(p.0, cfg.join) && visits == p.1
    ensures pageWritten == |records|
  {
    records := [];
    visits := visits0;
    pageWritten := 0;
    ghost var done: seq<Visit> := [];
    assert items[0..] == items;
    assert [] + PageVisits(cfg, items, visits0).0 == PageVisits(cfg, items, visits0).0;
    for i := 0 to |items|
      invariant PageVisits(cfg, items, visits0)
                == (done + PageVisits(cfg, items[i..], visits).0, PageVisits(cfg, items[i..], visits).1)
      invariant records == Lines(done, cfg.join)
      invariant pageWritten == |records|
    {
      var it := items[i];
      ghost var here := PageVisits(cfg, items[i..], visits);
      assert items[i..][0] == it && items[i..][1..] == items[i + 1..];
      if cfg.resume && it.kNumber in cfg.seen {
        assert here == PageVisits(cfg, items[i + 1..], visits);
        continue;
      }
      var tab := cfg.detail(visits);
      visits := visits + 1;
      ghost var rest := PageVisits(cfg, items[i + 1..], visits);
      if tab.None? {
        assert here == rest;
        continue;
      }
      var enriched := ProcessDetailPage(tab.value, it, cfg.join);
      ghost var v := Visit(tab.value, it);
      assert here == ([v] + rest.0, rest.1);
      assert done + ([v] + rest.0) == (done + [v]) + rest.0;
      LinesAppend(done, [v], cfg.join);
      assert Lines([v], cfg.join) == [enriched];
      done := done + [v];
      records := records + [enriched];
      pageWritten := pageWritten + 1;
    }
    assert items[|items|..] == [];
    assert done + [] == done;
  }

  /** Every line written for a page enriches one of its items that the resume check let through. */
  lemma {:induction false} PageVisitsFromUnskipped(cfg: Config, items: seq<Item>, visits: nat, i: nat)
    requires i < |PageVisits(cfg, items, visits).0|
    ensures var v := PageVisits(cfg, items, visits).0[i];
      v.item in items && !Skipped(cfg, v.item)
    decreases |items|
  {
    var r := PageVisits(cfg, items, visits).0;
    if Skipped(cfg, items[0]) {
      PageVisitsFromUnskipped(cfg, items[1..], visits, i);
      ConsMember(items, r[i].item);
    } else if cfg.detail(visits).None? || i > 0 {
      var rest := PageVisits(cfg, items[1..], visits + 1).0;
      var i' := if cfg.detail(visits).Some? then i - 1 else i;
      assert r[i] == rest[i'];
      PageVisitsFromUnskipped(cfg, items[1..], visits + 1, i');
      ConsMember(items, r[i].item);
    }
  }

  /** An element of the tail is an element of the sequence. */
  lemma ConsMember<T>(s: seq<T>, x: T)
    requires |s| > 0 && x in s[1..]
    ensures x in s
  {
    var j :| 0 <= j < |s[1..]| && s[1..][j] == x;
    assert s[j + 1] == x;
  }

  /**
   * When every detail tab opens and no item is skipped, each item is written
   * once and opens one tab.
   */
  lemma {:induction false} PageVisitsCount(cfg: Config, items: seq<Item>, visits: nat)
    requires NoneSkipped(cfg, items) && TabsOpen(cfg, visits, |items|)
    ensures PageVisits(cfg, items, visits).1 == visits + |items|
    ensures |PageVisits(cfg, items, visits).0| == |items|
    decreases |items|
  {
    if |items| > 0 {
      PageVisitsCount(cfg, items[1..], visits + 1);
    }
  }

  /**
   * When every detail tab opens and no item is skipped, the j-th line is
   * item j read from the j-th tab opened here.
   */
  lemma {:induction false} PageVisitsAt(cfg: Config, items: seq<Item>, visits: nat, j: nat)
    requires NoneSkipped(cfg, items) && TabsOpen(cfg, visits, |items|)
    requires j < |items|
    ensures |PageVisits(cfg, items, visits).0| == |items|
    ensures PageVisits(cfg, items, visits).0[j] == Visit(cfg.detail(visits + j).value, items[j])
    decreases j
  {
    PageVisitsCount(cfg, items, visits);
    if j > 0 {
      PageVisitsAt(cfg, items[1..], visits + 1, j - 1);
      assert items[1..][j - 1] == items[j];
    }
  }

  /**
   * When every detail tab opens and no item is skipped, each item is written
   * once, in order, from the tab opened for it.
   */
  lemma PageVisitsAllWritten(cfg: Config, items: seq<Item>, visits: nat)
    requires NoneSkipped(cfg, items) && TabsOpen(cfg, visits, |items|)
    ensures PageVisits(cfg, items, visits).1 == visits + |items|
    ensures |PageVisits(cfg, items, visits).0| == |items|
    ensures forall j :: 0 <= j < |items| ==>
              PageVisits(cfg, items, visits).0[j] == Visit(cfg.detail(visits + j).value, items[j])
  {
    PageVisitsCount(cfg, items, visits);
    forall j | 0 <= j < |items|
      ensures PageVisits(cfg, items, visits).0[j] == Visit(cfg.detail(visits + j).value, items[j])
    {
      PageVisitsAt(cfg, items, visits, j);
    }
  }

  /**
   * The resume check reads the listing K-number, but the record may carry the
   * detail page's: an item whose listing K-number is new is written with an
   * already-saved K-number.
   */
  lemma DetailKNumberEscapesResume(cfg: Config, it: Item, visits: nat, k: string)
    requires cfg.resume && it.kNumber !in cfg.seen && k in cfg.seen && k != ""
    requires cfg.detail(visits).Some? && cfg.detail(visits).value.bodyKNumber == Some(k)
    ensures var w := PageVisits(cfg, [it], visits).0;
      |w| == 1 && w[0].item == it && Lines(w, cfg.join)[0].kNumber in cfg.seen
  {
    assert [it][1..] == [];
  }

  /** A skipped item opens no tab and writes nothing. */
  lemma SkippedItemIgnored(cfg: Config, it: Item, visits: nat)
    requires Skipped(cfg, it)
    ensures PageVisits(cfg, [it], visits) == ([], visits)
  {
    assert [it][1..] == [];
  }

  // ---------------------------------------------------------------------
  // The page loop of crawl_fda_510k
  // ---------------------------------------------------------------------

  /** Why the loop ended; `OutOfFuel` is the bound of the model, not of the source. */
  datatype Stop = EmptyLimit | NoNextPage | MaxPages | OutOfFuel

  /**
   * The loop variables: `page`, `consecutive_empty_pages`, the rows the
   * browser shows, the calls to `try_next_page` and detail tabs so far, and
   * the lines written.
   */
  datatype State = State(page: int, emptyRun: nat, rows: seq<ListingRow>, calls: nat, visits: nat,
                         written: seq<Visit>)

  function Start(rows: seq<ListingRow>): State
  {
    State(1, 0, rows, 0, 0, [])
  }

  /**
   * One iteration of the main loop of `crawl_fda_510k`: `Some(stop)` when it
   * ends the loop, with the loop variables afterwards.
   */
  function Step(cfg: Config, st: State): (Option<Stop>, State)
  {
    var items := Items(st.rows);
    if |items| == 0 then
      var e := st.emptyRun + 1;
      if e >= 3 then (Some(EmptyLimit), st.(emptyRun := e))
      else
        var nav := cfg.navigate(st.calls);
        var st1 := st.(emptyRun := e, calls := st.calls + 1);
        if nav.moved then (None, st1.(page := st.page + 1, rows := nav.rows))
        else (Some(NoNextPage), st1)
    else
      var p := PageVisits(cfg, items, st.visits);
      var st1 := st.(emptyRun := 0, visits := p.1, written := st.written + p.0);
      if cfg.maxPages > 0 && st.page >= cfg.maxPages then (Some(MaxPages), st1)
      else (None, st1.(page := st.page + 1))
  }

  /** The main loop of `crawl_fda_510k`, one page per unit of fuel. */
  function Crawl(cfg: Config, st: State, fuel: nat): (Stop, State)
    decreases fuel
  {
    if fuel == 0 then (OutOfFuel, st)
    else
      var s := Step(cfg, st);
      if s.0.Some? then (s.0.value, s.1) else Crawl(cfg, s.1, fuel - 1)
  }

  /** `crawl_fda_510k` after the search: the page loop with its counters. */
  method CrawlFda510k(cfg: Config, firstRows: seq<ListingRow>, fuel: nat)
    returns (stop: Stop, page: int, consecutiveEmptyPages: nat, totalWritten: nat, written: seq<Record>)
    ensures var r := Crawl(cfg, Start(firstRows), fuel);
      && stop == r.0 && page == r.1.page && consecutiveEmptyPages == r.1.emptyRun
      && written == Lines(r.1.written, cfg.join)
    ensures totalWritten == |written|
  {
    page := 1;
    consecutiveEmptyPages := 0;
    totalWritten := 0;
    written := [];
    var rows := firstRows;
    var calls: nat := 0;
    var visits: nat := 0;
    var left := fuel;
    ghost var lines: seq<Visit> := [];
    while left > 0
      invariant Crawl(cfg, Start(firstRows), fuel)
                == Crawl(cfg, State(page, consecutiveEmptyPages, rows, calls, visits, lines), left)
      invariant written == Lines(lines, cfg.join)
      invariant totalWritten == |written|
      decreases left
    {
      ghost var st := State(page, consecutiveEmptyPages, rows, calls, visits, lines);
      var items := CollectPageRows(rows);
      if |items| == 0 {
        consecutiveEmptyPages := consecutiveEmptyPages + 1;
        if consecutiveEmptyPages >= 3 {
          assert Step(cfg, st) == (Some(EmptyLimit), st.(emptyRun := consecutiveEmptyPages));
          return EmptyLimit, page, consecutiveEmptyPages, totalWritten, written;
        }
        var nav := cfg.navigate(calls);
        calls := calls + 1;
        if nav.moved {
          page := page + 1;
          rows := nav.rows;
          left := left - 1;
          continue;
        }
        assert Step(cfg, st) == (Some(NoNextPage), st.(emptyRun := consecutiveEmptyPages, calls := calls));
        return NoNextPage, page, consecutiveEmptyPages, totalWritten, written;
      } else {
        consecutiveEmptyPages := 0;
      }
      ghost var p := PageVisits(cfg, items, visits);
      var records, pageWritten;
      records, visits, pageWritten := ProcessPage(cfg, items, visits);
      LinesAppend(lines, p.0, cfg.join);
      lines := lines + p.0;
      written := written + records;
      totalWritten := totalWritten + pageWritten;
      if cfg.maxPages > 0 && page >= cfg.maxPages {
        assert Step(cfg, st) == (Some(MaxPages), State(page, 0, rows, calls, visits, lines));
        return MaxPages, page, consecutiveEmptyPages, totalWritten, written;
      }
      page := page + 1;
      left := left - 1;
    }
    stop := OutOfFuel;
  }

  // ---------------------------------------------------------------------
  // Properties of the loop
  // ---------------------------------------------------------------------

  /**
   * One iteration keeps the counters in range: an empty page adds one to
   * `consecutive_empty_pages` and a page with rows resets it to 0; it
   * reaches 3 exactly when the iteration stops for empty pages; `page` never
   * decreases, and lines are only appended.
   */
  lemma StepCounters(cfg: Config, st: State)
    requires st.emptyRun < 3
    ensures var s := Step(cfg, st);
      && s.1.emptyRun <= 3
      && (|Items(st.rows)| == 0 ==> s.1.emptyRun == st.emptyRun + 1)
      && (|Items(st.rows)| > 0 ==> s.1.emptyRun == 0)
      && (s.0 == Some(EmptyLimit) <==> s.1.emptyRun == 3)
      && (s.0 == Some(MaxPages) ==> cfg.maxPages > 0 && s.1.page >= cfg.maxPages)
      && st.page <= s.1.page
      && st.written <= s.1.written
  {
    var p := PageVisits(cfg, Items(st.rows), st.visits).0;
    assert st.written <= st.written + p;
  }

  /**
   * The counters: `consecutive_empty_pages` never exceeds 3 and reaches it
   * exactly when the loop stops for empty pages; the loop stops for
   * `max_pages` only when `max_pages > 0` and `page >= max_pages`; `page`
   * never decreases; lines are only ever appended.
   */
  lemma {:induction false} CrawlCounters(cfg: Config, st: State, fuel: nat)
    requires st.emptyRun < 3
    ensures var r := Crawl(cfg, st, fuel);
      && r.1.emptyRun <= 3
      && (r.0 == EmptyLimit <==> r.1.emptyRun == 3)
      && (r.0 == MaxPages ==> cfg.maxPages > 0 && r.1.page >= cfg.maxPages)
      && st.page <= r.1.page
      && st.written <= r.1.written
    decreases fuel
  {
    if fuel > 0 {
      StepCounters(cfg, st);
      var s := Step(cfg, st);
      if s.0.None? {
        CrawlCounters(cfg, s.1, fuel - 1);
      }
    }
  }

  /** Every line of `w` enriches an item the resume check let through. */
  predicate AllFromUnskipped(cfg: Config, w: seq<Visit>)
  {
    forall i :: 0 <= i < |w| ==> !Skipped(cfg, w[i].item)
  }

  /** One iteration only appends lines for items the resume check let through. */
  lemma StepWritesOnlyUnskipped(cfg: Config, st: State)
    requires AllFromUnskipped(cfg, st.written)
    ensures AllFromUnskipped(cfg, Step(cfg, st).1.written)
  {
    var items := Items(st.rows);
    var p := PageVisits(cfg, items, st.visits).0;
    var w := st.written + p;
    forall i | |st.written| <= i < |w| ensures !Skipped(cfg, w[i].item) {
      PageVisitsFromUnskipped(cfg, items, st.visits, i - |st.written|);
    }
  }

  /** Every line the crawl writes enriches an item whose listing K-number is not in the resume set. */
  lemma {:induction false} CrawlWritesOnlyUnskipped(cfg: Config, st: State, fuel: nat)
    requires AllFromUnskipped(cfg, st.written)
    ensures AllFromUnskipped(cfg, Crawl(cfg, st, fuel).1.written)
    decreases fuel
  {
    if fuel > 0 {
      StepWritesOnlyUnskipped(cfg, st);
      var s := Step(cfg, st);
      if s.0.None? {
        CrawlWritesOnlyUnskipped(cfg, s.1, fuel - 1);
      }
    }
  }

  /**
   * After a page with rows the loop never calls `try_next_page`: with
   * `max_pages == 0` it processes the same rows again on every iteration,
   * only counting `page` up, until the fuel runs out.
   */
  lemma {:induction false} NonEmptyPageNeverLeft(cfg: Config, st: State, fuel: nat)
    requires cfg.maxPages == 0 && |Items(st.rows)| > 0
    ensures var r := Crawl(cfg, st, fuel);
      r.0 == OutOfFuel && r.1.rows == st.rows && r.1.calls == st.calls && r.1.page == st.page + fuel
    decreases fuel
  {
    if fuel > 0 {
      var p := PageVisits(cfg, Items(st.rows), st.visits);
      NonEmptyPageNeverLeft(cfg, st.(emptyRun := 0, visits := p.1, written := st.written + p.0,
                                     page := st.page + 1), fuel - 1);
    }
  }

  /**
   * With `max_pages == m > 0` a first page with rows is processed `m` times
   * and the crawl ends on page `m` without ever navigating.
   */
  lemma {:induction false} NonEmptyPageRepeatedUntilMaxPages(cfg: Config, st: State, fuel: nat)
    requires cfg.maxPages > 0 && 1 <= st.page <= cfg.maxPages && |Items(st.rows)| > 0
    requires fuel > cfg.maxPages - st.page
    ensures var r := Crawl(cfg, st, fuel);
      r.0 == MaxPages && r.1.page == cfg.maxPages && r.1.rows == st.rows && r.1.calls == st.calls
    decreases fuel
  {
    if st.page < cfg.maxPages {
      var p := PageVisits(cfg, Items(st.rows), st.visits);
      NonEmptyPageRepeatedUntilMaxPages(cfg, st.(emptyRun := 0, visits := p.1, written := st.written + p.0,
                                                 page := st.page + 1), fuel - 1);
    }
  }

  /**
   * The resume set is read once and never updated: with `max_pages == 2`, a
   * first page of new items whose detail tabs all open writes every item
   * twice, the second copy read from the tab of the second visit of the
   * same listing row.
   */
  lemma SamePageWrittenTwice(cfg: Config, rows: seq<ListingRow>, fuel: nat)
    requires cfg.maxPages == 2 && fuel >= 2
    requires |Items(rows)| > 0
    requires NoneSkipped(cfg, Items(rows)) && TabsOpen(cfg, 0, 2 * |Items(rows)|)
    ensures var items := Items(rows);
      var w := Crawl(cfg, Start(rows), fuel).1.written;
      && |w| == 2 * |items|
      && forall j :: 0 <= j < |items| ==>
           w[j] == Visit(cfg.detail(j).value, items[j])
           && w[|items| + j] == Visit(cfg.detail(|items| + j).value, items[j])
  {
    TwoPagesWritten(cfg, rows, fuel);
    PageVisitsCount(cfg, Items(rows), 0);
    PagesWrittenTwice(cfg, Items(rows), Crawl(cfg, Start(rows), fuel).1.written);
  }

  /** With `max_pages == 2` and a first page with items, the crawl writes that page twice and stops. */
  lemma TwoPagesWritten(cfg: Config, rows: seq<ListingRow>, fuel: nat)
    requires cfg.maxPages == 2 && fuel >= 2 && |Items(rows)| > 0
    ensures var first := PageVisits(cfg, Items(rows), 0);
      Crawl(cfg, Start(rows), fuel).1.written == first.0 + PageVisits(cfg, Items(rows), first.1).0
  {
    var items := Items(rows);
    var first := PageVisits(cfg, items, 0);
    var s0 := Step(cfg, Start(rows));
    assert s0 == (None, Start(rows).(emptyRun := 0, visits := first.1, written := [] + first.0, page := 2));
    assert [] + first.0 == first.0;
  }

  /** The lines of two visits of the same items, the second opening the next tabs. */
  lemma PagesWrittenTwice(cfg: Config, items: seq<Item>, w: seq<Visit>)
    requires NoneSkipped(cfg, items) && TabsOpen(cfg, 0, 2 * |items|)
    requires w == PageVisits(cfg, items, 0).0 + PageVisits(cfg, items, |items|).0
    ensures |w| == 2 * |items|
    ensures forall j :: 0 <= j < |items| ==>
              w[j] == Visit(cfg.detail(j).value, items[j])
              && w[|items| + j] == Visit(cfg.detail(|items| + j).value, items[j])
  {
    var n := |items|;
    assert TabsOpen(cfg, 0, n) && TabsOpen(cfg, n, n);
    PageVisitsCount(cfg, items, 0);
    PageVisitsCount(cfg, items, n);
    var first := PageVisits(cfg, items, 0).0;
    var second := PageVisits(cfg, items, n).0;
    forall j | 0 <= j < n
      ensures w[j] == Visit(cfg.detail(j).value, items[j])
      ensures w[n + j] == Visit(cfg.detail(n + j).value, items[j])
    {
      PageVisitsAt(cfg, items, 0, j);
      PageVisitsAt(cfg, items, n, j);
      assert w[j] == first[j];
      assert w[n + j] == second[j];
    }
  }

  /** Three empty pages in a row end the crawl; a page with rows resets the count. */
  lemma EmptyRunLimit(cfg: Config, st: State, fuel: nat)
    requires fuel > 0
    ensures |Items(st.rows)| == 0 && st.emptyRun == 2 ==> Crawl(cfg, st, fuel).0 == EmptyLimit
    ensures |Items(st.rows)| > 0 && cfg.maxPages > 0 && st.page >= cfg.maxPages ==>
              Crawl(cfg, st, fuel).1.emptyRun == 0
  {
  }
}
