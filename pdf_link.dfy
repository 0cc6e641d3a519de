/**
 * Choosing the PDF to download from a 510(k) detail page
 * (`find_best_pdf_link_on_detail` in BioLLM/fda_data_parsing/parsing.py).
 *
 * The page's anchors are an input: the browser query that lists them is not
 * modelled. An anchor whose element went stale while it was read is skipped.
 */
module PdfLink {
  import opened TextUtil

  const SummaryKeywords: seq<string> := ["summary", "decision summary", "summary (english)"]

  const BackupKeywords: seq<string> :=
    ["decision letter", "substantial equivalence", "se letter", "clearance", "letter", "decision", "determination"]

  /** One `<a href>` of the detail page: its stripped text and its href, or a stale element. */
  datatype Anchor = Anchor(text: string, href: string) | Stale

  datatype Tier = SummaryTier | BackupTier | AnyTier | NotCandidate

  /** A link is a candidate when its href is non-empty and mentions "pdf". */
  predicate IsPdfish(href: string)
  {
    var hl := Lower(href);
    EndsWith(hl, ".pdf") || Contains(hl, "pdf")
  }

  predicate MentionsAny(a: Anchor, kws: seq<string>)
    requires a.Anchor?
  {
    ContainsAny(Lower(a.text), kws) || ContainsAny(Lower(a.href), kws)
  }

  /** The tier an anchor falls in; summary keywords take precedence over backup keywords. */
  function TierOf(a: Anchor): (t: Tier)
    ensures t != NotCandidate ==> a.Anchor? && a.href != [] && IsPdfish(a.href)
  {
    if a.Stale? || a.href == [] || !IsPdfish(a.href) then NotCandidate
    else if MentionsAny(a, SummaryKeywords) then SummaryTier
    else if MentionsAny(a, BackupKeywords) then BackupTier
    else AnyTier
  }

  function TypeName(t: Tier): string
  {
    match t
    case SummaryTier => "summary"
    case BackupTier => "backup"
    case AnyTier => "any"
    case NotCandidate => ""
  }

  /** The hrefs of the anchors of tier `t`, in document order. */
  function Candidates(anchors: seq<Anchor>, t: Tier): seq<string>
  {
    if anchors == [] then []
    else
      var last := anchors[|anchors| - 1];
      Candidates(anchors[..|anchors| - 1], t) + (if last.Anchor? && TierOf(last) == t then [last.href] else [])
  }

  /** The selection made from the three candidate lists. */
  function Select(summary: seq<string>, backup: seq<string>, any: seq<string>): (Option<string>, string)
  {
    if summary != [] then (Some(summary[0]), "summary")
    else if backup != [] then (Some(backup[0]), "backup")
    else if any != [] then (Some(any[0]), "any")
    else (None, "")
  }

  /** The tier chosen for the page: the best tier any anchor reaches. */
  function BestTier(anchors: seq<Anchor>): Tier
  {
    if HasTier(anchors, SummaryTier) then SummaryTier
    else if HasTier(anchors, BackupTier) then BackupTier
    else if HasTier(anchors, AnyTier) then AnyTier
    else NotCandidate
  }

  /** Some anchor of the page is of tier `t`. */
  predicate HasTier(anchors: seq<Anchor>, t: Tier)
  {
    exists j :: 0 <= j < |anchors| && TierOf(anchors[j]) == t
  }

  /**
   * Scans the anchors once, appending each candidate to the list of its tier,
   * then returns the first link of the best non-empty tier and its type name.
   */
  method FindBestPdfLink(anchors: seq<Anchor>) returns (url: Option<string>, pdfType: string)
    ensures (url, pdfType) == Select(Candidates(anchors, SummaryTier), Candidates(anchors, BackupTier), Candidates(anchors, AnyTier))
  {
    var candSummary: seq<string> := [];
    var candBackup: seq<string> := [];
    var candAny: seq<string> := [];
    var i := 0;
    while i < |anchors|
      invariant 0 <= i <= |anchors|
      invariant candSummary == Candidates(anchors[..i], SummaryTier)
      invariant candBackup == Candidates(anchors[..i], BackupTier)
      invariant candAny == Candidates(anchors[..i], AnyTier)
    {
      var a := anchors[i];
      assert anchors[..i + 1][..i] == anchors[..i];
      if a.Anchor? && a.href != [] && IsPdfish(a.href) {
        if MentionsAny(a, SummaryKeywords) {
          candSummary := candSummary + [a.href];
        } else if MentionsAny(a, BackupKeywords) {
          candBackup := candBackup + [a.href];
        } else {
          candAny := candAny + [a.href];
        }
      }
      i := i + 1;
    }
    assert anchors[..i] == anchors;
    if candSummary != [] {
      return Some(candSummary[0]), "summary";
    }
    if candBackup != [] {
      return Some(candBackup[0]), "backup";
    }
    if candAny != [] {
      return Some(candAny[0]), "any";
    }
    return None, "";
  }

  /** Every entry of a tier's list is the href of an anchor of that tier. */
  lemma {:induction false} CandidatesComeFromTier(anchors: seq<Anchor>, t: Tier, k: nat)
    requires k < |Candidates(anchors, t)|
    ensures exists j :: 0 <= j < |anchors| && TierOf(anchors[j]) == t && anchors[j].Anchor? && anchors[j].href == Candidates(anchors, t)[k]
  {
    var init := anchors[..|anchors| - 1];
    if k < |Candidates(init, t)| {
      CandidatesComeFromTier(init, t, k);
      var j :| 0 <= j < |init| && TierOf(init[j]) == t && init[j].Anchor? && init[j].href == Candidates(init, t)[k];
      assert anchors[j] == init[j];
    } else {
      var last := anchors[|anchors| - 1];
      assert last.Anchor? && TierOf(last) == t && Candidates(anchors, t)[k] == last.href;
    }
  }

  /** A tier's list is empty exactly when no anchor is of that tier. */
  lemma {:induction false} CandidatesEmpty(anchors: seq<Anchor>, t: Tier)
    requires t != NotCandidate
    ensures Candidates(anchors, t) == [] <==> !HasTier(anchors, t)
  {
    if anchors != [] {
      var init := anchors[..|anchors| - 1];
      CandidatesEmpty(init, t);
      if HasTier(init, t) {
        var j :| 0 <= j < |init| && TierOf(init[j]) == t;
        assert anchors[j] == init[j];
      }
      if HasTier(anchors, t) && !HasTier(init, t) {
        assert TierOf(anchors[|anchors| - 1]) == t;
      }
    }
  }

  /** A tier's list starts with the href of the first anchor of that tier. */
  lemma {:induction false} CandidatesHead(anchors: seq<Anchor>, t: Tier, j: nat)
    requires t != NotCandidate
    requires j < |anchors| && TierOf(anchors[j]) == t
    requires forall k :: 0 <= k < j ==> TierOf(anchors[k]) != t
    ensures Candidates(anchors, t) != [] && Candidates(anchors, t)[0] == anchors[j].href
  {
    var init := anchors[..|anchors| - 1];
    if j < |init| {
      assert init[j] == anchors[j];
      CandidatesHead(init, t, j);
    } else {
      CandidatesEmpty(init, t);
    }
  }

  /**
   * The selection: the first anchor of the best tier present, and the tier's
   * name; the type is "" exactly when there is no url.
   */
  lemma SelectionIsFirstOfBestTier(anchors: seq<Anchor>, url: Option<string>, pdfType: string)
    requires (url, pdfType) == Select(Candidates(anchors, SummaryTier), Candidates(anchors, BackupTier), Candidates(anchors, AnyTier))
    ensures pdfType == TypeName(BestTier(anchors))
    ensures pdfType == "" <==> url.None?
    ensures url.Some? <==> BestTier(anchors) != NotCandidate
    ensures url.Some? ==> HasTier(anchors, BestTier(anchors))
                          && url.value == anchors[FirstOfTier(anchors, BestTier(anchors))].href
  {
    var t := BestTier(anchors);
    SelectionTier(anchors, url, pdfType);
    if t != NotCandidate {
      BestTierFirst(anchors, t);
    }
  }

  /** The selection's type names the best tier, and the url comes from that tier's list. */
  lemma SelectionTier(anchors: seq<Anchor>, url: Option<string>, pdfType: string)
    requires (url, pdfType) == Select(Candidates(anchors, SummaryTier), Candidates(anchors, BackupTier), Candidates(anchors, AnyTier))
    ensures var t := BestTier(anchors);
      && pdfType == TypeName(t)
      && (t == NotCandidate <==> url.None?)
      && (t != NotCandidate ==> Candidates(anchors, t) != [] && url == Some(Candidates(anchors, t)[0]))
  {
    CandidatesEmpty(anchors, SummaryTier);
    CandidatesEmpty(anchors, BackupTier);
    CandidatesEmpty(anchors, AnyTier);
  }

  /** When `t` is the best tier present, the selection is the first anchor of `t`. */
  lemma BestTierFirst(anchors: seq<Anchor>, t: Tier)
    requires t != NotCandidate && BestTier(anchors) == t
    ensures HasTier(anchors, t)
    ensures Candidates(anchors, t) != [] && Candidates(anchors, t)[0] == anchors[FirstOfTier(anchors, t)].href
  {
    var j := FirstOfTier(anchors, t);
    CandidatesHead(anchors, t, j);
  }

  /** The position of the first anchor of tier `t`. */
  function FirstOfTier(anchors: seq<Anchor>, t: Tier): (j: nat)
    requires HasTier(anchors, t)
    ensures j < |anchors| && TierOf(anchors[j]) == t
    ensures forall k :: 0 <= k < j ==> TierOf(anchors[k]) != t
  {
    FirstOfTierFrom(anchors, t, 0)
  }

  /** The position of the first anchor of tier `t` at or after `i`. */
  function FirstOfTierFrom(anchors: seq<Anchor>, t: Tier, i: nat): (j: nat)
    requires i <= |anchors| && exists j :: i <= j < |anchors| && TierOf(anchors[j]) == t
    ensures i <= j < |anchors| && TierOf(anchors[j]) == t
    ensures forall k :: i <= k < j ==> TierOf(anchors[k]) != t
    decreases |anchors| - i
  {
    if TierOf(anchors[i]) == t then i else FirstOfTierFrom(anchors, t, i + 1)
  }

  /** A candidate link carries a non-empty href that mentions "pdf" when lower-cased. */
  lemma CandidateIsPdfLink(a: Anchor)
    requires TierOf(a) != NotCandidate
    ensures a.Anchor? && a.href != [] && Contains(Lower(a.href), "pdf")
  {
    var hl := Lower(a.href);
    if EndsWith(hl, ".pdf") {
      assert OccursAt(hl, "pdf", |hl| - 3) by {
        assert hl[|hl| - 3..] == hl[|hl| - 4..][1..];
      }
    }
  }

  /** Lower-casing keeps an occurrence of a keyword that has no upper-case letter. */
  lemma LowerKeepsOccurrence(s: string, kw: string, i: int)
    requires OccursAt(s, kw, i)
    requires forall j :: 0 <= j < |kw| ==> !IsUpperChar(kw[j])
    ensures OccursAt(Lower(s), kw, i)
  {
    assert Lower(s)[i..i + |kw|] == kw;
  }

  /** A text lacking a letter in both cases mentions no keyword that contains that letter. */
  lemma MissingLetterMentionsNone(s: string, c: char, kws: seq<string>)
    requires IsLowerChar(c) && c !in s && UpperChar(c) !in s
    requires forall k :: 0 <= k < |kws| ==> c in kws[k]
    ensures !ContainsAny(Lower(s), kws)
  {
    var l := Lower(s);
    assert c !in l by {
      forall j | 0 <= j < |l| ensures l[j] != c {
        assert l[j] == LowerChar(s[j]);
      }
    }
    forall k, i | 0 <= k < |kws| && OccursAt(l, kws[k], i)
      ensures false
    {
    }
  }

  lemma SummaryAnchorTier()
    ensures TierOf(Anchor("Decision Summary", "http://x/k2_summary.pdf")) == SummaryTier
  {
    var summary := Anchor("Decision Summary", "http://x/k2_summary.pdf");
    assert OccursAt(summary.href, "pdf", 20);
    LowerKeepsOccurrence(summary.href, "pdf", 20);
    assert OccursAt(summary.href, SummaryKeywords[0], 12);
    LowerKeepsOccurrence(summary.href, SummaryKeywords[0], 12);
  }

  lemma LetterAnchorTier()
    ensures TierOf(Anchor("Decision Letter", "http://x/k1_letter.pdf")) == BackupTier
  {
    var letter := Anchor("Decision Letter", "http://x/k1_letter.pdf");
    assert OccursAt(letter.href, "pdf", 19);
    LowerKeepsOccurrence(letter.href, "pdf", 19);
    LetterNotSummary(letter);
    assert OccursAt(letter.href, BackupKeywords[4], 12);
    LowerKeepsOccurrence(letter.href, BackupKeywords[4], 12);
  }

  lemma LetterNotSummary(letter: Anchor)
    requires letter == Anchor("Decision Letter", "http://x/k1_letter.pdf")
    ensures !MentionsAny(letter, SummaryKeywords)
  {
    SummaryKeywordsHaveY();
    LacksY("Decision Letter");
    LacksY("http://x/k1_letter.pdf");
    MissingLetterMentionsNone(letter.text, 'y', SummaryKeywords);
    MissingLetterMentionsNone(letter.href, 'y', SummaryKeywords);
  }

  /** Every summary keyword contains a 'y'. */
  lemma SummaryKeywordsHaveY()
    ensures forall k :: 0 <= k < |SummaryKeywords| ==> 'y' in SummaryKeywords[k]
  {
    assert SummaryKeywords[0][6] == 'y' && SummaryKeywords[1][15] == 'y' && SummaryKeywords[2][6] == 'y';
  }

  /** The letter anchor's strings have no 'y' in either case. */
  lemma LacksY(s: string)
    requires s == "Decision Letter" || s == "http://x/k1_letter.pdf"
    ensures IsLowerChar('y') && 'y' !in s && UpperChar('y') !in s
  {
    assert UpperChar('y') == 'Y';
  }

  /**
   * A page listing a decision letter before a decision summary selects the
   * summary, although both links mention "decision".
   */
  lemma SummaryBeatsLetter()
    ensures Select(
              Candidates([Anchor("Decision Letter", "http://x/k1_letter.pdf"), Anchor("Decision Summary", "http://x/k2_summary.pdf")], SummaryTier),
              Candidates([Anchor("Decision Letter", "http://x/k1_letter.pdf"), Anchor("Decision Summary", "http://x/k2_summary.pdf")], BackupTier),
              Candidates([Anchor("Decision Letter", "http://x/k1_letter.pdf"), Anchor("Decision Summary", "http://x/k2_summary.pdf")], AnyTier))
            == (Some("http://x/k2_summary.pdf"), "summary")
  {
    var letter := Anchor("Decision Letter", "http://x/k1_letter.pdf");
    var summary := Anchor("Decision Summary", "http://x/k2_summary.pdf");
    var anchors := [letter, summary];
    SummaryAnchorTier();
    LetterAnchorTier();
    assert anchors[..1] == [letter];
    assert anchors[..1][..0] == [];
    assert Candidates(anchors[..1], SummaryTier) == [];
    assert Candidates(anchors, SummaryTier) == [summary.href];
  }
}
