/**
 * Fetching a PDF and extracting its text with bounded retries
 * (`extract_pdf_text_with_session` in BioLLM/fda_data_parsing/parsing.py).
 *
 * The HTTP session and the PDF decoder are an oracle: `fetch(attempt)` is what
 * the attempt numbered `attempt` (from 1) produced. Sleeping between attempts
 * and the Referer header are not modelled.
 */
module PdfFetch {
  import opened TextUtil

  /** The decoded document: the text of each page, or a decoder failure. */
  datatype Body = Pages(texts: seq<string>) | Undecodable

  /** One `session.get` call: it raised, or it answered with a final URL and two headers ("" when absent). */
  datatype Reply =
    | Raised
    | Response(finalUrl: string, contentType: string, disposition: string, body: Body)

  /** What a single attempt decides: give up with a result, or try again. */
  datatype Step = Done(text: Option<string>) | Retry

  /** The final URL is the portal's block ("apology") page. */
  predicate IsBlocked(r: Reply)
    requires r.Response?
  {
    Contains(Lower(r.finalUrl), "apology_objects")
  }

  /** Any one of the three signals marks the response as a PDF. */
  predicate IsPdfResponse(r: Reply)
    requires r.Response?
  {
    EndsWith(Lower(r.finalUrl), ".pdf")
    || Contains(Lower(r.contentType), "application/pdf")
    || Contains(Lower(r.disposition), ".pdf")
  }

  /** The pages joined by line feeds, stripped. */
  function PlainText(pages: seq<string>): string
  {
    Strip(Join(pages, "\n"))
  }

  /** The decision of one attempt, in the order the source tests its conditions. */
  function Classify(r: Reply): Step
  {
    if r.Raised? then Retry
    else if IsBlocked(r) then Done(None)
    else if !IsPdfResponse(r) then Done(None)
    else if r.body.Undecodable? then Retry
    else if PlainText(r.body.texts) == [] then Done(None)
    else Done(Some(PlainText(r.body.texts)))
  }

  /** The result and the number of fetches made by attempts `attempt..tries`. */
  function Run(fetch: nat -> Reply, attempt: nat, tries: int): (Option<string>, nat)
    decreases tries - attempt
  {
    if attempt > tries then (None, 0)
    else
      match Classify(fetch(attempt))
      case Done(t) => (t, 1)
      case Retry =>
        var rest := Run(fetch, attempt + 1, tries);
        (rest.0, rest.1 + 1)
  }

  /** The retry loop of the source; `fetches` counts the calls to the session. */
  method ExtractPdfText(fetch: nat -> Reply, tries: int) returns (text: Option<string>, fetches: nat)
    ensures (text, fetches) == Run(fetch, 1, tries)
  {
    fetches := 0;
    var attempt: nat := 1;
    while attempt <= tries
      invariant 1 <= attempt && fetches == attempt - 1
      invariant attempt <= tries + 1 || attempt == 1
      invariant Run(fetch, 1, tries) == (Run(fetch, attempt, tries).0, Run(fetch, attempt, tries).1 + fetches)
      decreases tries - attempt
    {
      var r := fetch(attempt);
      fetches := fetches + 1;
      ghost var run := Run(fetch, attempt, tries);
      if r.Raised? || (!IsBlocked(r) && IsPdfResponse(r) && r.body.Undecodable?) {
        // the exception handler: give up after the last attempt, else back off and retry
        assert Classify(r) == Retry;
        if attempt >= tries {
          assert run == (None, 1);
          return None, fetches;
        }
        assert run == (Run(fetch, attempt + 1, tries).0, Run(fetch, attempt + 1, tries).1 + 1);
        attempt := attempt + 1;
        continue;
      }
      if IsBlocked(r) {
        assert run == (None, 1);
        return None, fetches;
      }
      if !IsPdfResponse(r) {
        assert run == (None, 1);
        return None, fetches;
      }
      var plain := PlainText(r.body.texts);
      if plain == [] {
        assert run == (None, 1);
        return None, fetches;
      }
      assert run == (Some(plain), 1);
      return Some(plain), fetches;
    }
    return None, fetches;
  }

  /** At most `tries` fetches are made, and none when `tries` is not positive. */
  lemma {:induction false} FetchesBounded(fetch: nat -> Reply, attempt: nat, tries: int)
    requires attempt >= 1
    ensures Run(fetch, attempt, tries).1 <= if tries < attempt then 0 else tries - attempt + 1
    decreases tries - attempt
  {
    if attempt <= tries && Classify(fetch(attempt)).Retry? {
      FetchesBounded(fetch, attempt + 1, tries);
    }
  }

  /** A fetch that raises every time is tried exactly `tries` times and yields no text. */
  lemma {:induction false} AlwaysRaisingUsesAllTries(fetch: nat -> Reply, attempt: nat, tries: int)
    requires attempt >= 1
    requires forall k :: attempt <= k <= tries ==> fetch(k).Raised?
    ensures Run(fetch, attempt, tries) == (None, if tries < attempt then 0 else tries - attempt + 1)
    decreases tries - attempt
  {
    if attempt <= tries {
      AlwaysRaisingUsesAllTries(fetch, attempt + 1, tries);
    }
  }

  /**
   * Only a raised exception leads to another attempt: when attempt `attempt`
   * did not raise, it is the last one, whatever later attempts would return.
   */
  lemma OnlyExceptionsRetry(fetch: nat -> Reply, attempt: nat, tries: int)
    requires 1 <= attempt <= tries
    requires Classify(fetch(attempt)).Done?
    ensures Run(fetch, attempt, tries) == (Classify(fetch(attempt)).text, 1)
  {
  }

  /** A blocked final URL gives no text after a single fetch, without retrying. */
  lemma BlockedStopsAtOnce(fetch: nat -> Reply, tries: int)
    requires tries >= 1 && fetch(1).Response? && IsBlocked(fetch(1))
    ensures Run(fetch, 1, tries) == (None, 1)
  {
  }

  /**
   * Text is returned only from a response that is not blocked, carries a PDF
   * signal and decodes to non-blank text; the text is stripped and non-empty.
   */
  lemma {:induction false} TextComesFromAcceptedPdf(fetch: nat -> Reply, attempt: nat, tries: int)
    requires attempt >= 1
    requires Run(fetch, attempt, tries).0.Some?
    ensures exists k :: attempt <= k <= tries && fetch(k).Response? && !IsBlocked(fetch(k)) && IsPdfResponse(fetch(k))
              && fetch(k).body.Pages? && Run(fetch, attempt, tries).0.value == PlainText(fetch(k).body.texts)
    ensures Run(fetch, attempt, tries).0.value != []
    decreases tries - attempt
  {
    if Classify(fetch(attempt)).Retry? {
      TextComesFromAcceptedPdf(fetch, attempt + 1, tries);
    }
  }

  /**
   * A response whose URL ends in ".pdf" is accepted whatever its headers say;
   * one whose URL, Content-Type and Content-Disposition all lack the signals
   * is rejected without text.
   */
  lemma PdfSignals(r: Reply)
    requires r.Response?
    ensures EndsWith(Lower(r.finalUrl), ".pdf") ==> IsPdfResponse(r)
    ensures (!EndsWith(Lower(r.finalUrl), ".pdf") && !Contains(Lower(r.contentType), "application/pdf")
             && !Contains(Lower(r.disposition), ".pdf")) ==> Classify(r) == Done(None)
  {
  }
}
