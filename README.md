# BioMatAI core, modelled in Dafny

BioMatAI collects FDA 510(k) premarket notifications for dental and bone
implants and turns them into question-and-answer training data for a
biomaterials language model. It also prepares protein and surface structures
for docking. This project models the decision and text-rewriting logic of
that pipeline and proves properties of it.

The FDA 510(k) pipeline (`BioLLM/fda_data_parsing/`):

- **The crawler** (`parsing.py`) searches the FDA database and walks its result
  pages (`Listing`, `Pagination`). It picks the best PDF on each detail page:
  a summary before a decision letter, before any other PDF (`PdfLink`). It
  downloads that PDF with bounded retries (`PdfFetch`) and appends one JSON
  line per device, skipping K-numbers already saved when it resumes (`Crawl`).
- **The section stage** (`section_parsing.py`, `SectionParsing`) cuts each
  summary text into four sections: device description, indications for use,
  device comparison and performance data.
- **The QA stage** (`source.py`, `QaSource`) turns each section into two chat
  exchanges. It writes them one per line and as one structured dataset.
- **The conversion** (`convert_script.py`, `Convert`) wraps the JSONL stream
  into one JSON document with parsing statistics.
- **The older stand-alone pipeline** (`pre_processing.py`, `PreProcessing`)
  goes from a directory of PDFs to question/answer pairs.

The structure tools for docking:

- `docking/scripts/make_merged_pdb.py` (`MergedPdb`) parses ATOM/HETATM
  records. It keeps only complete protein residues and the calcium atoms of
  the surface, then renumbers and writes both blocks with an optional TER and
  a final END.
- `scripts/merge_pdb.py` (`MergePdb`) renumbers the protein as chain A and the
  surface as chain B, and writes them between a REMARK and an END.
- `docking/scripts/create_small_protein.py` (`SmallProtein`) cuts a residue
  window out of a FASTA sequence and a PDB file, renumbering from 1.

Record columns follow the ATOM/HETATM records of the wwPDB PDB format v3.3
(Coordinate Section): serial in columns 7-11, chain identifier in column 22,
residue sequence number in columns 23-26.

Shared modules:

- `TextUtil` restates Python's string operations (`strip`, `lower`, slicing,
  `int()`, `{n:Wd}`) over `seq<char>`.
- `SeqUtil` holds filtering, flattening and the subsequence relation.
- `FdaRecord` is the JSON record the FDA stages pass on.
- `Regex` represents `re.search` as a given function.

Where the source loops or updates variables, the model is a `method` with
loop invariants, proved equal to a specification function. What the source
promises is proved about that function as lemmas. Pure expressions are
functions.

Browser, network, PDF decoder, regular-expression engine and file system are
inputs, as follows:

- **Browser and network:** the crawler reads the rows and anchors the
  browser shows, what each detail tab holds (`Crawl.Config.detail`), what each
  call of `try_next_page` returned (`Crawl.Config.navigate`) and what each
  fetch attempt returned (`PdfFetch.Reply`).
- **Regular expressions:** the scripts read `re.search` as a `Regex.Search`
  function of pattern and text. The section stage additionally reads the
  heading removal of the numbered pass and `clean_section_text` as functions
  of a `SectionParsing.Stage`. That stage also holds the two pattern tables,
  whose values in the script are `SectionPatterns` and
  `SectionNumberPatterns`.
- **JSON input:** JSON lines are parsed records. A line that does not parse is
  `None`.

Some behaviour of the crawler is worth stating outright, because a reader
could easily expect otherwise. The model follows the code, and a lemma
exhibits each point:

- **Pagination acceptance.** `try_next_page` returns as soon as an attempt
  lands on a page whose first-row signature changed. It returns whether that
  page has rows, so a changed but empty page ends the search with false
  without trying the remaining strategies (`parsing.py:389-398`, `:427-431`,
  `:454-458`; `Pagination.ChangedToEmptyPageStops`).
- **No navigation after a page with rows.** `crawl_fda_510k` calls
  `try_next_page` only after an empty page. After a page with rows it only
  counts `page` up and processes the same rows again. This goes on until
  `max_pages` stops it or, with `max_pages == 0`, forever
  (`parsing.py:673-687`, `:729-735`; `Crawl.NonEmptyPageNeverLeft`,
  `Crawl.NonEmptyPageRepeatedUntilMaxPages`).
- **Resume does not make identifiers unique.** The source's comment at
  `parsing.py:696` says already-saved items are skipped. But `seen` is read
  once at `parsing.py:629-642` and never updated, so on the next pass the
  same item is written again (`parsing.py:695`; `Crawl.SamePageWrittenTwice`).
  The resume check also tests the listing K-number, while the record carries
  the K-number from the detail page (`parsing.py:606-611`). So an
  already-saved K-number can be written again
  (`Crawl.DetailKNumberEscapesResume`).
- **PDF acceptance.** Any one of three signals accepts a response as a PDF,
  the URL extension included, whatever the content-type says
  (`parsing.py:114-121`; `PdfFetch.PdfSignals`).
- **The page-link strategy.** The second strategy looks for a link whose href
  contains `PAGENUM=` followed by the current PAGENUM plus 10. It does not
  look for the next page number (`parsing.py:405-431`;
  `Pagination.PageLinkSecond`).

## Model

| member | source | states |
|---|---|---|
| PdfLink.TierOf | BioLLM/fda_data_parsing/parsing.py:520-544 | an anchor is a candidate only when it is readable and its href is non-empty and mentions "pdf" |
| PdfLink.FindBestPdfLink | BioLLM/fda_data_parsing/parsing.py:515-555 | the loop fills the summary, backup and any-PDF lists with the hrefs of the anchors of each tier in document order, and returns the selection made from them |
| PdfLink.CandidatesComeFromTier | BioLLM/fda_data_parsing/parsing.py:520-544 | every entry of a tier's list is the href of an anchor of that tier |
| PdfLink.CandidatesEmpty | BioLLM/fda_data_parsing/parsing.py:520-544 | a tier's list is empty exactly when no anchor is of that tier |
| PdfLink.CandidatesHead | BioLLM/fda_data_parsing/parsing.py:520-544 | a tier's list starts with the href of the first anchor of that tier |
| PdfLink.SelectionIsFirstOfBestTier | BioLLM/fda_data_parsing/parsing.py:549-555 | the type names the best tier present; the type is "" exactly when the url is None, exactly when no anchor is a candidate |
| PdfLink.SelectionTier | BioLLM/fda_data_parsing/parsing.py:549-555 | the url is the first entry of the best non-empty tier (summary, then backup, then any), and the type is that tier's name |
| PdfLink.BestTierFirst | BioLLM/fda_data_parsing/parsing.py:549-555 | the best tier's list starts with the href of the first anchor of that tier in document order |
| PdfLink.CandidateIsPdfLink | BioLLM/fda_data_parsing/parsing.py:522-531 | a candidate has a non-empty href that contains "pdf" once lower-cased |
| PdfLink.SummaryAnchorTier | BioLLM/fda_data_parsing/parsing.py:533-536 | an anchor "Decision Summary" to a summary PDF is of the summary tier |
| PdfLink.LetterAnchorTier | BioLLM/fda_data_parsing/parsing.py:538-541 | an anchor "Decision Letter" to a letter PDF is of the backup tier |
| PdfLink.LetterNotSummary | BioLLM/fda_data_parsing/parsing.py:534 | the decision-letter anchor mentions no summary keyword in its text or href |
| PdfLink.SummaryBeatsLetter | BioLLM/fda_data_parsing/parsing.py:549-552 | with a decision letter before a decision summary on the page, the summary PDF is chosen with type "summary" |
| PdfFetch.ExtractPdfText | BioLLM/fda_data_parsing/parsing.py:93-141 | the retry loop returns the text and the number of fetches that the attempt-by-attempt specification gives |
| PdfFetch.FetchesBounded | BioLLM/fda_data_parsing/parsing.py:97-141 | at most `tries` fetches are made, none when `tries` is not positive |
| PdfFetch.AlwaysRaisingUsesAllTries | BioLLM/fda_data_parsing/parsing.py:134-141 | a fetch that raises every time is tried exactly `tries` times and gives no text |
| PdfFetch.OnlyExceptionsRetry | BioLLM/fda_data_parsing/parsing.py:97-133 | an attempt that does not raise is the last one, whatever later attempts would return |
| PdfFetch.BlockedStopsAtOnce | BioLLM/fda_data_parsing/parsing.py:106-108 | a final URL containing "apology_objects" gives no text after one fetch, without retrying |
| PdfFetch.TextComesFromAcceptedPdf | BioLLM/fda_data_parsing/parsing.py:106-133 | text is returned only from an unblocked response with a PDF signal, and it is non-empty |
| PdfFetch.PdfSignals | BioLLM/fda_data_parsing/parsing.py:114-121 | a URL ending in ".pdf" is accepted whatever the headers say; a response lacking all three signals gives no text |
| Pagination.ParseQsValues | BioLLM/fda_data_parsing/parsing.py:231 | `parse_qs` gives a key exactly its non-blank values in order, and leaves out a key that has none |
| Pagination.PutEntries | BioLLM/fda_data_parsing/parsing.py:233-241 | `q[k] = vs` replaces the entry of an existing key in place and appends a new key last |
| Pagination.ReencodeAfterPut | BioLLM/fda_data_parsing/parsing.py:242 | re-encoding after `q[k] = [v]` puts `v` at `k`'s place and the first value of every other key |
| Pagination.BumpFailsOnNonInteger | BioLLM/fda_data_parsing/parsing.py:228-245 | the bump gives None exactly when the parameter it rewrites does not hold an integer |
| Pagination.BumpRewritesOneKey | BioLLM/fda_data_parsing/parsing.py:233-243 | a bump keeps the URL's other parts and every key in place with its first value; the rewritten key reads back as the old value plus `step` |
| Pagination.BumpAddsPagenum | BioLLM/fda_data_parsing/parsing.py:239-243 | without PAGENUM and start, the first values are kept and PAGENUM=11 is appended |
| Pagination.BumpPrefersPagenum | BioLLM/fda_data_parsing/parsing.py:233-238 | when PAGENUM is given, it is the key the bump increments, even when start is given too |
| Pagination.PagenumBand | BioLLM/fda_data_parsing/parsing.py:276 | `(PAGENUM-1)//10+1` is the unique page p with 10(p-1)+1 <= PAGENUM <= 10p |
| Pagination.CurrentPageOfUrl | BioLLM/fda_data_parsing/parsing.py:268-276 | a URL whose first PAGENUM value is the number n is on page `(n-1)//10+1` |
| Pagination.FirstPages | BioLLM/fda_data_parsing/parsing.py:276 | PAGENUM 1, 11 and 21 are pages 1, 2 and 3; 10 and 20 are the ends of pages 1 and 2 |
| Pagination.Decider | BioLLM/fda_data_parsing/parsing.py:365-466 | the deciding strategy lands on a page whose first-row signature differs from the one before |
| Pagination.TryNextPageDecided | BioLLM/fda_data_parsing/parsing.py:360-466 | `try_next_page` is true exactly when some strategy changed the signature and the new page has rows |
| Pagination.ArrowFirst | BioLLM/fda_data_parsing/parsing.py:368-398 | once the ">" arrow changes the page, the result is the arrow's and no other strategy is consulted |
| Pagination.PageLinkSecond | BioLLM/fda_data_parsing/parsing.py:405-431 | when the arrow fails and the link to PAGENUM+10 changes the page, that link decides and the rebuilt URL is never loaded |
| Pagination.UnparsablePagenumOnlyArrow | BioLLM/fda_data_parsing/parsing.py:406-463 | a PAGENUM that is not an integer makes strategies 2 and 3 raise, so only the arrow can succeed |
| Pagination.ChangedToEmptyPageStops | BioLLM/fda_data_parsing/parsing.py:395-398 | an arrow that reaches a different, empty page ends the search with false |
| Pagination.NextUrlPagenum | BioLLM/fda_data_parsing/parsing.py:437-447 | the rebuilt URL keeps the URL's other parts and carries PAGENUM = current + 10, readable back as a number |
| Listing.CollectPageRows | BioLLM/fda_data_parsing/parsing.py:469-503 | the loop collects one item per readable row, in row order, skipping rows whose cells cannot be read |
| Listing.ItemsCount | BioLLM/fda_data_parsing/parsing.py:473-502 | there are at most as many items as rows, and exactly as many when every row is readable |
| Listing.ItemFromReadableRow | BioLLM/fda_data_parsing/parsing.py:473-502 | each item is the item of some readable row |
| Listing.ItemsEmpty | BioLLM/fda_data_parsing/parsing.py:473-503 | there are no items exactly when no row is readable |
| Listing.Signature | BioLLM/fda_data_parsing/parsing.py:193-210 | the signature is "" exactly when there is no row or the first row's cells cannot be read; otherwise it contains "\|\|" |
| Crawl.ProcessDetailPage | BioLLM/fda_data_parsing/parsing.py:590-611 | the record built from the best PDF link, its fetched text and the page's K-number |
| Crawl.DetailRecordFields | BioLLM/fda_data_parsing/parsing.py:597-611 | the record keeps the listing fields and names the best tier; it has a link exactly when the type is not "", has text only with a link, and takes the detail page's K-number when one is found |
| Crawl.LoadSeen | BioLLM/fda_data_parsing/parsing.py:629-642 | with `resume`, the skip set is the `k_number` of every parseable line of an existing file; it is empty without resume or without the file |
| Crawl.LinesAppend | BioLLM/fda_data_parsing/parsing.py:717-718 | the lines written for two runs of visits are those of the first followed by those of the second |
| Crawl.PageVisits | BioLLM/fda_data_parsing/parsing.py:694-720 | a page writes at most one line per item and opens at least one tab per line |
| Crawl.ProcessPage | BioLLM/fda_data_parsing/parsing.py:689-727 | the inner loop writes the lines of the page's visits, and `page_written` counts them |
| Crawl.PageVisitsFromUnskipped | BioLLM/fda_data_parsing/parsing.py:694-698 | every line written for a page enriches one of its items that the resume check let through |
| Crawl.PageVisitsCount | BioLLM/fda_data_parsing/parsing.py:694-720 | when no item is skipped and every tab opens, each item is written once and opens one tab |
| Crawl.PageVisitsAt | BioLLM/fda_data_parsing/parsing.py:694-720 | under the same conditions, line j is item j read from the j-th tab opened |
| Crawl.PageVisitsAllWritten | BioLLM/fda_data_parsing/parsing.py:694-720 | under the same conditions, every item is written once, in order, from its own tab |
| Crawl.DetailKNumberEscapesResume | BioLLM/fda_data_parsing/parsing.py:606-611 | an item whose listing K-number is new but whose detail page shows a saved K-number is written with that saved K-number |
| Crawl.SkippedItemIgnored | BioLLM/fda_data_parsing/parsing.py:695-698 | a skipped item opens no tab and writes nothing |
| Crawl.CrawlFda510k | BioLLM/fda_data_parsing/parsing.py:664-736 | the loop's stop reason, `page`, `consecutive_empty_pages` and written lines are those of the iteration-by-iteration specification, and `total_written` counts the lines |
| Crawl.StepCounters | BioLLM/fda_data_parsing/parsing.py:673-736 | an empty page adds one to `consecutive_empty_pages` and a page with rows resets it; it stops at 3 exactly; a `max_pages` stop needs `max_pages > 0` and `page >= max_pages`; `page` never decreases and lines are only appended |
| Crawl.CrawlCounters | BioLLM/fda_data_parsing/parsing.py:666-736 | over the whole loop: `consecutive_empty_pages` <= 3, and it equals 3 exactly on the empty-page stop; the `max_pages` stop condition; `page` non-decreasing; lines only appended |
| Crawl.StepWritesOnlyUnskipped | BioLLM/fda_data_parsing/parsing.py:694-720 | one iteration only appends lines for items the resume check let through |
| Crawl.CrawlWritesOnlyUnskipped | BioLLM/fda_data_parsing/parsing.py:694-720 | every line of the crawl enriches an item whose listing K-number was not in the resume set |
| Crawl.NonEmptyPageNeverLeft | BioLLM/fda_data_parsing/parsing.py:673-736 | with `max_pages == 0`, a page with rows is processed again on every iteration: `try_next_page` is never called and only `page` grows |
| Crawl.NonEmptyPageRepeatedUntilMaxPages | BioLLM/fda_data_parsing/parsing.py:729-735 | with `max_pages == m > 0`, a page with rows is processed until `page == m` and the crawl stops there without navigating |
| Crawl.SamePageWrittenTwice | BioLLM/fda_data_parsing/parsing.py:694-735 | with `max_pages == 2`, a first page of new items is written twice, the second copy from the tabs of the second pass |
| Crawl.TwoPagesWritten | BioLLM/fda_data_parsing/parsing.py:729-735 | with `max_pages == 2`, the crawl writes the first page's visits twice and stops |
| Crawl.PagesWrittenTwice | BioLLM/fda_data_parsing/parsing.py:694-720 | two passes over the same items write 2n lines, item j at j and n+j, from the tabs j and n+j |
| Crawl.EmptyRunLimit | BioLLM/fda_data_parsing/parsing.py:673-687 | an empty page after two empty pages ends the crawl; a page with rows at `max_pages` stops it with the count reset to 0 |
| MergePdb.Widen | scripts/merge_pdb.py:13-14 | a widened line has at least 80 columns; a line shorter than 80 loses its trailing line feeds and is padded with blanks to 80, a longer one is unchanged |
| MergePdb.RenumberAndSetChain | scripts/merge_pdb.py:7-21 | the loop returns the renumbered selected lines closed by TER, and `start_serial` plus the number of lines kept |
| MergePdb.NumberedLines | scripts/merge_pdb.py:8-18 | one output line per kept line, in order; the i-th is rendered with serial `start + i` |
| MergePdb.RenumberedLines | scripts/merge_pdb.py:9-18 | one renumbered line per selected record, in input order, with consecutive serials from `start_serial` |
| MergePdb.OnlySerialAndChainChange | scripts/merge_pdb.py:13-16 | the rewritten line has the widened line's length and agrees with it outside columns 7-11 and 22; those columns hold the serial and the chain |
| MergePdb.RenumberLineStripped | scripts/merge_pdb.py:17 | the output is the rewritten line without its trailing blanks |
| MergePdb.RenumberLineSerial | scripts/merge_pdb.py:16-17 | columns 7-11 of the output line hold the serial, right-justified |
| MergePdb.WidenKeepsRecord | scripts/merge_pdb.py:11-14 | widening keeps the record name at the start of the line |
| MergePdb.RenumberLineKeepsRecord | scripts/merge_pdb.py:11-17 | a renumbered line still starts with the record it was selected for |
| MergePdb.ClosedNumbered | scripts/merge_pdb.py:19-20 | when no rendered line starts with "TER", a non-empty result gets exactly one "TER" at the end and an empty one none |
| MergePdb.SelectedNotTer | scripts/merge_pdb.py:11-20 | an ATOM or HETATM line is never rendered as a TER line |
| MergePdb.TerClosesChain | scripts/merge_pdb.py:19-20 | with REC_ATOM or REC_ANY, a non-empty selection is closed by one TER and an empty one gives no lines |
| MergePdb.ChainLines | scripts/merge_pdb.py:7-21 | a chain is one renumbered line per selected record with serials from `start`, then "TER" when there was one |
| MergePdb.ChainLength | scripts/merge_pdb.py:19-21 | a chain has one line per selected record, plus one for TER when there is at least one |
| MergePdb.MergeFrame | scripts/merge_pdb.py:34-38 | REMARK is first, END is last, and each chain with records is followed by one TER at a known place |
| MergePdb.MergeChainA | scripts/merge_pdb.py:31-36 | the lines after REMARK are the protein's ATOM records, in order, as chain A numbered from 1 |
| MergePdb.MergeChainB | scripts/merge_pdb.py:32-37 | after REMARK, chain A and its TER come the surface's ATOM and HETATM records in order as chain B, the i-th with serial one past the protein's ATOM records plus i |
| MergePdb.MainExitCodes | scripts/merge_pdb.py:40-48 | exit 1 exactly when there are not three arguments; exit 2 exactly when the output ends with "/" or is a directory; otherwise the merge is written to the third argument |
| MergedPdb.InferElement | docking/scripts/make_merged_pdb.py:26-32 | the guessed element always has two characters |
| MergedPdb.InferElementCases | docking/scripts/make_merged_pdb.py:26-32 | a blank name gives two spaces; a stem with a letter then a lower-case letter gives that pair capitalised; otherwise a space and the stem's first character upper-cased |
| MergedPdb.InferElementDigitHydrogen | docking/scripts/make_merged_pdb.py:29 | "1HB" gives " H": the leading digit is dropped |
| MergedPdb.InferElementAlphaCarbon | docking/scripts/make_merged_pdb.py:27-32 | " CA " gives " C", not calcium |
| MergedPdb.InferElementCalcium | docking/scripts/make_merged_pdb.py:30-31 | "Ca" gives "Ca" |
| MergedPdb.FormatAtomName | docking/scripts/make_merged_pdb.py:34-39 | the stripped name fills at least four columns; it is right-justified when the element has one character and the name does not start with a digit, else left-justified |
| MergedPdb.ParseAtomDefaults | docking/scripts/make_merged_pdb.py:44-50 | on the fixed-column path the record is columns 1-6; a blank residue name reads "UNK", a blank residue number 1 and a blank serial 0; the chain is column 22, or "A" for a short line |
| MergedPdb.ChainColumn | docking/scripts/make_merged_pdb.py:48 | the chain is column 22, or "A" when the line is shorter |
| MergedPdb.ParseAtomFallsBack | docking/scripts/make_merged_pdb.py:49-61 | a residue number that is not an integer sends the line to the whitespace-split path |
| MergedPdb.ReadAtoms | docking/scripts/make_merged_pdb.py:93-101 | the reading loop gives the atoms, or the first parse error, that the line-by-line specification gives |
| MergedPdb.AtomsOfErrStays | docking/scripts/make_merged_pdb.py:95-100 | once a line fails to parse, the reading of the file fails with that error |
| MergedPdb.AtomsOfAtomLines | docking/scripts/make_merged_pdb.py:96-100 | a successful read has one atom per ATOM/HETATM line, in order, each parsed from its line |
| MergedPdb.AtomsOfChain | docking/scripts/make_merged_pdb.py:99 | a non-empty `chain_id` sets every atom's chain to its first character |
| MergedPdb.CheckDangling | docking/scripts/make_merged_pdb.py:151-160 | the `ok` flag is true exactly when every SIDECHAIN_TREE atom present has its parent |
| MergedPdb.SanitizeProtein | docking/scripts/make_merged_pdb.py:121-168 | the method returns the sanitised atoms of the specification function |
| MergedPdb.KeptResidues | docking/scripts/make_merged_pdb.py:135-164 | a residue is in `keep_keys` exactly when it has a group and passes the backbone, O, CB and dangling tests |
| MergedPdb.KeepAtoms | docking/scripts/make_merged_pdb.py:166-168 | the final comprehension keeps exactly the ATOM records whose residue is kept, in order |
| MergedPdb.GroupResidues | docking/scripts/make_merged_pdb.py:130-133 | `byres` maps each residue key of an ATOM record to its atoms in order, and the order list has the same keys |
| MergedPdb.SanitizeIsSubsequence | docking/scripts/make_merged_pdb.py:126-168 | the output is an order-preserving subsequence of the input |
| MergedPdb.SanitizeKeepsCompleteResidues | docking/scripts/make_merged_pdb.py:126-168 | a kept atom is an ATOM record of the input, not a hydrogen when `strip_h`, and its residue has N, CA, C, O when required, CB when required and not GLY, and no dangling side chain |
| MergedPdb.SanitizeKeepsWholeResidues | docking/scripts/make_merged_pdb.py:166-168 | two ATOM records of the same residue are both kept or both dropped |
| MergedPdb.SanitizeKeepsCompleteResidue | docking/scripts/make_merged_pdb.py:135-168 | a residue that passes every test keeps all its ATOM records |
| MergedPdb.SanitizeSurfaceKeepsCalcium | docking/scripts/make_merged_pdb.py:171-174 | the identity without `cal_only`; with it, exactly the atoms whose residue name is CAL, in order |
| MergedPdb.FmtAtomSerialColumns | docking/scripts/make_merged_pdb.py:77-90 | the line has the record in columns 1-6 and the serial right-justified in columns 7-11, where it reads back |
| MergedPdb.Serialise | docking/scripts/make_merged_pdb.py:176-180 | one line per atom, in order, atom i with serial `start + i` |
| MergedPdb.SerialLines | docking/scripts/make_merged_pdb.py:176-180 | the lines of `serialise`: one per atom, atom i with serial `start + i` |
| MergedPdb.WriteLines | docking/scripts/make_merged_pdb.py:198-206 | the writing loop emits the lines, TER after the split line when there is a split, then END |
| MergedPdb.ReadBlock | docking/scripts/make_merged_pdb.py:185-186 | a given file is read with `read_atoms`; a missing one gives no atoms |
| MergedPdb.ReadAndSanitise | docking/scripts/make_merged_pdb.py:185-191 | the two blocks, each sanitised only when non-empty, or the first read error |
| MergedPdb.WriteMerged | docking/scripts/make_merged_pdb.py:193-206 | the blocks are ordered, serialised from `serial_start` and written with TER and END |
| MergedPdb.Merge | docking/scripts/make_merged_pdb.py:182-206 | the written file is that of the whole-merge specification, or the read error |
| MergedPdb.TerAndEndLayout | docking/scripts/make_merged_pdb.py:199-206 | END is last; TER appears exactly at the split; every line keeps its place, one further on past the split |
| MergedPdb.MergedFileLayout | docking/scripts/make_merged_pdb.py:182-206 | the file ends with END; its atom lines are the ordered blocks numbered from `serial_start`; TER appears only after the first block, exactly when `add_ter` is set and both blocks have atoms |
| SmallProtein.ReadSequence | docking/scripts/create_small_protein.py:27-30 | the loop builds the concatenation of the stripped non-header lines |
| SmallProtein.SequenceAppend | docking/scripts/create_small_protein.py:27-30 | the sequence of two runs of lines is the concatenation of their sequences |
| SmallProtein.SmallSequenceWindow | docking/scripts/create_small_protein.py:33 | within bounds the piece is residues `start_res` to `end_res`, counted from 1; an `end_res` past the end is cut at the end |
| SmallProtein.SmallSequenceFromZero | docking/scripts/create_small_protein.py:33 | a `start_res` of 0 makes the slice start at the last residue |
| SmallProtein.StripLine | docking/scripts/create_small_protein.py:30 | stripping a trimmed line with its line feed gives the line |
| SmallProtein.FastaRoundTrip | docking/scripts/create_small_protein.py:27-44 | the small FASTA file written from a trimmed sequence reads back as that sequence |
| SmallProtein.FastaHeaderIsHeader | docking/scripts/create_small_protein.py:43 | the header written starts with ">" |
| SmallProtein.ExtractStops | docking/scripts/create_small_protein.py:51-63 | once a line raises, later lines change nothing |
| SmallProtein.ExtractPdbLines | docking/scripts/create_small_protein.py:51-63 | the loop writes the lines, and stops at the exception, that the line-by-line specification gives |
| SmallProtein.ExtractAppend | docking/scripts/create_small_protein.py:52-63 | the lines written for two runs of input are the first run's followed, unless it raised, by the second's |
| SmallProtein.ClassifyRenumbers | docking/scripts/create_small_protein.py:53-59 | a chain-A ATOM line with residue r in range is written with r - start_res + 1 (at least 1) in columns 23-26 and every other character unchanged |
| SmallProtein.ClassifyInRange | docking/scripts/create_small_protein.py:53-58 | a chain-A ATOM line whose residue number reads as r in range is renumbered to `r - start_res + 1` |
| SmallProtein.RenumberedLineShape | docking/scripts/create_small_protein.py:58 | renumbering replaces columns 23-26 by the number, which reads back, and keeps the rest |
| SmallProtein.ClassifyCases | docking/scripts/create_small_protein.py:52-63 | HETATM, HEADER, TITLE and REMARK lines are copied; chain-A ATOM lines are renumbered in range and dropped outside it; a short ATOM line raises; anything else is dropped |
| SmallProtein.ClassifyWritten | docking/scripts/create_small_protein.py:52-63 | a written line is a copied record or a renumbered chain-A ATOM record |
| SmallProtein.ExtractWritten | docking/scripts/create_small_protein.py:52-63 | every line written is a copied record of the input or a chain-A ATOM record numbered 1 to `end_res - start_res + 1` |
| SmallProtein.ExtractWrittenAt | docking/scripts/create_small_protein.py:52-63 | the k-th line written is a copied input record or a renumbered chain-A ATOM record |
| SmallProtein.ExtractLength | docking/scripts/create_small_protein.py:52-63 | no more lines are written than read |
| SmallProtein.ExtractAlbuminDomain | docking/scripts/create_small_protein.py:7-69 | the FASTA file is the header and the sliced sequence; the PDB file is the filtered, renumbered lines up to any exception |
| SmallProtein.InsulinTest | docking/scripts/create_small_protein.py:71-81 | the insulin sequence has 51 residues and its file reads back as it |
| SmallProtein.UbiquitinTest | docking/scripts/create_small_protein.py:89-99 | the ubiquitin sequence has 76 residues and its file reads back as it |
| SectionParsing.CheckSummaryAvailability | BioLLM/fda_data_parsing/section_parsing.py:4-20 | the loop's two lists are the records with a non-blank summary text and the others, each in input order |
| SectionParsing.SummaryPartition | BioLLM/fda_data_parsing/section_parsing.py:9-15 | every record lands in exactly one list; the first holds exactly the records with summary text, the second the rest |
| SectionParsing.SummaryAlternativesShape | BioLLM/fda_data_parsing/section_parsing.py:22-40 | a crawl entry first exactly when there is a detail link; an API entry exactly when the K-number is non-empty; the direct PDF entry always last; 1 to 3 entries; no K-number raises |
| SectionParsing.ScriptKeys | BioLLM/fda_data_parsing/section_parsing.py:42-80 | SECTION_PATTERNS has the four section keys, each once |
| SectionParsing.NumberedBody | BioLLM/fda_data_parsing/section_parsing.py:97-103 | the numbered pass keeps a body only when it is longer than 50 characters |
| SectionParsing.NearestBoundary | BioLLM/fda_data_parsing/section_parsing.py:120-127 | the loop shrinking `end_pos` gives the boundary of the specification function |
| SectionParsing.EndPosNearest | BioLLM/fda_data_parsing/section_parsing.py:120-130 | `end_pos` is the smallest start of another section's match after `start_pos`, or the text length; so `start_pos <= end_pos <= len(text)` |
| SectionParsing.OtherPatternsExcludeOwn | BioLLM/fda_data_parsing/section_parsing.py:113-118 | the other patterns are exactly those of SECTION_PATTERNS not among the section's own |
| SectionParsing.KeywordBody | BioLLM/fda_data_parsing/section_parsing.py:106-132 | the keyword pass keeps only non-empty text |
| SectionParsing.FindSectionText | BioLLM/fda_data_parsing/section_parsing.py:82-134 | the method returns the section text of the specification function |
| SectionParsing.NumberedFromAccepted | BioLLM/fda_data_parsing/section_parsing.py:94-103 | the numbered pass yields the cleaned body of a mentioned section whose body exceeds 50 characters |
| SectionParsing.KeywordFromNone | BioLLM/fda_data_parsing/section_parsing.py:106-134 | the keyword pass yields nothing exactly when no remaining pattern yields non-empty text |
| SectionParsing.SectionTextNone | BioLLM/fda_data_parsing/section_parsing.py:82-134 | the result is None exactly when the numbered pass finds nothing and no pattern yields non-empty text |
| SectionParsing.ExtractSectionsFromSummary | BioLLM/fda_data_parsing/section_parsing.py:148-164 | the method returns the sections of the specification function |
| SectionParsing.SummarySectionsShape | BioLLM/fda_data_parsing/section_parsing.py:148-164 | None exactly for a missing or blank text; otherwise exactly the four keys, each holding `find_section_text` with that section's patterns |
| SectionParsing.ProcessFdaData | BioLLM/fda_data_parsing/section_parsing.py:166-201 | one line per record, line i being record i processed; `processed_count` is the number of records with summary text |
| SectionParsing.ProcessedRecord | BioLLM/fda_data_parsing/section_parsing.py:177-196 | a line keeps the record's other fields; it has status "success" and the four sections exactly when the summary text is non-blank, otherwise "no_summary_text" with null sections |
| SectionParsing.ProcessedCount | BioLLM/fda_data_parsing/section_parsing.py:179-189 | `processed_count` equals the number of output lines with status "success" |
| QaSource.Matched | BioLLM/fda_data_parsing/source.py:92-110 | a keyword digest lists at most one line per table entry |
| QaSource.MatchedEntries | BioLLM/fda_data_parsing/source.py:92-110 | an entry's line is listed when its keyword occurs, only then, and nothing is listed exactly when no keyword occurs |
| QaSource.MaterialsShape | BioLLM/fda_data_parsing/source.py:92-110 | with no keyword, the fallback header and the first 400 characters and "..."; otherwise the matched lines joined by newlines |
| QaSource.RequirementLinesShape | BioLLM/fda_data_parsing/source.py:112-129 | the eight ISO lines come first exactly when "implant" occurs; the oral line comes last exactly when "dental" occurs |
| QaSource.RequirementsTail | BioLLM/fda_data_parsing/source.py:131 | the requirements answer always ends with the first 300 characters of the input and "..." |
| QaSource.RenderIsExchange | BioLLM/fda_data_parsing/source.py:18-31 | every pair is one user message then one assistant message, carrying the question and the answer |
| QaSource.QaPairsCount | BioLLM/fda_data_parsing/source.py:3-90 | no pairs without parsed sections; otherwise two per truthy section |
| QaSource.QaPairsOrder | BioLLM/fda_data_parsing/source.py:14-90 | the pairs come in the order description, indications, comparison, performance data |
| QaSource.Tagged | BioLLM/fda_data_parsing/source.py:179-186 | a record contributes one tagged line per pair |
| QaSource.TagPairs | BioLLM/fda_data_parsing/source.py:179-187 | the inner loop tags each pair, in order, with the record's K-number, device name and decision date |
| QaSource.ProcessParsedDataToQa | BioLLM/fda_data_parsing/source.py:165-187 | the lines written are the tagged pairs of the "success" records, in input order |
| QaSource.TaggedCount | BioLLM/fda_data_parsing/source.py:171-187 | the number of lines written is the total number of pairs |
| QaSource.TaggedFromSuccess | BioLLM/fda_data_parsing/source.py:175-186 | every line comes from a "success" record of the input and carries its K-number, device name and decision date |
| QaSource.CreateStructuredJson | BioLLM/fda_data_parsing/source.py:189-220 | `devices` holds one entry per "success" record, in order; `total_devices` is their number and `total_qa_pairs` the sum of their pair counts |
| QaSource.DatasetAgreesWithLines | BioLLM/fda_data_parsing/source.py:165-220 | `total_qa_pairs` equals the number of lines `process_parsed_data_to_qa` writes for the same input |
| Convert.Parsed | BioLLM/fda_data_parsing/convert_script.py:18-33 | no more records are kept than lines read |
| Convert.ConvertJsonlToJson | BioLLM/fda_data_parsing/convert_script.py:4-35 | the records are the parseable lines in order; the metadata has the given time and file; `total_records` counts the records; the success and no-summary counters count those statuses |
| Convert.ConvertJsonlToJsonSimple | BioLLM/fda_data_parsing/convert_script.py:47-59 | the array is exactly the parseable records, in order |
| Convert.ParsedMembers | BioLLM/fda_data_parsing/convert_script.py:18-33 | a record is kept exactly when some line parses to it; the unparseable lines are the only ones dropped |
| Convert.ParsedAppend | BioLLM/fda_data_parsing/convert_script.py:18-33 | the records of two runs of lines are the first run's followed by the second's |
| Convert.CountsWithinTotal | BioLLM/fda_data_parsing/convert_script.py:25-35 | `successful_parsing + failed_parsing <= total_records` |
| PreProcessing.SummaryIsSuffix | BioLLM/fda_data_parsing/pre_processing.py:21-29 | None exactly without a match; otherwise the suffix of the text from the match's start, which begins with the matched heading |
| PreProcessing.ExtractStructuredInfo | BioLLM/fda_data_parsing/pre_processing.py:31-53 | the loop builds the dictionary of the specification function |
| PreProcessing.ScriptKeysFresh | BioLLM/fda_data_parsing/pre_processing.py:35-40 | the four pattern keys are distinct and none is `k_number` |
| PreProcessing.InfoKeys | BioLLM/fda_data_parsing/pre_processing.py:42-53 | `k_number` is always present with the given value, and every other key is a pattern's |
| PreProcessing.InfoFields | BioLLM/fda_data_parsing/pre_processing.py:45-51 | a field is present exactly when its pattern matches, and then holds the first line of the stripped group |
| PreProcessing.FieldIsOneLine | BioLLM/fda_data_parsing/pre_processing.py:51 | an extracted field holds no newline and begins the stripped group |
| PreProcessing.QaPairsShape | BioLLM/fda_data_parsing/pre_processing.py:55-72 | at most two pairs: the intended-use pair exactly when name and indications are truthy, the description pair exactly when name and description are; answers are the fields; a missing `k_number` raises exactly when the first is asked |
| PreProcessing.ExtractedInfoAsks | BioLLM/fda_data_parsing/pre_processing.py:42-61 | the dictionary `extract_structured_info` builds never makes `generate_qa_pairs` raise |
| PreProcessing.BuildDataset | BioLLM/fda_data_parsing/pre_processing.py:75-107 | the loop builds the dataset of the specification function over the listed names |
| PreProcessing.FileQaShape | BioLLM/fda_data_parsing/pre_processing.py:83-107 | a file adds at most two pairs, and adds any only when its name ends in ".pdf", its text is non-empty and a summary heading is found |
| PreProcessing.NonPdfAddsNothing | BioLLM/fda_data_parsing/pre_processing.py:83 | a name not ending in ".pdf" adds nothing |
| PreProcessing.DatasetSnoc | BioLLM/fda_data_parsing/pre_processing.py:82-107 | one file more appends its pairs at the end |
| PreProcessing.DatasetOfPdfs | BioLLM/fda_data_parsing/pre_processing.py:82-83 | the dataset depends only on the ".pdf" names of the listing |
| PreProcessing.DatasetBound | BioLLM/fda_data_parsing/pre_processing.py:82-107 | the dataset has at most two pairs per listed name |
| PreProcessing.KNumberOfPdfName | BioLLM/fda_data_parsing/pre_processing.py:84 | a name without dots followed by ".pdf" gives that name back as the K-number |
| TextUtil.FormatSerialWidth5 | scripts/merge_pdb.py:16 | `{serial:5d}` of a serial below 100000 fills five columns and reads back as the serial |
| TextUtil.FormatResidueWidth4 | docking/scripts/create_small_protein.py:58 | `{n:4d}` of a number below 10000 fills four columns and reads back as the number |

## Left out

- A results page without any `//table` is not modelled. There `safe_find_all_results_rows` (`parsing.py:150-154`, called from `collect_page_rows` at `:669`) raises `TimeoutException` after 15 seconds, nothing catches it, and the crawl ends with the driver closed. In the model every listing page is read, and the crawl stops only for `Crawl.Stop`'s reasons.
- Selenium and browser plumbing are not modelled: the driver setup, waits, XPath lookups, tab switching, `set_results_per_page_to_500`, the search form and debug printing. What the browser shows is an input.
- The requests session, cookies, headers, `time.sleep`, random jitter and the float backoff `1.2 ** attempt` are not modelled. Only the attempt count and each attempt's outcome are.
- PDF decoding with `fitz` is an input. `extract_text_from_pdf` in `pre_processing.py` is the function `PreProcessing.PdfText`, with `None` for a file that raises.
- The regular-expression engines are not modelled. `re.search` is the given function `Regex.Search`, sound in that matches lie inside the text. The same applies to `clean_section_text`, the heading removal of the numbered pass, and the `K\d{6}` search of the detail page body.
- The pattern-string test of the numbered pass (`replace('_', '')`, `.lower()`, the `\s+` and `.*` rewriting) is modelled over ASCII only. The same holds for `str.lower`, `str.upper`, `str.strip`, `isdigit` and `isalpha` elsewhere.
- JSON serialisation and key order are not modelled. Neither are `ensure_ascii` and `indent`, nor a JSON line that parses to something other than an object. Files are sequences of lines or parsed records.
- `datetime.now()` is the parameter `now` of `Convert.ConvertJsonlToJson`.
- `os.listdir` is not modelled. Its order is the given sequence of names of `PreProcessing.BuildDataset`.
- `print`, `os.makedirs`, file opening and closing and the `__main__` blocks are not modelled, except the argument checks of `scripts/merge_pdb.py`.
- `int()` accepting underscores and non-ASCII digits is not modelled.
- Float parsing and formatting of coordinates are not modelled: `_f`, `%8.3f` and `%6.2f`. Coordinates, occupancy and B-factor are carried as text and rendered by a given function.
- `urlunparse` and percent-encoding are not modelled. A URL is its six `urlparse` parts with its query as decoded pairs.
- A detail tab that raises anything other than `TimeoutException` or `WebDriverException` is not modelled. In the source such an exception ends the crawl.
- `Crawl.CrawlFda510k`: `while True` is bounded by a `fuel` parameter, one page per unit. `OutOfFuel` is a stop of the model, not of the source.
- `PreProcessing.ExtractStructuredInfo`: the dictionary is a `map`, so the insertion order of its keys is not modelled.
- `analyze_material_improvements` and `extract_biocompatibility_results` are the functions `QaSource.Improvements` and `QaSource.BiocompatibilityResults`, with no lemma of their own. Each joins the lines its keyword table matches, which `QaSource.MatchedEntries` covers, and always appends the head of its input.
- `generate_biocompatibility_requirements` takes `device_name` but never uses it, so the model drops that parameter.
- `PreProcessing.QaPairsShape`: the `KeyError` that `info_dict['k_number']` raises when that key is absent is the `Err` result.
- `Listing.Signature`: the contract states when the signature is empty and that it contains "||". The text around the separator is stated only by the function's body.
- `MergePdb.OnlySerialAndChainChange`, `MergePdb.RenumberLineSerial`, `MergedPdb.FmtAtomSerialColumns` and `TextUtil.FormatSerialWidth5` are stated for serials below 100000. Only there does `{serial:5d}` fill exactly five columns; a larger serial widens the line.
- `SmallProtein.ClassifyRenumbers`, `SmallProtein.ClassifyWritten`, `SmallProtein.ExtractWritten` and `SmallProtein.ExtractWrittenAt` are stated for new residue numbers below 10000. Only there does `{n:4d}` fill exactly four columns.
- The other repository files are not part of this model: the Materials Project and pymatgen wrappers, the surface-vector PCA, the language-model and docking drivers, plotting, and `scripts/make_merged_debug_pdb.py`.
