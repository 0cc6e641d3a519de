/**
 * Reading the rows of a 510(k) search-result page
 * (`collect_page_rows` and `first_row_signature` in
 * BioLLM/fda_data_parsing/parsing.py).
 *
 * A row is what the browser's XPath query returned for one `<tr>`: each cell
 * the code reads is present or missing (a missing cell is the
 * `NoSuchElementException` the lookup raises).
 */
module Listing {
  import opened TextUtil

  /** The link in the first cell: its text and its `href` attribute (which may be absent). */
  datatype Link = Link(text: string, href: Option<string>)

  /** One result row as the browser sees it: cells 1 to 4. */
  datatype ListingRow = ListingRow(first: Option<Link>, second: Option<string>, third: Option<string>, fourth: Option<string>)

  /** One collected row: the listing's K-number and fields, all stripped. */
  datatype Item = Item(kNumber: string, deviceName: string, applicant: string, decisionDate: string, detailLink: Option<string>)

  /** A row is collected when all four cells could be read. */
  predicate Readable(row: ListingRow)
  {
    row.first.Some? && row.second.Some? && row.third.Some? && row.fourth.Some?
  }

  function ItemOf(row: ListingRow): Item
    requires Readable(row)
  {
    Item(Strip(row.first.value.text), Strip(row.second.value), Strip(row.third.value),
         Strip(row.fourth.value), row.first.value.href)
  }

  /** The items of the readable rows, in page order. */
  function Items(rows: seq<ListingRow>): seq<Item>
  {
    if rows == [] then []
    else
      var last := rows[|rows| - 1];
      Items(rows[..|rows| - 1]) + (if Readable(last) then [ItemOf(last)] else [])
  }

  /** Collects one item per readable row; a row that fails to parse is skipped. */
  method CollectPageRows(rows: seq<ListingRow>) returns (items: seq<Item>)
    ensures items == Items(rows)
  {
    items := [];
    for i := 0 to |rows|
      invariant items == Items(rows[..i])
    {
      assert rows[..i + 1][..i] == rows[..i];
      var row := rows[i];
      if row.first.None? || row.second.None? || row.third.None? || row.fourth.None? {
        continue;
      }
      var link := row.first.value;
      items := items + [Item(Strip(link.text), Strip(row.second.value), Strip(row.third.value),
                             Strip(row.fourth.value), link.href)];
    }
    assert rows[..|rows|] == rows;
  }

  /** The collected items are at most the rows, and all of them when every row is readable. */
  lemma {:induction false} ItemsCount(rows: seq<ListingRow>)
    ensures |Items(rows)| <= |rows|
    ensures (forall j :: 0 <= j < |rows| ==> Readable(rows[j])) ==> |Items(rows)| == |rows|
  {
    if rows != [] {
      var init := rows[..|rows| - 1];
      ItemsCount(init);
      assert forall j :: 0 <= j < |init| ==> init[j] == rows[j];
    }
  }

  /** Each collected item is the item of a readable row. */
  lemma {:induction false} ItemFromReadableRow(rows: seq<ListingRow>, k: nat)
    requires k < |Items(rows)|
    ensures exists j :: 0 <= j < |rows| && Readable(rows[j]) && Items(rows)[k] == ItemOf(rows[j])
  {
    var init := rows[..|rows| - 1];
    var last := rows[|rows| - 1];
    assert Items(rows) == Items(init) + (if Readable(last) then [ItemOf(last)] else []);
    if k < |Items(init)| {
      ItemFromReadableRow(init, k);
      var j :| 0 <= j < |init| && Readable(init[j]) && Items(init)[k] == ItemOf(init[j]);
      assert Items(rows)[k] == Items(init)[k];
      assert rows[j] == init[j];
      assert 0 <= j < |rows| && Readable(rows[j]) && Items(rows)[k] == ItemOf(rows[j]);
    } else {
      assert Readable(last) && Items(rows)[k] == ItemOf(last);
      assert 0 <= |rows| - 1 < |rows| && Readable(rows[|rows| - 1]) && Items(rows)[k] == ItemOf(rows[|rows| - 1]);
    }
  }

  /** Items are empty exactly when no row is readable. */
  lemma {:induction false} ItemsEmpty(rows: seq<ListingRow>)
    ensures Items(rows) == [] <==> forall j :: 0 <= j < |rows| ==> !Readable(rows[j])
  {
    if rows != [] {
      var init := rows[..|rows| - 1];
      ItemsEmpty(init);
      assert forall j :: 0 <= j < |init| ==> init[j] == rows[j];
    }
  }

  /**
   * The fingerprint of a page: the first row's stripped K-number text, "||",
   * and the first 50 characters of its stripped device name; "" when there is
   * no row or the first row's cells cannot be read.
   */
  function Signature(rows: seq<ListingRow>): (sig: string)
    ensures sig == "" <==> rows == [] || rows[0].first.None? || rows[0].second.None?
    ensures sig != "" ==> Contains(sig, "||")
  {
    if rows == [] then ""
    else if rows[0].first.None? || rows[0].second.None? then ""
    else
      var k := Strip(rows[0].first.value.text);
      var sig := k + "||" + Take(Strip(rows[0].second.value), 50);
      assert sig[|k|..|k| + 2] == "||";
      assert OccursAt(sig, "||", |k|);
      sig
  }
}
