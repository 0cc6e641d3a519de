/**
 * Renumbering and chain rewriting of PDB records, and the two-chain merge
 * (scripts/merge_pdb.py).
 *
 * Lines are taken as `readlines` returns them, each with its line feed when
 * it has one. Columns follow the ATOM/HETATM records of the wwPDB PDB format
 * v3.3: serial in columns 7-11, chain identifier in column 22.
 */
module MergePdb {
  import opened TextUtil
  import opened SeqUtil

  /** `REC_ATOM`. */
  const RecAtom: seq<string> := ["ATOM  "]

  /** `REC_ANY`. */
  const RecAny: seq<string> := ["ATOM  ", "HETATM"]

  /** Python `ln.startswith(records)` for a tuple of prefixes. */
  predicate StartsWithAny(ln: string, records: seq<string>)
  {
    exists k :: 0 <= k < |records| && StartsWith(ln, records[k])
  }

  /** A line shorter than 80 columns loses its line feeds and is padded to 80 columns. */
  function Widen(ln: string): (w: string)
    ensures |w| >= 80
    ensures |ln| >= 80 ==> w == ln
    ensures |ln| < 80 ==> w == RStripChars(ln, {'\n'}) + Spaces(80 - |RStripChars(ln, {'\n'})|)
  {
    if |ln| < 80 then LJust(RStripChars(ln, {'\n'}), 80) else ln
  }

  /** The line with `serial` in columns 7-11 and `chain` in column 22, before right-stripping. */
  function Rewritten(w: string, chain: string, serial: int): string
    requires |w| >= 22
  {
    w[..6] + FormatInt(serial, 5) + w[11..21] + chain + w[22..]
  }

  /** One output line of `renumber_and_set_chain`. */
  function RenumberLine(ln: string, chain: string, serial: int): string
  {
    RStrip(Rewritten(Widen(ln), chain, serial))
  }

  /**
   * The lines of `lines` that pass `keep`, each passed to `render` with its
   * serial, serials counting from `start` in order.
   */
  function Numbered(lines: seq<string>, start: int, keep: string -> bool, render: (string, int) -> string): seq<string>
  {
    if |lines| == 0 then []
    else
      var prev := Numbered(lines[..|lines| - 1], start, keep, render);
      var ln := lines[|lines| - 1];
      if keep(ln) then prev + [render(ln, start + |prev|)] else prev
  }

  /** The record test of `renumber_and_set_chain`. */
  function Selector(records: seq<string>): string -> bool
  {
    ln => StartsWithAny(ln, records)
  }

  /** The line rewriting of `renumber_and_set_chain` for a chain. */
  function Renderer(chain: string): (string, int) -> string
  {
    (ln, serial) => RenumberLine(ln, chain, serial)
  }

  /** The renumbered lines for the selected records of `lines`, serials counting from `start`. */
  function Renumbered(lines: seq<string>, chain: string, start: int, records: seq<string>): seq<string>
  {
    Numbered(lines, start, Selector(records), Renderer(chain))
  }

  /** `TER` when the last line is not already one. */
  function Closed(body: seq<string>): seq<string>
  {
    if |body| > 0 && !StartsWith(body[|body| - 1], "TER") then body + ["TER"] else body
  }

  /** Python `renumber_and_set_chain(lines, chain, start_serial, records)`. */
  method RenumberAndSetChain(lines: seq<string>, chain: string, startSerial: int, records: seq<string>)
    returns (out: seq<string>, serial: int)
    ensures out == Closed(Renumbered(lines, chain, startSerial, records))
    ensures serial == startSerial + |Renumbered(lines, chain, startSerial, records)|
  {
    out := [];
    serial := startSerial;
    for i := 0 to |lines|
      invariant out == Renumbered(lines[..i], chain, startSerial, records)
      invariant serial == startSerial + |out|
    {
      assert lines[..i + 1][..i] == lines[..i];
      var ln := lines[i];
      if !StartsWithAny(ln, records) {
        continue;
      }
      if |ln| < 80 {
        ln := LJust(RStripChars(ln, {'\n'}), 80);
      }
      ln := ln[..6] + FormatInt(serial, 5) + ln[11..21] + chain + ln[22..];
      out := out + [RStrip(ln)];
      serial := serial + 1;
    }
    assert lines[..|lines|] == lines;
    if out != [] && !StartsWith(out[|out| - 1], "TER") {
      out := out + ["TER"];
    }
  }

  /** One rendered line per kept line, in order, the i-th rendered with serial `start + i`. */
  lemma {:induction false} NumberedLines(lines: seq<string>, start: int, keep: string -> bool,
                                         render: (string, int) -> string)
    ensures var kept := Filter(lines, keep);
      var r := Numbered(lines, start, keep, render);
      && |r| == |kept|
      && forall i :: 0 <= i < |r| ==> r[i] == render(kept[i], start + i)
  {
    if |lines| > 0 {
      var init := lines[..|lines| - 1];
      var ln := lines[|lines| - 1];
      NumberedLines(init, start, keep, render);
      var prev := Numbered(init, start, keep, render);
      var kp := Filter(init, keep);
      if keep(ln) {
        var r := prev + [render(ln, start + |prev|)];
        var kept := kp + [ln];
        assert Numbered(lines, start, keep, render) == r;
        assert Filter(lines, keep) == kept;
        forall i | 0 <= i < |r|
          ensures r[i] == render(kept[i], start + i)
        {
          if i < |prev| {
            assert r[i] == prev[i] && kept[i] == kp[i];
          }
        }
      } else {
        assert Numbered(lines, start, keep, render) == prev;
        assert Filter(lines, keep) == kp;
      }
    }
  }

  /**
   * One renumbered line per selected record, in order, the i-th carrying
   * serial `start + i`: the serials are consecutive.
   */
  lemma RenumberedLines(lines: seq<string>, chain: string, start: int, records: seq<string>)
    ensures var kept := Filter(lines, Selector(records));
      var r := Renumbered(lines, chain, start, records);
      && |r| == |kept|
      && forall i {:trigger kept[i]} :: 0 <= i < |r| ==> r[i] == RenumberLine(kept[i], chain, start + i)
  {
    NumberedLines(lines, start, Selector(records), Renderer(chain));
    var kept := Filter(lines, Selector(records));
    var r := Renumbered(lines, chain, start, records);
    forall i | 0 <= i < |r|
      ensures r[i] == RenumberLine(kept[i], chain, start + i)
    {
      assert r[i] == Renderer(chain)(kept[i], start + i);
      RendererApplies(chain, kept[i], start + i);
    }
  }

  /** `Renderer(chain)` is `RenumberLine` for that chain. */
  lemma RendererApplies(chain: string, ln: string, serial: int)
    ensures Renderer(chain)(ln, serial) == RenumberLine(ln, chain, serial)
  {
  }

  /**
   * Only the serial (columns 7-11) and the chain (column 22) change: the
   * rewritten line agrees with the widened input everywhere else.
   */
  lemma OnlySerialAndChainChange(ln: string, chain: string, serial: nat)
    requires |chain| == 1 && serial < 100000
    ensures var w := Widen(ln);
      var raw := Rewritten(w, chain, serial);
      && |raw| == |w|
      && (forall i :: 0 <= i < |w| && !(6 <= i < 11) && i != 21 ==> raw[i] == w[i])
      && raw[6..11] == FormatInt(serial, 5)
      && raw[21] == chain[0]
  {
    FormatSerialShape(serial);
    RewrittenColumns(Widen(ln), chain, FormatInt(serial, 5));
  }

  /** The output line is the rewritten line with its trailing blanks removed. */
  lemma RenumberLineStripped(ln: string, chain: string, serial: int)
    ensures var raw := Rewritten(Widen(ln), chain, serial);
      var out := RenumberLine(ln, chain, serial);
      && out == raw[..|out|] && (out == [] || !IsSpace(out[|out| - 1]))
      && (forall i :: |out| <= i < |raw| ==> IsSpace(raw[i]))
  {
  }

  /** The serial columns survive the stripping: columns 7-11 of the output hold the serial. */
  lemma RenumberLineSerial(ln: string, chain: string, serial: nat)
    requires serial < 100000
    ensures var out := RenumberLine(ln, chain, serial);
      11 <= |out| && out[6..11] == FormatInt(serial, 5)
  {
    FormatSerialShape(serial);
    StrippedSerialField(Widen(ln), chain, FormatInt(serial, 5));
  }

  /** A five-column field ending in a non-blank survives right-stripping of the rewritten line. */
  lemma StrippedSerialField(w: string, chain: string, f: string)
    requires |w| >= 22 && |f| == 5 && !IsSpace(f[4])
    ensures var out := RStrip(w[..6] + f + w[11..21] + chain + w[22..]);
      11 <= |out| && out[6..11] == f
  {
    var raw := w[..6] + f + w[11..21] + chain + w[22..];
    assert raw[6..11] == f;
    StripKeepsColumns(raw, f);
  }

  /** Right-stripping a line whose columns 7-11 end in a non-blank keeps those columns. */
  lemma StripKeepsColumns(raw: string, f: string)
    requires |raw| >= 11 && raw[6..11] == f && !IsSpace(f[4])
    ensures 11 <= |RStrip(raw)| && RStrip(raw)[6..11] == f
  {
    assert raw[10] == f[4];
  }

  /** Where the fields of a rewritten line sit. */
  lemma RewrittenColumns(w: string, chain: string, f: string)
    requires |w| >= 22 && |chain| == 1 && |f| == 5
    ensures var raw := w[..6] + f + w[11..21] + chain + w[22..];
      && |raw| == |w|
      && (forall i :: 0 <= i < |w| && !(6 <= i < 11) && i != 21 ==> raw[i] == w[i])
      && raw[6..11] == f
      && raw[21] == chain[0]
  {
  }

  /** Widening keeps a record name, which holds no line feed, at the start. */
  lemma WidenKeepsRecord(ln: string, rec: string)
    requires StartsWith(ln, rec) && '\n' !in rec && |rec| <= 6
    ensures StartsWith(Widen(ln), rec)
  {
    if |ln| < 80 {
      var s := RStripChars(ln, {'\n'});
      assert forall i :: 0 <= i < |rec| ==> ln[i] == rec[i] && ln[i] !in {'\n'};
      assert |rec| == 0 || ln[|rec| - 1] !in {'\n'};
      assert s[..|rec|] == rec;
      assert Widen(ln)[..|rec|] == s[..|rec|];
    }
  }

  /** A renumbered line starts with the record it was selected for. */
  lemma RenumberLineKeepsRecord(ln: string, chain: string, serial: int, rec: string)
    requires StartsWith(ln, rec) && '\n' !in rec && |rec| <= 6
    ensures StartsWith(RenumberLine(ln, chain, serial), rec)
  {
    WidenKeepsRecord(ln, rec);
    var f := FormatInt(serial, 5);
    FormatIntEndsWithDigit(serial, 5);
    RewrittenHead(Widen(ln), chain, f, rec);
    StripKeepsPrefix(Rewritten(Widen(ln), chain, serial), rec, 6 + |f| - 1);
  }

  /** A rewritten line keeps a record name of at most six characters and has the serial's last character in place. */
  lemma RewrittenHead(w: string, chain: string, f: string, rec: string)
    requires |w| >= 22 && f != [] && StartsWith(w, rec) && |rec| <= 6
    ensures var raw := w[..6] + f + w[11..21] + chain + w[22..];
      && StartsWith(raw, rec) && 6 + |f| - 1 < |raw| && raw[6 + |f| - 1] == f[|f| - 1]
  {
    var raw := w[..6] + f + w[11..21] + chain + w[22..];
    assert raw[..|rec|] == w[..|rec|];
  }

  /** Right-stripping keeps a prefix that ends before a non-blank character. */
  lemma StripKeepsPrefix(raw: string, rec: string, k: nat)
    requires StartsWith(raw, rec) && |rec| <= k < |raw| && !IsSpace(raw[k])
    ensures StartsWith(RStrip(raw), rec)
  {
    var out := RStrip(raw);
    assert k < |out|;
    assert out[..|rec|] == raw[..|rec|];
  }

  /** When no rendered line starts with "TER", a non-empty result gets exactly one TER. */
  lemma ClosedNumbered(lines: seq<string>, start: int, keep: string -> bool, render: (string, int) -> string)
    requires forall ln, serial :: keep(ln) ==> !StartsWith(render(ln, serial), "TER")
    ensures var body := Numbered(lines, start, keep, render);
      Closed(body) == if |body| == 0 then body else body + ["TER"]
  {
    var body := Numbered(lines, start, keep, render);
    if |body| > 0 {
      NumberedLines(lines, start, keep, render);
      var kept := Filter(lines, keep);
      assert keep(kept[|kept| - 1]);
    }
  }

  /** A line selected by `REC_ATOM` or `REC_ANY` is never rendered as a TER line. */
  lemma SelectedNotTer(chain: string, records: seq<string>)
    requires records == RecAtom || records == RecAny
    ensures forall ln, serial :: Selector(records)(ln) ==> !StartsWith(Renderer(chain)(ln, serial), "TER")
  {
    forall ln, serial | Selector(records)(ln)
      ensures !StartsWith(RenumberLine(ln, chain, serial), "TER")
    {
      var k :| 0 <= k < |records| && StartsWith(ln, records[k]);
      RenumberLineKeepsRecord(ln, chain, serial, records[k]);
      assert records[k] == "ATOM  " || records[k] == "HETATM";
      NotTer(RenumberLine(ln, chain, serial), records[k]);
    }
  }

  /** A line that starts with a record name not beginning with 'T' is not a TER line. */
  lemma NotTer(out: string, rec: string)
    requires StartsWith(out, rec) && rec != [] && rec[0] != 'T'
    ensures !StartsWith(out, "TER")
  {
    assert out[0] == rec[0];
  }

  /**
   * With `REC_ATOM` or `REC_ANY`, a non-empty selection is closed by exactly
   * one "TER" line and an empty selection gives no lines at all.
   */
  lemma TerClosesChain(lines: seq<string>, chain: string, start: int, records: seq<string>)
    requires records == RecAtom || records == RecAny
    ensures var body := Renumbered(lines, chain, start, records);
      Closed(body) == if |body| == 0 then body else body + ["TER"]
  {
    SelectedNotTer(chain, records);
    ClosedNumbered(lines, start, Selector(records), Renderer(chain));
  }

  /**
   * A chain's lines: one renumbered line per selected record with serials
   * from `start`, then "TER" when there was at least one.
   */
  lemma ChainLines(lines: seq<string>, chain: string, start: int, records: seq<string>)
    requires records == RecAtom || records == RecAny
    ensures var kept := Filter(lines, Selector(records));
      var c := Closed(Renumbered(lines, chain, start, records));
      && |c| == |kept| + (if |kept| == 0 then 0 else 1)
      && (forall i {:trigger kept[i]} :: 0 <= i < |kept| ==> c[i] == RenumberLine(kept[i], chain, start + i))
      && (|kept| != 0 ==> c[|kept|] == "TER")
  {
    RenumberedLines(lines, chain, start, records);
    TerClosesChain(lines, chain, start, records);
  }

  /** The first line of the merged file. */
  const Remark: string := "REMARK merged by merge_pdb.py (A=protein, B=surface)"

  /** The lines `merge(prot_pdb, surf_pdb, out_pdb)` writes, given the lines of the two inputs. */
  function Merged(prot: seq<string>, surf: seq<string>): seq<string>
  {
    var bodyA := Renumbered(prot, "A", 1, RecAtom);
    var chainA := Closed(bodyA);
    var chainB := Closed(Renumbered(surf, "B", 1 + |bodyA|, RecAny));
    [Remark] + chainA + chainB + ["END"]
  }

  /** The merged file as its two chains between REMARK and END, chain B numbered on from chain A. */
  lemma MergedChains(prot: seq<string>, surf: seq<string>)
    ensures var a := Filter(prot, Selector(RecAtom));
      Merged(prot, surf) == [Remark] + Closed(Renumbered(prot, "A", 1, RecAtom))
                            + Closed(Renumbered(surf, "B", 1 + |a|, RecAny)) + ["END"]
  {
    RenumberedLines(prot, "A", 1, RecAtom);
  }

  /** REMARK first, END last, and TER after each chain that has records. */
  lemma MergeFrame(prot: seq<string>, surf: seq<string>)
    ensures var a := Filter(prot, Selector(RecAtom));
      var b := Filter(surf, Selector(RecAny));
      var ta := if |a| == 0 then 0 else 1;
      var tb := if |b| == 0 then 0 else 1;
      var m := Merged(prot, surf);
      && |m| == 2 + |a| + ta + |b| + tb
      && m[0] == Remark && m[|m| - 1] == "END"
      && (ta == 1 ==> m[1 + |a|] == "TER")
      && (tb == 1 ==> m[1 + |a| + ta + |b|] == "TER")
  {
    var a := Filter(prot, Selector(RecAtom));
    MergedChains(prot, surf);
    ChainLines(prot, "A", 1, RecAtom);
    ChainLines(surf, "B", 1 + |a|, RecAny);
    MergedIndexes(Closed(Renumbered(prot, "A", 1, RecAtom)), Closed(Renumbered(surf, "B", 1 + |a|, RecAny)));
  }

  /** Chain A: the protein's ATOM records, in order, numbered from 1. */
  lemma MergeChainA(prot: seq<string>, surf: seq<string>)
    ensures var a := Filter(prot, Selector(RecAtom));
      var m := Merged(prot, surf);
      && |m| >= 1 + |a|
      && forall i :: 0 <= i < |a| ==> m[1 + i] == RenumberLine(a[i], "A", 1 + i)
  {
    var a := Filter(prot, Selector(RecAtom));
    MergedChains(prot, surf);
    ChainLines(prot, "A", 1, RecAtom);
    MergedIndexes(Closed(Renumbered(prot, "A", 1, RecAtom)), Closed(Renumbered(surf, "B", 1 + |a|, RecAny)));
  }

  /**
   * Chain B: the surface's ATOM and HETATM records, in order, numbered on
   * from chain A, after REMARK, chain A and chain A's TER.
   */
  lemma MergeChainB(prot: seq<string>, surf: seq<string>, i: nat)
    requires i < |Filter(surf, Selector(RecAny))|
    ensures var a := Filter(prot, Selector(RecAtom));
      var b := Filter(surf, Selector(RecAny));
      var ta := if |a| == 0 then 0 else 1;
      var m := Merged(prot, surf);
      1 + |a| + ta + i < |m| && m[1 + |a| + ta + i] == RenumberLine(b[i], "B", 1 + |a| + i)
  {
    var a := Filter(prot, Selector(RecAtom));
    var ta := if |a| == 0 then 0 else 1;
    var chainA := Closed(Renumbered(prot, "A", 1, RecAtom));
    var chainB := Closed(Renumbered(surf, "B", 1 + |a|, RecAny));
    MergedChains(prot, surf);
    ChainLength(prot, "A", 1, RecAtom);
    ChainLines(surf, "B", 1 + |a|, RecAny);
    MergedAt(Merged(prot, surf), chainA, chainB, i, 1 + |a| + ta + i, chainB[i]);
  }

  /** The i-th line of chain B sits after REMARK and chain A. */
  lemma MergedAt(m: seq<string>, chainA: seq<string>, chainB: seq<string>, i: nat, k: int, line: string)
    requires m == [Remark] + chainA + chainB + ["END"]
    requires i < |chainB| && k == 1 + |chainA| + i && chainB[i] == line
    ensures k < |m| && m[k] == line
  {
  }

  /** A chain has one line per selected record, plus TER when there is one. */
  lemma ChainLength(lines: seq<string>, chain: string, start: int, records: seq<string>)
    requires records == RecAtom || records == RecAny
    ensures var kept := Filter(lines, Selector(records));
      |Closed(Renumbered(lines, chain, start, records))| == |kept| + (if |kept| == 0 then 0 else 1)
  {
    NumberedLines(lines, start, Selector(records), Renderer(chain));
    TerClosesChain(lines, chain, start, records);
  }

  /** Where the lines of the two chains sit in the merged file. */
  lemma MergedIndexes(chainA: seq<string>, chainB: seq<string>)
    ensures var m := [Remark] + chainA + chainB + ["END"];
      && |m| == 2 + |chainA| + |chainB|
      && m[0] == Remark && m[|m| - 1] == "END"
      && (forall i :: 0 <= i < |chainA| ==> m[1 + i] == chainA[i])
      && (forall i :: 0 <= i < |chainB| ==> m[1 + |chainA| + i] == chainB[i])
  {
  }

  /** How `main` ends. */
  datatype Outcome = Usage | NotAFile | Wrote(path: string)

  /** The exit status of an outcome. */
  function ExitCode(o: Outcome): int
  {
    match o
    case Usage => 1
    case NotAFile => 2
    case Wrote(_) => 0
  }

  /**
   * Python `main()` over `sys.argv`; `isDir` says whether the output path names
   * an existing directory.
   */
  function ScriptMain(argv: seq<string>, isDir: bool): (o: Outcome)
  {
    if |argv| != 4 then Usage
    else if EndsWith(argv[3], "/") || isDir then NotAFile
    else Wrote(argv[3])
  }

  /** Exit 1 unless there are exactly three arguments; exit 2 for a directory; otherwise the merge is written. */
  lemma MainExitCodes(argv: seq<string>, isDir: bool)
    ensures ExitCode(ScriptMain(argv, isDir)) == 1 <==> |argv| != 4
    ensures ExitCode(ScriptMain(argv, isDir)) == 2 <==> |argv| == 4 && (EndsWith(argv[3], "/") || isDir)
    ensures ExitCode(ScriptMain(argv, isDir)) == 0 <==> ScriptMain(argv, isDir).Wrote?
    ensures ScriptMain(argv, isDir).Wrote? ==> ScriptMain(argv, isDir).path == argv[3]
  {
  }
}
