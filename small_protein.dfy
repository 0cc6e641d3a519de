/**
 * Extraction of a small test protein from a larger one, and the two built-in
 * test sequences (docking/scripts/create_small_protein.py).
 *
 * Files are taken as `readlines` returns them, each line with its line feed
 * when it has one; what the script writes is the sequence of strings passed
 * to `write`. The residue sequence number of an ATOM record sits in columns
 * 23-26 and the chain identifier in column 22, as in the wwPDB PDB format
 * v3.3.
 */
module SmallProtein {
  import opened TextUtil
  import opened SeqUtil

  // ---------------------------------------------------------------------
  // The FASTA sequence
  // ---------------------------------------------------------------------

  /** What one FASTA line adds to the sequence: nothing for a header, else the stripped line. */
  function SequencePart(line: string): string
  {
    if StartsWith(line, ">") then "" else Strip(line)
  }

  /** The sequence of a FASTA file: its non-header lines, stripped and concatenated. */
  function Sequence(lines: seq<string>): string
  {
    Flatten(lines, SequencePart)
  }

  /** The loop of `extract_albumin_domain` that builds `sequence`. */
  method ReadSequence(lines: seq<string>) returns (sequence: string)
    ensures sequence == Sequence(lines)
  {
    sequence := "";
    for i := 0 to |lines|
      invariant sequence == Sequence(lines[..i])
    {
      assert lines[..i + 1][..i] == lines[..i];
      var line := lines[i];
      if !StartsWith(line, ">") {
        sequence := sequence + Strip(line);
      }
    }
    assert lines[..|lines|] == lines;
  }

  /** Reading two files one after the other reads the two sequences one after the other. */
  lemma SequenceAppend(a: seq<string>, b: seq<string>)
    ensures Sequence(a + b) == Sequence(a) + Sequence(b)
  {
    FlattenAppend(a, b, SequencePart);
  }

  /** The residues `start_res` to `end_res` of the sequence, as Python's `sequence[start_res-1:end_res]`. */
  function SmallSequence(sequence: string, startRes: int, endRes: int): string
  {
    PySlice(sequence, startRes - 1, endRes)
  }

  /**
   * Within bounds the piece is residues `start_res` to `end_res`, numbered
   * from 1; an `end_res` past the end is cut at the end.
   */
  lemma SmallSequenceWindow(sequence: string, startRes: int, endRes: int)
    requires 1 <= startRes <= endRes + 1
    ensures var r := SmallSequence(sequence, startRes, endRes);
      && (endRes <= |sequence| ==> |r| == endRes - startRes + 1)
      && (startRes - 1 <= |sequence| < endRes ==> r == sequence[startRes - 1..])
      && forall i :: 0 <= i < |r| ==> r[i] == sequence[startRes - 1 + i]
  {
  }

  /** A `start_res` of 0 makes the slice start at the last residue. */
  lemma SmallSequenceFromZero(sequence: string, endRes: int)
    requires |sequence| > 0 && endRes >= |sequence|
    ensures SmallSequence(sequence, 0, endRes) == [sequence[|sequence| - 1]]
  {
  }

  /** The header line of the small FASTA file. */
  function FastaHeader(startRes: int, endRes: int): string
  {
    ">small_albumin_domain_" + IntToStr(startRes) + "_" + IntToStr(endRes) + "\n"
  }

  /** A FASTA file of one header line and one sequence line. */
  function FastaFile(header: string, sequence: string): seq<string>
  {
    [header, sequence + "\n"]
  }

  /** Neither end of `s` is white space. */
  predicate Trimmed(s: string)
  {
    |s| == 0 || (!IsSpace(s[0]) && !IsSpace(s[|s| - 1]))
  }

  /** Stripping a trimmed line with its line feed gives the line. */
  lemma StripLine(s: string)
    requires Trimmed(s)
    ensures Strip(s + "\n") == s
  {
    var t := s + "\n";
    if |s| == 0 {
      assert LStrip(t) == LStrip(t[1..]);
      assert t[1..] == [];
    } else {
      assert LStrip(t) == t;
      assert RStrip(t) == RStrip(t[..|t| - 1]);
      assert t[..|t| - 1] == s;
      assert RStrip(s) == s;
    }
  }

  /** A line whose first character is not `>` is not a FASTA header. */
  lemma NotHeader(t: string)
    requires |t| > 0 && t[0] != '>'
    ensures !StartsWith(t, ">")
  {
  }

  /**
   * A FASTA file written with a header and a trimmed sequence that does not
   * itself start like a header reads back as that sequence.
   */
  lemma FastaRoundTrip(header: string, sequence: string)
    requires StartsWith(header, ">") && Trimmed(sequence) && (|sequence| == 0 || sequence[0] != '>')
    ensures Sequence(FastaFile(header, sequence)) == sequence
  {
    var f := FastaFile(header, sequence);
    assert f[..1] == [header];
    assert [header][..0] == [];
    assert Flatten([header], SequencePart) == Flatten([header][..0], SequencePart) + SequencePart(header);
    NotHeader(sequence + "\n");
    StripLine(sequence);
    assert Flatten(f, SequencePart) == Flatten([header], SequencePart) + SequencePart(sequence + "\n");
  }

  /** The header of the small FASTA file is a FASTA header. */
  lemma FastaHeaderIsHeader(startRes: int, endRes: int)
    ensures StartsWith(FastaHeader(startRes, endRes), ">")
  {
  }

  // ---------------------------------------------------------------------
  // The PDB lines
  // ---------------------------------------------------------------------

  /** The exceptions the line loop can raise. */
  datatype Failure =
    | IndexOutOfRange             // `line[21]` of an ATOM line shorter than 22 characters
    | InvalidLiteral(field: string) // `int` of the stripped residue-number columns

  /** What the line loop does with one line. */
  datatype LineAction = Write(text: string) | Drop | Fail(failure: Failure)

  /** The records copied unchanged. */
  predicate Copied(line: string)
  {
    StartsWith(line, "HETATM") || StartsWith(line, "HEADER") || StartsWith(line, "TITLE")
    || StartsWith(line, "REMARK")
  }

  /** The line with residue number `n` in columns 23-26, as `line[:22] + f"{n:4d}" + line[26:]`. */
  function RenumberedLine(line: string, n: int): string
    requires |line| >= 22
  {
    line[..22] + FormatInt(n, 4) + PySlice(line, 26, |line|)
  }

  /** One iteration of the PDB line loop of `extract_albumin_domain`. */
  function Classify(line: string, startRes: int, endRes: int): LineAction
  {
    if StartsWith(line, "ATOM") && |line| <= 21 then Fail(IndexOutOfRange)
    else if StartsWith(line, "ATOM") && line[21] == 'A' then
      var field := PySlice(line, 22, 26);
      match ParseInt(field)
      case None => Fail(InvalidLiteral(Strip(field)))
      case Some(r) =>
        if startRes <= r <= endRes then Write(RenumberedLine(line, r - startRes + 1)) else Drop
    else if Copied(line) then Write(line)
    else Drop
  }

  /**
   * The lines written for `lines`, and the exception that ended the loop if
   * one did; the lines written before it stay in the file.
   */
  function Extract(lines: seq<string>, startRes: int, endRes: int): (seq<string>, Option<Failure>)
  {
    if |lines| == 0 then ([], None)
    else
      var p := Extract(lines[..|lines| - 1], startRes, endRes);
      if p.1.Some? then p
      else match Classify(lines[|lines| - 1], startRes, endRes)
        case Write(t) => (p.0 + [t], None)
        case Drop => p
        case Fail(e) => (p.0, Some(e))
  }

  /** Once the loop has raised, later lines change nothing. */
  lemma {:induction false} ExtractStops(lines: seq<string>, i: nat, startRes: int, endRes: int)
    requires i <= |lines| && Extract(lines[..i], startRes, endRes).1.Some?
    ensures Extract(lines, startRes, endRes) == Extract(lines[..i], startRes, endRes)
    decreases |lines|
  {
    if i < |lines| {
      var init := lines[..|lines| - 1];
      assert init[..i] == lines[..i];
      ExtractStops(init, i, startRes, endRes);
    } else {
      assert lines[..i] == lines;
    }
  }

  /** The PDB line loop of `extract_albumin_domain`: the lines written, and the exception that ended it. */
  method ExtractPdbLines(pdbLines: seq<string>, startRes: int, endRes: int)
    returns (written: seq<string>, failure: Option<Failure>)
    ensures (written, failure) == Extract(pdbLines, startRes, endRes)
  {
    written := [];
    failure := None;
    for i := 0 to |pdbLines|
      invariant Extract(pdbLines[..i], startRes, endRes) == (written, None)
    {
      assert pdbLines[..i + 1][..i] == pdbLines[..i];
      var line := pdbLines[i];
      if StartsWith(line, "ATOM") && |line| <= 21 {
        failure := Some(IndexOutOfRange);
        ExtractStops(pdbLines, i + 1, startRes, endRes);
        return;
      }
      if StartsWith(line, "ATOM") && line[21] == 'A' {
        var field := PySlice(line, 22, 26);
        var resNum := ParseInt(field);
        if resNum.None? {
          failure := Some(InvalidLiteral(Strip(field)));
          ExtractStops(pdbLines, i + 1, startRes, endRes);
          return;
        }
        if startRes <= resNum.value <= endRes {
          var newResNum := resNum.value - startRes + 1;
          var newLine := line[..22] + FormatInt(newResNum, 4) + PySlice(line, 26, |line|);
          written := written + [newLine];
        }
      } else if StartsWith(line, "HETATM") {
        written := written + [line];
      } else if StartsWith(line, "HEADER") || StartsWith(line, "TITLE") || StartsWith(line, "REMARK") {
        written := written + [line];
      }
    }
    assert pdbLines[..|pdbLines|] == pdbLines;
  }

  /**
   * The loop streams: the lines written for two runs of input are those of
   * the first run followed, unless it raised, by those of the second.
   */
  lemma {:induction false} ExtractAppend(a: seq<string>, b: seq<string>, startRes: int, endRes: int)
    ensures var ea := Extract(a, startRes, endRes);
      var eb := Extract(b, startRes, endRes);
      Extract(a + b, startRes, endRes) == if ea.1.Some? then ea else (ea.0 + eb.0, eb.1)
    decreases |b|
  {
    var ea := Extract(a, startRes, endRes);
    if |b| == 0 {
      assert a + b == a;
      assert ea.0 + [] == ea.0;
    } else {
      var init := b[..|b| - 1];
      assert (a + b)[..|a + b| - 1] == a + init;
      assert (a + b)[|a + b| - 1] == b[|b| - 1];
      ExtractAppend(a, init, startRes, endRes);
      var ei := Extract(init, startRes, endRes);
      if ea.1.None? && ei.1.None? {
        match Classify(b[|b| - 1], startRes, endRes)
        case Write(t) =>
          assert (ea.0 + ei.0) + [t] == ea.0 + (ei.0 + [t]);
        case Drop =>
        case Fail(e) =>
      }
    }
  }

  /** The lines a chain-A ATOM record is written as: residue number from 1 up to `n`, columns 23-26. */
  predicate RenumberedAtom(t: string, n: int)
  {
    && StartsWith(t, "ATOM") && |t| >= 26 && t[21] == 'A'
    && exists r :: 1 <= r <= n && ParseInt(t[22..26]) == Some(r)
  }

  /**
   * A chain-A ATOM record whose residue number `r` lies in the range is
   * written with `r - start_res + 1`, at least 1, in columns 23-26 and every
   * other character unchanged.
   */
  lemma ClassifyRenumbers(line: string, startRes: int, endRes: int, r: int)
    requires StartsWith(line, "ATOM") && |line| >= 26 && line[21] == 'A'
    requires ParseInt(line[22..26]) == Some(r) && startRes <= r <= endRes
    requires r - startRes + 1 < 10000
    ensures Classify(line, startRes, endRes).Write?
    ensures var t := Classify(line, startRes, endRes).text;
      && |t| == |line| && t[..22] == line[..22] && t[26..] == line[26..]
      && ParseInt(t[22..26]) == Some(r - startRes + 1) && r - startRes + 1 >= 1
  {
    assert PySlice(line, 22, 26) == line[22..26];
    ClassifyInRange(line, startRes, endRes, r);
    RenumberedLineShape(line, r - startRes + 1);
    assert PySlice(line, 26, |line|) == line[26..];
  }

  /** A chain-A ATOM record whose residue number reads as `r` inside the range is renumbered. */
  lemma ClassifyInRange(line: string, startRes: int, endRes: int, r: int)
    requires StartsWith(line, "ATOM") && |line| > 21 && line[21] == 'A'
    requires ParseInt(PySlice(line, 22, 26)) == Some(r) && startRes <= r <= endRes
    ensures Classify(line, startRes, endRes) == Write(RenumberedLine(line, r - startRes + 1))
  {
  }

  /** Renumbering replaces columns 23-26 by the number, read back as it was given, and keeps the rest. */
  lemma RenumberedLineShape(line: string, n: nat)
    requires |line| >= 22 && n < 10000
    ensures var t := RenumberedLine(line, n);
      && |t| >= 26 && t[..22] == line[..22] && t[26..] == PySlice(line, 26, |line|)
      && ParseInt(t[22..26]) == Some(n)
  {
    FormatResidueWidth4(n);
    var t := RenumberedLine(line, n);
    assert t[22..26] == FormatInt(n, 4);
  }

  /**
   * Which lines are written: HETATM, HEADER, TITLE and REMARK records as they
   * are; chain-A ATOM records only inside the range; nothing else. An ATOM
   * record too short to have a chain column raises.
   */
  lemma ClassifyCases(line: string, startRes: int, endRes: int)
    ensures Copied(line) ==> Classify(line, startRes, endRes) == Write(line)
    ensures StartsWith(line, "ATOM") && |line| <= 21 ==> Classify(line, startRes, endRes) == Fail(IndexOutOfRange)
    ensures StartsWith(line, "ATOM") && |line| > 21 && line[21] != 'A' ==> Classify(line, startRes, endRes) == Drop
    ensures !StartsWith(line, "ATOM") && !Copied(line) ==> Classify(line, startRes, endRes) == Drop
    ensures StartsWith(line, "ATOM") && |line| > 21 && line[21] == 'A' ==>
              match ParseInt(PySlice(line, 22, 26))
              case None => Classify(line, startRes, endRes).Fail?
              case Some(r) => Classify(line, startRes, endRes).Write? <==> startRes <= r <= endRes
  {
    if Copied(line) {
      assert line[0] != 'A';
    }
  }

  /** A line written by one iteration is a copied record or a renumbered chain-A ATOM record. */
  lemma ClassifyWritten(line: string, startRes: int, endRes: int)
    requires endRes - startRes + 1 < 10000
    requires Classify(line, startRes, endRes).Write?
    ensures var t := Classify(line, startRes, endRes).text;
      (t == line && Copied(line)) || RenumberedAtom(t, endRes - startRes + 1)
  {
    if StartsWith(line, "ATOM") && line[21] == 'A' {
      var r := ParseInt(PySlice(line, 22, 26)).value;
      var n := r - startRes + 1;
      assert Classify(line, startRes, endRes) == Write(RenumberedLine(line, n));
      RenumberedLineShape(line, n);
      var t := RenumberedLine(line, n);
      assert t[21] == 'A' && t[..4] == line[..4];
    }
  }

  /**
   * Every line written is a copied HETATM, HEADER, TITLE or REMARK record of
   * the input, or a chain-A ATOM record renumbered into 1 to
   * `end_res - start_res + 1`.
   */
  lemma ExtractWritten(lines: seq<string>, startRes: int, endRes: int)
    requires endRes - startRes + 1 < 10000
    ensures var out := Extract(lines, startRes, endRes).0;
      forall k :: 0 <= k < |out| ==>
        (out[k] in lines && Copied(out[k])) || RenumberedAtom(out[k], endRes - startRes + 1)
  {
    var out := Extract(lines, startRes, endRes).0;
    forall k | 0 <= k < |out|
      ensures (out[k] in lines && Copied(out[k])) || RenumberedAtom(out[k], endRes - startRes + 1)
    {
      ExtractWrittenAt(lines, startRes, endRes, k);
    }
  }

  /** The `k`-th line written is a copied record of the input or a renumbered chain-A ATOM record. */
  lemma {:induction false} ExtractWrittenAt(lines: seq<string>, startRes: int, endRes: int, k: nat)
    requires endRes - startRes + 1 < 10000
    requires k < |Extract(lines, startRes, endRes).0|
    ensures var t := Extract(lines, startRes, endRes).0[k];
      (t in lines && Copied(t)) || RenumberedAtom(t, endRes - startRes + 1)
    decreases |lines|
  {
    var init := lines[..|lines| - 1];
    var last := lines[|lines| - 1];
    var p := Extract(init, startRes, endRes);
    var out := Extract(lines, startRes, endRes).0;
    if p.1.None? && Classify(last, startRes, endRes).Write? && k == |p.0| {
      assert out == p.0 + [Classify(last, startRes, endRes).text];
      ClassifyWritten(last, startRes, endRes);
    } else {
      assert out[k] == p.0[k] by {
        if p.1.None? {
          match Classify(last, startRes, endRes)
          case Write(t) => assert out == p.0 + [t];
          case Drop =>
          case Fail(e) =>
        }
      }
      ExtractWrittenAt(init, startRes, endRes, k);
      if p.0[k] in init {
        var j :| 0 <= j < |init| && init[j] == p.0[k];
        assert lines[j] == p.0[k];
      }
    }
  }

  /** The number of lines written never exceeds the number read. */
  lemma {:induction false} ExtractLength(lines: seq<string>, startRes: int, endRes: int)
    ensures |Extract(lines, startRes, endRes).0| <= |lines|
    decreases |lines|
  {
    if |lines| > 0 {
      ExtractLength(lines[..|lines| - 1], startRes, endRes);
    }
  }

  // ---------------------------------------------------------------------
  // The two files of extract_albumin_domain
  // ---------------------------------------------------------------------

  /**
   * `extract_albumin_domain`: what is written to the small FASTA file and to
   * the small PDB file, and the exception that ended the PDB loop if one did.
   */
  method ExtractAlbuminDomain(pdbLines: seq<string>, fastaLines: seq<string>, startRes: int, endRes: int)
    returns (fasta: seq<string>, pdb: seq<string>, failure: Option<Failure>)
    ensures fasta == FastaFile(FastaHeader(startRes, endRes),
                               SmallSequence(Sequence(fastaLines), startRes, endRes))
    ensures (pdb, failure) == Extract(pdbLines, startRes, endRes)
  {
    var sequence := ReadSequence(fastaLines);
    var smallSequence := PySlice(sequence, startRes - 1, endRes);
    fasta := [">small_albumin_domain_" + IntToStr(startRes) + "_" + IntToStr(endRes) + "\n",
              smallSequence + "\n"];
    pdb, failure := ExtractPdbLines(pdbLines, startRes, endRes);
  }

  // ---------------------------------------------------------------------
  // The built-in test proteins
  // ---------------------------------------------------------------------

  /** Human insulin, as `create_insulin_test` writes it, in blocks of ten residues. */
  const Insulin: string :=
    "GIVEQCCTSI" + "CSLYQLENYC" + "NFVNQHLCGS" + "HLVEALYLVC" + "GERGFFYTPK" + "T"

  /** Human ubiquitin, as `create_ubiquitin_test` writes it, in blocks of ten residues. */
  const Ubiquitin: string :=
    "MQIFVKTLTG" + "KTITLEVEPS" + "DTIENVKAKI" + "QDKEGIPPDQ" + "QRLIFAGKQL" + "EDGRTLSDYN"
    + "IQKESTLHLV" + "LRLRGG"

  /** The lines `create_insulin_test` writes. */
  function InsulinFasta(): seq<string>
  {
    FastaFile(">insulin_human\n", Insulin)
  }

  /** The lines `create_ubiquitin_test` writes. */
  function UbiquitinFasta(): seq<string>
  {
    FastaFile(">ubiquitin_human\n", Ubiquitin)
  }

  /** The insulin file holds a 51-residue sequence and reads back as it. */
  lemma InsulinTest()
    ensures |Insulin| == 51
    ensures Sequence(InsulinFasta()) == Insulin
  {
    assert Insulin[0] == 'G' && Insulin[50] == 'T';
    FastaRoundTrip(">insulin_human\n", Insulin);
  }

  /** The ubiquitin file holds a 76-residue sequence and reads back as it. */
  lemma UbiquitinTest()
    ensures |Ubiquitin| == 76
    ensures Sequence(UbiquitinFasta()) == Ubiquitin
  {
    assert Ubiquitin[0] == 'M' && Ubiquitin[75] == 'G';
    FastaRoundTrip(">ubiquitin_human\n", Ubiquitin);
  }
}
