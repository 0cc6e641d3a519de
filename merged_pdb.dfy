/**
 * Merging a protein and a surface into one PDB file for docking
 * (docking/scripts/make_merged_pdb.py).
 *
 * Atom records follow the fixed columns of the ATOM/HETATM records of the
 * wwPDB PDB format v3.3 (Coordinate Section). Coordinates, occupancy and
 * temperature factor are carried as their column text: their conversion to
 * floats and their `%8.3f`/`%6.2f` rendering are the parameter `numbers`.
 */
module MergedPdb {
  import opened TextUtil
  import opened SeqUtil

  /** `_is_atom`: the line starts with "ATOM  " or "HETATM". */
  predicate IsAtomLine(l: string)
  {
    StartsWith(l, "ATOM  ") || StartsWith(l, "HETATM")
  }

  /** Columns 31-66 as text: x, y, z, occupancy and temperature factor. */
  datatype Coords = Coords(x: string, y: string, z: string, occ: string, bfac: string)

  /** The dictionary `parse_atom` returns (the constant `charge` is left out). */
  datatype Atom = Atom(record: string, serial: int, atomName: string, resname: string, chain: string,
                       resseq: int, icode: string, coords: Coords, element: string)

  /** Python `s or default` for a string. */
  function OrElse(s: string, default: string): string
  {
    if s == [] then default else s
  }

  // ---------------------------------------------------------------------
  // infer_element and format_atom_name
  // ---------------------------------------------------------------------

  /** Python `s.title()` on two ASCII letters. */
  function Title2(a: string): string
    requires |a| >= 2
  {
    [UpperChar(a[0]), LowerChar(a[1])]
  }

  /** The atom name with one leading digit dropped when more characters follow. */
  function ElementStem(atomName: string): string
  {
    var a := Strip(atomName);
    if a != [] && IsDigit(a[0]) && |a| > 1 then a[1..] else a
  }

  /** Python `infer_element(atom_name)`: the element symbol guessed from an atom name. */
  function InferElement(atomName: string): (r: string)
    ensures |r| == 2
  {
    var a := ElementStem(atomName);
    if Strip(atomName) == [] then "  "
    else if |a| >= 2 && AllAlpha(a[..2]) && IsLowerChar(a[1]) then RJust(Title2(a), 2)
    else RJust([UpperChar(a[0])], 2)
  }

  /**
   * A blank name gives two spaces; a name whose stem starts with a letter and
   * a lower-case letter gives that capitalised pair; otherwise the stem's first
   * character, upper-cased, after a space.
   */
  lemma InferElementCases(atomName: string)
    ensures var a := ElementStem(atomName);
      var r := InferElement(atomName);
      && (Strip(atomName) == [] ==> r == "  ")
      && (Strip(atomName) != [] && |a| >= 2 && IsAlphaChar(a[0]) && IsLowerChar(a[1]) ==>
            r == [UpperChar(a[0]), a[1]] && IsUpperChar(r[0]) && IsLowerChar(r[1]))
      && (Strip(atomName) != [] && !(|a| >= 2 && IsAlphaChar(a[0]) && IsLowerChar(a[1])) ==>
            r == [' ', UpperChar(a[0])])
  {
    var a := ElementStem(atomName);
    if Strip(atomName) != [] && |a| >= 2 {
      assert AllAlpha(a[..2]) <==> IsAlphaChar(a[0]) && IsAlphaChar(a[1]) by {
        assert a[..2][0] == a[0] && a[..2][1] == a[1];
      }
    }
  }

  /** A hydrogen named with a leading digit is recognised as hydrogen. */
  lemma InferElementDigitHydrogen()
    ensures InferElement("1HB") == " H"
  {
    StripOfTrimmed("1HB");
    var a := ElementStem("1HB");
    assert a == "HB";
    InferElementCases("1HB");
  }

  /** A padded alpha-carbon name gives carbon, not calcium. */
  lemma InferElementAlphaCarbon()
    ensures InferElement(" CA ") == " C"
  {
    assert LStrip(" CA ") == "CA ";
    assert RStrip("CA ") == "CA";
    InferElementCases(" CA ");
  }

  /** A capitalised two-letter name gives that element. */
  lemma InferElementCalcium()
    ensures InferElement("Ca") == "Ca"
  {
    StripOfTrimmed("Ca");
    InferElementCases("Ca");
  }

  /** The stripped name is right-justified in 4 columns for a one-letter element unless it starts with a digit. */
  predicate RightAligned(atomName: string, element: string)
  {
    var name := Strip(atomName);
    |Strip(element)| == 1 && !(name != [] && IsDigit(name[0]))
  }

  /** Python `format_atom_name(atom_name, element)`. */
  function FormatAtomName(atomName: string, element: string): (r: string)
    ensures var name := Strip(atomName);
      && |r| == (if |name| >= 4 then |name| else 4)
      && |name| <= |r|
      && (RightAligned(atomName, element) ==> r == Spaces(|r| - |name|) + name)
      && (!RightAligned(atomName, element) ==> r == name + Spaces(|r| - |name|))
  {
    var name := Strip(atomName);
    if RightAligned(atomName, element) then RJust(name, 4) else LJust(name, 4)
  }

  // ---------------------------------------------------------------------
  // parse_atom
  // ---------------------------------------------------------------------

  /** `int(text or default)` over a stripped column: a blank column gives the default. */
  function ColumnInt(s: string, i: nat, j: nat, default: int): Option<int>
  {
    var t := Strip(PySlice(s, i, j));
    if t == [] then Some(default) else ParseInt(t)
  }

  /** The fixed-column reading applies: the serial and residue-number columns are blank or integers. */
  predicate FixedColumnsParse(s: string)
  {
    ColumnInt(s, 6, 11, 0).Some? && ColumnInt(s, 22, 26, 1).Some?
  }

  /** The fixed-column reading of `parse_atom`. */
  function FixedColumnAtom(s: string): Atom
    requires FixedColumnsParse(s)
  {
    var atomName := PySlice(s, 12, 16);
    Atom(PySlice(s, 0, 6), ColumnInt(s, 6, 11, 0).value, atomName,
         OrElse(Strip(PySlice(s, 17, 20)), "UNK"), OrElse(PySlice(s, 21, 22), "A"),
         ColumnInt(s, 22, 26, 1).value, OrElse(PySlice(s, 26, 27), " "),
         Coords(OrElse(Strip(PySlice(s, 30, 38)), "0.0"), OrElse(Strip(PySlice(s, 38, 46)), "0.0"),
                OrElse(Strip(PySlice(s, 46, 54)), "0.0"), OrElse(Strip(PySlice(s, 54, 60)), "1.00"),
                OrElse(Strip(PySlice(s, 60, 66)), "0.00")),
         OrElse(Strip(PySlice(s, 76, 78)), InferElement(atomName)))
  }

  /** Python `s.lstrip(c)` for one character. */
  function DropLeading(s: string, c: char): (r: string)
    ensures |r| <= |s| && forall i :: 0 <= i < |r| ==> r[i] == s[|s| - |r| + i]
  {
    if s != [] && s[0] == c then DropLeading(s[1..], c) else s
  }

  /** The i-th whitespace-separated field, or `default` when there are fewer. */
  function Field(t: seq<string>, i: nat, default: string): string
  {
    if |t| > i then t[i] else default
  }

  /**
   * The whitespace-split reading `parse_atom` falls back to. `Err` is the
   * `ValueError` of `int(t[5])` when `t[5]` passes `lstrip("-").isdigit()` but
   * is not an integer (two or more leading minus signs); it escapes the handler.
   */
  function FallbackAtom(s: string): Result<Atom, string>
    requires SplitWs(s) != []
  {
    var t := SplitWs(s);
    var serial := if |t| > 1 && AllDigits(t[1]) then DigitsValue(t[1]) else 0;
    var an := Field(t, 2, "X");
    var resseq := if |t| > 5 && AllDigits(DropLeading(t[5], '-')) then ParseInt(t[5]) else Some(1);
    if resseq.None? then Err("ValueError")
    else
      Ok(Atom(t[0], serial, an, Field(t, 3, "UNK"), Field(t, 4, "A"), resseq.value, " ",
              Coords(Field(t, 6, "0.0"), Field(t, 7, "0.0"), Field(t, 8, "0.0"), Field(t, 9, "1.00"), Field(t, 10, "0.00")),
              if |t| > 11 then Take(t[11], 2) else InferElement(an)))
  }

  /** A non-blank column means the line has a whitespace-separated field. */
  lemma NonBlankColumnSplits(s: string, i: nat, j: nat)
    requires Strip(PySlice(s, i, j)) != []
    ensures SplitWs(s) != []
  {
    var x := PySlice(s, i, j);
    var a := SliceIndex(i, |s|);
    var l := LStrip(x);
    LStripSuffix(x);
    assert x == s[a..SliceIndex(j, |s|)];
    assert l != [] && !IsSpace(l[0]);
    assert l[0] == s[a + |x| - |l|];
    assert !IsSpace(s[a + |x| - |l|]);
  }

  /** Python `parse_atom(line)`: the fixed columns, or the split fields when a number column is not an integer. */
  function ParseAtom(s: string): Result<Atom, string>
  {
    if FixedColumnsParse(s) then Ok(FixedColumnAtom(s))
    else
      var col := if ColumnInt(s, 6, 11, 0).None? then 6 else 22;
      NonBlankColumnSplits(s, col, col + (if col == 6 then 5 else 4));
      FallbackAtom(s)
  }

  /**
   * On the fixed-column path a blank residue name reads as "UNK", a blank
   * residue number as 1 and a blank serial as 0, and the line's first six
   * columns are the record.
   */
  lemma ParseAtomDefaults(s: string)
    requires FixedColumnsParse(s)
    ensures ParseAtom(s).Ok?
    ensures var a := ParseAtom(s).value;
      && a.record == PySlice(s, 0, 6)
      && (Strip(PySlice(s, 17, 20)) == [] ==> a.resname == "UNK")
      && (Strip(PySlice(s, 22, 26)) == [] ==> a.resseq == 1)
      && (Strip(PySlice(s, 6, 11)) == [] ==> a.serial == 0)
      && (|s| <= 21 ==> a.chain == "A")
      && (|s| > 21 ==> a.chain == [s[21]])
  {
    var a := FixedColumnAtom(s);
    assert ParseAtom(s) == Ok(a);
    ChainColumn(s);
  }

  /** Column 22, or "A" when the line is shorter. */
  lemma ChainColumn(s: string)
    ensures |s| <= 21 ==> OrElse(PySlice(s, 21, 22), "A") == "A"
    ensures |s| > 21 ==> OrElse(PySlice(s, 21, 22), "A") == [s[21]]
  {
  }

  /** A residue number that does not read as an integer sends the line to the split fields. */
  lemma ParseAtomFallsBack(s: string)
    requires Strip(PySlice(s, 22, 26)) != [] && ParseInt(Strip(PySlice(s, 22, 26))).None?
    ensures !FixedColumnsParse(s)
    ensures SplitWs(s) != [] && ParseAtom(s) == FallbackAtom(s)
  {
    NonBlankColumnSplits(s, 22, 26);
  }

  // ---------------------------------------------------------------------
  // read_atoms
  // ---------------------------------------------------------------------

  /** `_strip(raw)` then `parse_atom`, with the chain overwritten by `chain_id[:1]` when `chain_id` is not empty. */
  function ReadLine(raw: string, chainId: string): Result<Atom, string>
  {
    match ParseAtom(RStripChars(raw, {'\r', '\n'}))
    case Err(e) => Err(e)
    case Ok(a) => Ok(if chainId != "" then a.(chain := Take(chainId, 1)) else a)
  }

  /** The atoms of the atom lines of a file, in order; the first parse error ends the reading. */
  function AtomsOf(lines: seq<string>, chainId: string): Result<seq<Atom>, string>
  {
    if lines == [] then Ok([])
    else
      var prev := AtomsOf(lines[..|lines| - 1], chainId);
      var last := lines[|lines| - 1];
      if prev.Err? || !IsAtomLine(last) then prev
      else match ReadLine(last, chainId)
        case Err(e) => Err(e)
        case Ok(a) => Ok(prev.value + [a])
  }

  /** Python `read_atoms(path, chain_id)` over the file's lines. */
  method ReadAtoms(lines: seq<string>, chainId: string) returns (r: Result<seq<Atom>, string>)
    ensures r == AtomsOf(lines, chainId)
  {
    var out: seq<Atom> := [];
    for i := 0 to |lines|
      invariant AtomsOf(lines[..i], chainId) == Ok(out)
    {
      AtomsOfPrefix(lines, chainId, i);
      var raw := lines[i];
      if !IsAtomLine(raw) {
        continue;
      }
      var d := ParseAtom(RStripChars(raw, {'\r', '\n'}));
      if d.Err? {
        assert AtomsOf(lines[..i + 1], chainId).Err?;
        AtomsOfErrStays(lines, chainId, i + 1);
        assert lines[..|lines|] == lines;
        return Err(d.error);
      }
      var atom := d.value;
      if chainId != "" {
        atom := atom.(chain := Take(chainId, 1));
      }
      out := out + [atom];
    }
    assert lines[..|lines|] == lines;
    r := Ok(out);
  }

  /** Reading one line more: the line's atom is added when it is an atom line and reads. */
  lemma AtomsOfPrefix(lines: seq<string>, chainId: string, i: nat)
    requires i < |lines|
    ensures var prev := AtomsOf(lines[..i], chainId);
      AtomsOf(lines[..i + 1], chainId)
        == if prev.Err? || !IsAtomLine(lines[i]) then prev
           else match ReadLine(lines[i], chainId)
             case Err(e) => Err(e)
             case Ok(a) => Ok(prev.value + [a])
  {
    assert lines[..i + 1][..i] == lines[..i];
  }

  /** Once a line fails to parse, the reading of any longer prefix fails with the same error. */
  lemma {:induction false} AtomsOfErrStays(lines: seq<string>, chainId: string, k: nat)
    requires k <= |lines| && AtomsOf(lines[..k], chainId).Err?
    ensures AtomsOf(lines, chainId) == AtomsOf(lines[..k], chainId)
    decreases |lines| - k
  {
    if k < |lines| {
      assert lines[..k + 1][..k] == lines[..k];
      AtomsOfErrStays(lines, chainId, k + 1);
    } else {
      assert lines[..k] == lines;
    }
  }

  /** A successful reading has one atom per atom line, read from that line. */
  lemma {:induction false} AtomsOfAtomLines(lines: seq<string>, chainId: string)
    requires AtomsOf(lines, chainId).Ok?
    ensures var atoms := AtomsOf(lines, chainId).value;
      var picked := Filter(lines, IsAtomLine);
      && |atoms| == |picked|
      && (forall i :: 0 <= i < |atoms| ==> ReadLine(picked[i], chainId) == Ok(atoms[i]))
  {
    if lines != [] {
      AtomsOfAtomLines(lines[..|lines| - 1], chainId);
    }
  }

  /** A non-empty `chain_id` overwrites the chain of every atom read with its first character. */
  lemma AtomsOfChain(lines: seq<string>, chainId: string)
    requires AtomsOf(lines, chainId).Ok? && chainId != ""
    ensures var atoms := AtomsOf(lines, chainId).value;
      forall i :: 0 <= i < |atoms| ==> atoms[i].chain == [chainId[0]]
  {
    var atoms := AtomsOf(lines, chainId).value;
    var picked := Filter(lines, IsAtomLine);
    AtomsOfAtomLines(lines, chainId);
    forall i | 0 <= i < |atoms|
      ensures atoms[i].chain == [chainId[0]]
    {
      assert ReadLine(picked[i], chainId) == Ok(atoms[i]);
    }
  }

  // ---------------------------------------------------------------------
  // is_hydrogen and sanitize_protein
  // ---------------------------------------------------------------------

  /** Python `is_hydrogen(d)`: the element, or else the one inferred from the name, is H. */
  predicate IsHydrogen(a: Atom)
  {
    var el := Upper(Strip(a.element));
    (if el == [] then Upper(Strip(InferElement(a.atomName))) else el) == "H"
  }

  predicate NotHydrogen(a: Atom)
  {
    !IsHydrogen(a)
  }

  /** `a["record"].startswith("ATOM")`. */
  predicate IsAtomRecord(a: Atom)
  {
    StartsWith(a.record, "ATOM")
  }

  /** The key atoms are grouped by: chain, residue number, insertion code and residue name. */
  datatype ResKey = ResKey(chain: string, resseq: int, icode: string, resname: string)

  function KeyOf(a: Atom): ResKey
  {
    ResKey(a.chain, a.resseq, a.icode, a.resname)
  }

  /** `SIDECHAIN_TREE`: the atoms each side-chain atom hangs from. */
  const SidechainTree: map<string, seq<string>> :=
    map["CB" := [], "CG" := ["CB"], "OG" := ["CB"], "OG1" := ["CB"], "SG" := ["CB"],
        "CD" := ["CG"], "ND1" := ["CG"], "CD1" := ["CG"], "CD2" := ["CG"],
        "CE" := ["CD"], "NE" := ["CD"], "NE2" := ["CD"], "OE1" := ["CD"], "OE2" := ["CD"]]

  function Parents(n: string): seq<string>
  {
    if n in SidechainTree then SidechainTree[n] else []
  }

  /** The switches of `sanitize_protein`. */
  datatype Flags = Flags(stripH: bool, requireO: bool, requireCB: bool, pruneDangling: bool)

  /** Every atom of the residue whose parent atoms are in the tree has them present. */
  predicate NoDangling(names: set<string>)
  {
    forall n, p :: n in names && p in Parents(n) ==> p in names
  }

  /** The residue tests of `sanitize_protein`, on the set of stripped atom names. */
  predicate Complete(names: set<string>, resname: string, f: Flags)
  {
    && "N" in names && "CA" in names && "C" in names
    && (f.requireO ==> "O" in names)
    && (f.requireCB && resname != "GLY" ==> "CB" in names)
    && (f.pruneDangling ==> NoDangling(names))
  }

  /** The ATOM records of residue `k`, in order: `byres[k]`. */
  function InResidue(k: ResKey): Atom -> bool
  {
    a => IsAtomRecord(a) && KeyOf(a) == k
  }

  function Group(pool: seq<Atom>, k: ResKey): seq<Atom>
  {
    Filter(pool, InResidue(k))
  }

  /** The set of stripped atom names of a group. */
  function NamesOf(group: seq<Atom>): set<string>
  {
    set i | 0 <= i < |group| :: Strip(group[i].atomName)
  }

  /** An atom survives when it is an ATOM record of a complete residue of `pool`. */
  function KeepFn(pool: seq<Atom>, f: Flags): Atom -> bool
  {
    a => IsAtomRecord(a) && Complete(NamesOf(Group(pool, KeyOf(a))), KeyOf(a).resname, f)
  }

  /** The atoms left after hydrogen removal. */
  function Pool(atoms: seq<Atom>, f: Flags): seq<Atom>
  {
    if f.stripH then Filter(atoms, NotHydrogen) else atoms
  }

  /** What `sanitize_protein` returns. */
  function SanitizedProtein(atoms: seq<Atom>, f: Flags): seq<Atom>
  {
    Filter(Pool(atoms, f), KeepFn(Pool(atoms, f), f))
  }

  /** The dangling-side-chain scan with its `ok` flag. */
  method CheckDangling(names: set<string>) returns (ok: bool)
    ensures ok == NoDangling(names)
  {
    ok := true;
    var rest := names;
    while rest != {} && ok
      invariant rest <= names
      invariant ok == forall n, p :: n in names - rest && p in Parents(n) ==> p in names
      decreases rest
    {
      var n :| n in rest;
      var parent := Parents(n);
      var k := 0;
      while k < |parent| && ok
        invariant 0 <= k <= |parent|
        invariant ok == ((forall m, p :: m in names - rest && p in Parents(m) ==> p in names)
                         && forall j :: 0 <= j < k ==> parent[j] in names)
      {
        if parent[k] !in names {
          ok := false;
        }
        k := k + 1;
      }
      assert ok ==> forall p :: p in parent ==> p in names;
      rest := rest - {n};
    }
  }

  /** Python `sanitize_protein(atoms, strip_h, require_O, require_CB, prune_dangling)`. */
  method SanitizeProtein(atoms: seq<Atom>, f: Flags) returns (out: seq<Atom>)
    ensures out == SanitizedProtein(atoms, f)
  {
    var pool := atoms;
    if f.stripH {
      pool := Filter(atoms, NotHydrogen);
    }
    assert pool == Pool(atoms, f);
    var byres, order := GroupResidues(pool);
    var keepSet := KeptResidues(pool, f, byres, order);
    out := KeepAtoms(pool, f, keepSet);
  }

  /** The `keep` set: the residues, in `order`, that pass every test. */
  method KeptResidues(pool: seq<Atom>, f: Flags, byres: map<ResKey, seq<Atom>>, order: seq<ResKey>)
    returns (keepSet: set<ResKey>)
    requires forall k :: k in byres ==> byres[k] == Group(pool, k)
    requires forall k :: k in byres <==> k in order
    ensures forall k :: k in keepSet <==> k in order && Complete(NamesOf(Group(pool, k)), k.resname, f)
  {
    keepSet := {};
    for j := 0 to |order|
      invariant forall k :: k in keepSet <==> k in order[..j] && Complete(NamesOf(Group(pool, k)), k.resname, f)
    {
      var key := order[j];
      TakeSnoc(order, j);
      var names := NamesOf(byres[key]);
      if !("N" in names && "CA" in names && "C" in names) {
        continue;
      }
      if f.requireO && "O" !in names {
        continue;
      }
      if f.requireCB && key.resname != "GLY" && "CB" !in names {
        continue;
      }
      if f.pruneDangling {
        var ok := CheckDangling(names);
        if !ok {
          continue;
        }
      }
      keepSet := keepSet + {key};
    }
    assert order[..|order|] == order;
  }

  /** The final list comprehension: the ATOM records whose residue is kept. */
  method KeepAtoms(pool: seq<Atom>, f: Flags, keepSet: set<ResKey>) returns (out: seq<Atom>)
    requires forall k :: k in keepSet <==> Group(pool, k) != [] && Complete(NamesOf(Group(pool, k)), k.resname, f)
    ensures out == Filter(pool, KeepFn(pool, f))
  {
    out := [];
    for i := 0 to |pool|
      invariant out == Filter(pool[..i], KeepFn(pool, f))
    {
      assert pool[..i + 1][..i] == pool[..i];
      var a := pool[i];
      if IsAtomRecord(a) {
        ResidueOfAtom(pool, i);
      }
      if IsAtomRecord(a) && KeyOf(a) in keepSet {
        out := out + [a];
      }
    }
    assert pool[..|pool|] == pool;
  }

  /** The ATOM record at position `i` belongs to a non-empty group. */
  lemma ResidueOfAtom(pool: seq<Atom>, i: nat)
    requires i < |pool| && IsAtomRecord(pool[i])
    ensures Group(pool, KeyOf(pool[i])) != []
  {
    FilterMembers(pool, InResidue(KeyOf(pool[i])));
    assert pool[i] in Group(pool, KeyOf(pool[i]));
  }

  /** The `byres` dictionary and its keys in first-appearance order. */
  method GroupResidues(pool: seq<Atom>) returns (byres: map<ResKey, seq<Atom>>, order: seq<ResKey>)
    ensures forall k :: k in byres <==> Group(pool, k) != []
    ensures forall k :: k in byres ==> byres[k] == Group(pool, k)
    ensures forall k :: k in byres <==> k in order
  {
    byres := map[];
    order := [];
    for i := 0 to |pool|
      invariant forall k :: k in byres <==> Group(pool[..i], k) != []
      invariant forall k :: k in byres ==> byres[k] == Group(pool[..i], k)
      invariant forall k :: k in byres <==> k in order
    {
      var a := pool[i];
      assert pool[..i + 1][..i] == pool[..i];
      assert forall k :: Group(pool[..i + 1], k) == Group(pool[..i], k) + (if InResidue(k)(a) then [a] else []);
      if IsAtomRecord(a) {
        var key := KeyOf(a);
        if key in byres {
          byres := byres[key := byres[key] + [a]];
        } else {
          byres := byres[key := [a]];
          order := order + [key];
        }
      }
    }
    assert pool[..|pool|] == pool;
  }

  /** The output keeps the input's order and drops atoms only. */
  lemma SanitizeIsSubsequence(atoms: seq<Atom>, f: Flags)
    ensures SubsequenceOf(SanitizedProtein(atoms, f), atoms)
  {
    var pool := Pool(atoms, f);
    var keep := KeepFn(pool, f);
    if f.stripH {
      var both := (a: Atom) => NotHydrogen(a) && keep(a);
      FilterFilter(atoms, NotHydrogen, keep, both);
      FilterIsSubsequence(atoms, both);
    } else {
      FilterIsSubsequence(atoms, keep);
    }
  }

  /**
   * Only ATOM records are kept, no hydrogens when `strip_h`, and every kept
   * atom's residue has N, CA and C, O when required, CB when required and not
   * glycine, and no side-chain atom without its parent.
   */
  lemma SanitizeKeepsCompleteResidues(atoms: seq<Atom>, f: Flags, a: Atom)
    requires a in SanitizedProtein(atoms, f)
    ensures IsAtomRecord(a) && a in atoms
    ensures f.stripH ==> !IsHydrogen(a)
    ensures var names := NamesOf(Group(Pool(atoms, f), KeyOf(a)));
      && "N" in names && "CA" in names && "C" in names
      && (f.requireO ==> "O" in names)
      && (f.requireCB && a.resname != "GLY" ==> "CB" in names)
      && (f.pruneDangling ==> NoDangling(names))
  {
    var pool := Pool(atoms, f);
    FilterMembers(pool, KeepFn(pool, f));
    if f.stripH {
      FilterMembers(atoms, NotHydrogen);
    }
  }

  /** Residues are kept or dropped whole: two ATOM records of the same residue share their fate. */
  lemma SanitizeKeepsWholeResidues(atoms: seq<Atom>, f: Flags, a: Atom, b: Atom)
    requires a in Pool(atoms, f) && b in Pool(atoms, f)
    requires IsAtomRecord(a) && IsAtomRecord(b) && KeyOf(a) == KeyOf(b)
    ensures a in SanitizedProtein(atoms, f) <==> b in SanitizedProtein(atoms, f)
  {
    var pool := Pool(atoms, f);
    FilterMembers(pool, KeepFn(pool, f));
  }

  /** A residue that passes every test keeps all its ATOM records. */
  lemma SanitizeKeepsCompleteResidue(atoms: seq<Atom>, f: Flags, a: Atom)
    requires a in Pool(atoms, f) && IsAtomRecord(a)
    requires Complete(NamesOf(Group(Pool(atoms, f), KeyOf(a))), a.resname, f)
    ensures a in SanitizedProtein(atoms, f)
  {
    var pool := Pool(atoms, f);
    FilterMembers(pool, KeepFn(pool, f));
  }

  // ---------------------------------------------------------------------
  // sanitize_surface, fmt_atom and serialise
  // ---------------------------------------------------------------------

  predicate IsCal(a: Atom)
  {
    Upper(Strip(a.resname)) == "CAL"
  }

  /** Python `sanitize_surface(atoms, cal_only)`. */
  function SanitizeSurface(atoms: seq<Atom>, calOnly: bool): seq<Atom>
  {
    if !calOnly then atoms else Filter(atoms, IsCal)
  }

  /** With `cal_only`, exactly the calcium atoms are kept, in their order; otherwise all atoms. */
  lemma SanitizeSurfaceKeepsCalcium(atoms: seq<Atom>, calOnly: bool)
    ensures !calOnly ==> SanitizeSurface(atoms, calOnly) == atoms
    ensures calOnly ==> SubsequenceOf(SanitizeSurface(atoms, calOnly), atoms)
    ensures calOnly ==> forall a :: a in SanitizeSurface(atoms, calOnly) <==> a in atoms && IsCal(a)
  {
    if calOnly {
      FilterIsSubsequence(atoms, IsCal);
      FilterMembers(atoms, IsCal);
    }
  }

  /** The element column of `fmt_atom`: the element, or else the one inferred from the name, at most two characters. */
  function ElementColumn(a: Atom): string
  {
    Take(OrElse(Strip(a.element), Strip(InferElement(a.atomName))), 2)
  }

  /**
   * The columns of `fmt_atom` after the serial: name, residue name, chain,
   * residue number and insertion code, the numeric columns as `numbers`
   * renders them, then the element.
   */
  function AtomLineRest(a: Atom, numbers: Coords -> string): string
  {
    " " + FormatAtomName(Strip(a.atomName), ElementColumn(a)) + " " + RJust(Take(a.resname, 3), 3) + " "
    + OrElse(Take(a.chain, 1), "A") + FormatInt(a.resseq, 4) + Take(OrElse(a.icode, " "), 1) + "   "
    + numbers(a.coords) + "          " + RJust(ElementColumn(a), 2) + "  "
  }

  /** Python `fmt_atom(d, serial)`: one fixed-column atom line. */
  function FmtAtom(a: Atom, serial: int, numbers: Coords -> string): string
  {
    Take(a.record, 6) + FormatInt(serial, 5) + AtomLineRest(a, numbers)
  }

  /**
   * For a record of six or more characters and a serial of at most five
   * digits, the line carries the record in columns 1-6 and the serial,
   * right-justified, in columns 7-11, where `int()` reads it back.
   */
  lemma FmtAtomSerialColumns(a: Atom, serial: nat, numbers: Coords -> string)
    requires |a.record| >= 6 && serial < 100000
    ensures var line := FmtAtom(a, serial, numbers);
      |line| >= 11 && line[..6] == a.record[..6] && line[6..11] == FormatInt(serial, 5)
      && ParseInt(line[6..11]) == Some(serial)
  {
    FormatSerialWidth5(serial);
    HeadColumns(Take(a.record, 6), FormatInt(serial, 5), AtomLineRest(a, numbers));
  }

  /** Columns 1-6 and 7-11 of a line that starts with a six- and a five-character field. */
  lemma HeadColumns(record: string, serial: string, rest: string)
    requires |record| == 6 && |serial| == 5
    ensures var line := record + serial + rest;
      |line| >= 11 && line[..6] == record && line[6..11] == serial
  {
    var line := record + serial + rest;
    assert line[..6] == record;
    assert line[6..11] == serial;
  }

  // ---------------------------------------------------------------------
  // serialise and merge
  // ---------------------------------------------------------------------

  /** A line of the merged file: an atom with the serial it is written with, TER or END. */
  datatype FileLine = AtomRecord(atom: Atom, serial: int) | Ter | End

  /** The text written for a line. */
  function Text(l: FileLine, numbers: Coords -> string): string
  {
    match l
    case AtomRecord(a, serial) => FmtAtom(a, serial, numbers)
    case Ter => "TER"
    case End => "END"
  }

  /**
   * Python `serialise(atoms, start)`: one line per atom, in order, serials
   * counting up from `start`.
   */
  method Serialise(atoms: seq<Atom>, start: int) returns (out: seq<FileLine>)
    ensures |out| == |atoms|
    ensures forall i :: 0 <= i < |atoms| ==> out[i] == AtomRecord(atoms[i], start + i)
  {
    out := [];
    var s := start;
    for i := 0 to |atoms|
      invariant s == start + i && |out| == i
      invariant forall j :: 0 <= j < i ==> out[j] == AtomRecord(atoms[j], start + j)
    {
      out := out + [AtomRecord(atoms[i], s)];
      s := s + 1;
    }
  }

  /** The lines of `serialise(atoms, start)`. */
  function SerialLines(atoms: seq<Atom>, start: int): (r: seq<FileLine>)
    ensures |r| == |atoms|
    ensures forall i :: 0 <= i < |atoms| ==> r[i] == AtomRecord(atoms[i], start + i)
  {
    seq(|atoms|, i requires 0 <= i < |atoms| => AtomRecord(atoms[i], start + i))
  }

  /** Any list of lines numbered like `serialise`'s output is that output. */
  lemma SerialLinesUnique(out: seq<FileLine>, atoms: seq<Atom>, start: int)
    requires |out| == |atoms|
    requires forall i :: 0 <= i < |atoms| ==> out[i] == AtomRecord(atoms[i], start + i)
    ensures out == SerialLines(atoms, start)
  {
  }

  /** The atom lines, with TER after the first `split` of them when given, then END. */
  function WithTerAndEnd(lines: seq<FileLine>, split: Option<nat>): seq<FileLine>
    requires split.Some? ==> split.value <= |lines|
  {
    (if split.Some? then lines[..split.value] + [Ter] + lines[split.value..] else lines) + [End]
  }

  /** The writing loop of `merge`. */
  method WriteLines(lines: seq<FileLine>, split: Option<nat>) returns (out: seq<FileLine>)
    requires split.Some? ==> 1 <= split.value <= |lines|
    ensures out == WithTerAndEnd(lines, split)
  {
    out := [];
    if split.Some? {
      for i := 0 to |lines|
        invariant out == if i < split.value then lines[..i] else lines[..split.value] + [Ter] + lines[split.value..i]
      {
        out := out + [lines[i]];
        if i + 1 == split.value {
          out := out + [Ter];
        }
      }
      assert lines[split.value..|lines|] == lines[split.value..];
    } else {
      for i := 0 to |lines|
        invariant out == lines[..i]
      {
        out := out + [lines[i]];
      }
      assert lines[..|lines|] == lines;
    }
    out := out + [End];
  }

  /** The inputs of `merge`; a file that is not given is `None`. */
  datatype MergeArgs = MergeArgs(protein: Option<seq<string>>, surface: Option<seq<string>>,
                                 proteinChain: string, surfaceChain: string, order: string,
                                 serialStart: int, addTer: bool, calOnly: bool)

  /** The protein and surface blocks after sanitising, or the first parse error. */
  function Blocks(args: MergeArgs): Result<(seq<Atom>, seq<Atom>), string>
  {
    var p := if args.protein.Some? then AtomsOf(args.protein.value, args.proteinChain) else Ok([]);
    var s := if args.surface.Some? then AtomsOf(args.surface.value, args.surfaceChain) else Ok([]);
    if p.Err? then Err(p.error)
    else if s.Err? then Err(s.error)
    else Ok((SanitizedProtein(p.value, Flags(true, true, true, true)), SanitizeSurface(s.value, args.calOnly)))
  }

  /** Surface first for "surface-protein", protein first otherwise. */
  function Ordered(args: MergeArgs, prot: seq<Atom>, surf: seq<Atom>): seq<Atom>
  {
    if args.order == "surface-protein" then surf + prot else prot + surf
  }

  /** Where the TER goes: after the first block, when asked for and both blocks have atoms. */
  function TerSplit(args: MergeArgs, prot: seq<Atom>, surf: seq<Atom>): Option<nat>
  {
    if args.addTer && prot != [] && surf != [] then
      Some(if args.order == "surface-protein" then |surf| else |prot|)
    else None
  }

  /** The lines written for the sanitised blocks. */
  function Layout(args: MergeArgs, prot: seq<Atom>, surf: seq<Atom>): seq<FileLine>
  {
    WithTerAndEnd(SerialLines(Ordered(args, prot, surf), args.serialStart), TerSplit(args, prot, surf))
  }

  /** The lines `merge` writes to the output file. */
  function MergedFile(args: MergeArgs): Result<seq<FileLine>, string>
  {
    match Blocks(args)
    case Err(e) => Err(e)
    case Ok(b) => Ok(Layout(args, b.0, b.1))
  }

  /** `read_atoms` of a file that is given; no atoms otherwise. */
  method ReadBlock(file: Option<seq<string>>, chainId: string) returns (r: Result<seq<Atom>, string>)
    ensures r == if file.Some? then AtomsOf(file.value, chainId) else Ok([])
  {
    r := Ok([]);
    if file.Some? {
      r := ReadAtoms(file.value, chainId);
    }
  }

  /** The reading and sanitising half of Python `merge(...)`: both blocks, or the first error. */
  method ReadAndSanitise(args: MergeArgs) returns (r: Result<(seq<Atom>, seq<Atom>), string>)
    ensures r == Blocks(args)
  {
    var rp := ReadBlock(args.protein, args.proteinChain);
    if rp.Err? {
      return Err(rp.error);
    }
    var rs := ReadBlock(args.surface, args.surfaceChain);
    if rs.Err? {
      return Err(rs.error);
    }
    var prot := rp.value;
    var surf := rs.value;
    if prot != [] {
      prot := SanitizeProtein(prot, Flags(true, true, true, true));
    } else {
      assert SanitizedProtein(prot, Flags(true, true, true, true)) == [];
    }
    if surf != [] {
      surf := SanitizeSurface(surf, args.calOnly);
    }
    r := Ok((prot, surf));
  }

  /** The writing half of Python `merge(...)`: order the blocks, number them, add TER and END. */
  method WriteMerged(args: MergeArgs, prot: seq<Atom>, surf: seq<Atom>) returns (out: seq<FileLine>)
    ensures out == Layout(args, prot, surf)
  {
    var merged := if args.order == "surface-protein" then surf + prot else prot + surf;
    var lines := Serialise(merged, args.serialStart);
    SerialLinesUnique(lines, merged, args.serialStart);
    var split: Option<nat> := None;
    if args.addTer && prot != [] && surf != [] {
      split := Some(if args.order == "surface-protein" then |surf| else |prot|);
    }
    out := WriteLines(lines, split);
  }

  /** Python `merge(...)`: read, sanitise, order, serialise and write. */
  method Merge(args: MergeArgs) returns (r: Result<seq<FileLine>, string>)
    ensures r == MergedFile(args)
  {
    var blocks := ReadAndSanitise(args);
    if blocks.Err? {
      return Err(blocks.error);
    }
    var out := WriteMerged(args, blocks.value.0, blocks.value.1);
    r := Ok(out);
  }

  /**
   * The lines with TER and END: END last, TER exactly at the split, and every
   * line at its place, one further on past the split.
   */
  lemma TerAndEndLayout(lines: seq<FileLine>, split: Option<nat>)
    requires split.Some? ==> split.value <= |lines|
    requires forall i :: 0 <= i < |lines| ==> lines[i].AtomRecord?
    ensures var out := WithTerAndEnd(lines, split);
      && |out| == |lines| + (if split.Some? then 2 else 1)
      && out[|out| - 1] == End
      && (forall i :: 0 <= i < |out| - 1 ==> (out[i] == Ter <==> split.Some? && i == split.value))
      && (forall i :: 0 <= i < |lines| ==> out[if split.Some? && i >= split.value then i + 1 else i] == lines[i])
  {
    var out := WithTerAndEnd(lines, split);
    if split.Some? {
      var k := split.value;
      forall i | 0 <= i < |out| - 1
        ensures out[i] == Ter <==> i == k
      {
        if i < k {
          assert out[i] == lines[i];
        } else if i > k {
          assert out[i] == lines[i - 1];
        }
      }
    }
  }

  /**
   * The merged file ends with END; its atom lines are the first block then the
   * second, numbered consecutively from `serial_start`; a TER line appears
   * only right after the first block, and there exactly when `add_ter` is set
   * and both blocks have atoms.
   */
  lemma MergedFileLayout(args: MergeArgs)
    requires MergedFile(args).Ok?
    ensures var out := MergedFile(args).value;
      var b := Blocks(args).value;
      var atoms := Ordered(args, b.0, b.1);
      var split := TerSplit(args, b.0, b.1);
      && |out| == |atoms| + (if split.Some? then 2 else 1)
      && out[|out| - 1] == End
      && (forall i :: 0 <= i < |out| - 1 ==> (out[i] == Ter <==> split.Some? && i == split.value))
      && (forall i :: 0 <= i < |atoms| ==>
            out[if split.Some? && i >= split.value then i + 1 else i] == AtomRecord(atoms[i], args.serialStart + i))
  {
    var b := Blocks(args).value;
    TerAndEndLayout(SerialLines(Ordered(args, b.0, b.1), args.serialStart), TerSplit(args, b.0, b.1));
  }
}
