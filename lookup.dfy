/** Queries on the catalog (smalljac/STgroups.c lines 109-189): naming a group by its index,
    reporting a group's structural data and reference moments, and looking up the group whose
    signature the printed statistics spell. */
module Lookup {
  import opened Format
  import opened Catalog
  import opened CatalogFacts

  datatype Option<T> = None | Some(value: T)

  /** The genera the catalog covers. */
  predicate Supported(genus: int) {
    genus == 1 || genus == 2
  }

  /** Number of rows in the table of a genus, 0 for an unsupported genus. */
  function GroupCount(genus: int): nat {
    if genus == 1 then G1Groups else if genus == 2 then G2Groups else 0
  }

  /** The two string columns the lookups search with strcmp. */
  datatype Column = GroupColumn | SigColumn

  function Cell(genus: int, col: Column, i: int): string
    requires Supported(genus) && 0 <= i < GroupCount(genus)
  {
    match col
    case GroupColumn => if genus == 1 then G1Group(i) else G2Group(i)
    case SigColumn => if genus == 1 then G1Sig(i) else G2Sig(i)
  }

  /** The index at which the loop `for (i = from; i < SIZE; i++) if (strcmp(...) == 0) break;`
      stops: the first row at or after `from` whose cell is `text`, or the row count when
      there is none. */
  function FirstRowFrom(genus: int, col: Column, text: string, from: int): (r: int)
    requires Supported(genus) && 0 <= from <= GroupCount(genus)
    ensures from <= r <= GroupCount(genus)
    ensures r < GroupCount(genus) ==> Cell(genus, col, r) == text
    ensures forall j | from <= j < r :: Cell(genus, col, j) != text
    decreases GroupCount(genus) - from
  {
    if from == GroupCount(genus) then from
    else if Cell(genus, col, from) == text then from
    else FirstRowFrom(genus, col, text, from + 1)
  }

  function FirstRow(genus: int, col: Column, text: string): int
    requires Supported(genus)
  {
    FirstRowFrom(genus, col, text, 0)
  }

  /** The search loop shared by smalljac_STgroup_info and the two signature lookups. */
  method SearchColumn(genus: int, col: Column, text: string) returns (i: int)
    requires Supported(genus)
    ensures i == FirstRow(genus, col, text)
  {
    i := 0;
    while i < GroupCount(genus)
      invariant 0 <= i <= GroupCount(genus)
      invariant FirstRowFrom(genus, col, text, i) == FirstRow(genus, col, text)
    {
      if Cell(genus, col, i) == text {
        break;
      }
      i := i + 1;
    }
  }

  /** No two rows of a table share a name or a signature text. */
  lemma CellsDistinct(genus: int, col: Column, i: int, j: int)
    requires Supported(genus) && 0 <= i < GroupCount(genus) && 0 <= j < GroupCount(genus)
    requires i != j
    ensures Cell(genus, col, i) != Cell(genus, col, j)
  {
    if genus == 1 {
      G1Distinct();
      if col == SigColumn {
        G1SigsDistinct(i, j);
      }
    } else if col == GroupColumn {
      G2NamesDistinct();
    } else {
      G2SigsDistinct(i, j);
    }
  }

  lemma G1SigsDistinct(i: int, j: int)
    requires 0 <= i < G1Groups && 0 <= j < G1Groups && i != j
    ensures G1Sig(i) != G1Sig(j)
  {
    G1Distinct();
    G1RowsWellFormed();
    if G1Sig(i) == G1Sig(j) {
      G1SigTextInjective(G1SigTuple(i), G1SigTuple(j));
    }
  }

  lemma G2SigsDistinct(i: int, j: int)
    requires 0 <= i < G2Groups && 0 <= j < G2Groups && i != j
    ensures G2Sig(i) != G2Sig(j)
  {
    G2TuplesDistinct();
    G2SigTextExact();
    G2SigTextsDistinct(G2SigTuple(i), G2SigTuple(j));
  }

  /** Different tuples print differently (the contrapositive of G2SigTextInjective). */
  lemma G2SigTextsDistinct(t: G2Tuple, u: G2Tuple)
    requires t != u
    ensures G2SigText(t) != G2SigText(u)
  {
    if G2SigText(t) == G2SigText(u) {
      G2SigTextInjective(t, u);
    }
  }

  /** Searching a column for the cell of row i finds row i. */
  lemma FirstRowOfCell(genus: int, col: Column, i: int)
    requires Supported(genus) && 0 <= i < GroupCount(genus)
    ensures FirstRow(genus, col, Cell(genus, col, i)) == i
  {
    forall j | 0 <= j < i
      ensures Cell(genus, col, j) != Cell(genus, col, i)
    {
      CellsDistinct(genus, col, j, i);
    }
  }

  // ---------------------------------------------------------------------------------------
  // smalljac_STgroup

  /** The name of the group with a given index, with the bound check the table needs
      (0 <= index < SIZE). */
  function STGroup(genus: int, index: int): (r: Option<string>)
    ensures r.Some? <==> Supported(genus) && 0 <= index < GroupCount(genus)
  {
    if Supported(genus) && 0 <= index < GroupCount(genus) then Some(Cell(genus, GroupColumn, index))
    else None
  }

  /** Naming a group by index and looking a name up are inverse: index names `name` exactly
      when `name` is found and found at that index. */
  lemma STGroupInverse(genus: int, index: int, name: string)
    requires Supported(genus)
    ensures STGroup(genus, index) == Some(name) <==>
            0 <= index < GroupCount(genus) && FirstRow(genus, GroupColumn, name) == index
  {
    if STGroup(genus, index) == Some(name) {
      FirstRowOfCell(genus, GroupColumn, index);
    }
  }

  /** What smalljac_STgroup does as written. */
  datatype CopyOutcome = Refused | Copied(group: string) | ReadPastEnd

  /** smalljac_STgroup as written: it refuses only index < 0 and index > SIZE, so
      index == SIZE copies the name of the entry one past the end of the table. */
  function STGroupAsWritten(genus: int, index: int): (r: CopyOutcome)
    ensures r == ReadPastEnd <==> Supported(genus) && index == GroupCount(genus)
    ensures r.Copied? ==> STGroup(genus, index) == Some(r.group)
  {
    if !Supported(genus) || index < 0 || index > GroupCount(genus) then Refused
    else if index == GroupCount(genus) then ReadPastEnd
    else Copied(Cell(genus, GroupColumn, index))
  }

  /** The inputs that show the defect: index 3 in genus 1 and index 52 in genus 2. */
  lemma STGroupAsWrittenReadsPastEnd()
    ensures STGroupAsWritten(1, 3) == ReadPastEnd && STGroup(1, 3) == None
    ensures STGroupAsWritten(2, 52) == ReadPastEnd && STGroup(2, 52) == None
  {
  }

  /** On every other input the code as written and the corrected function agree. */
  lemma STGroupAsWrittenAgrees(genus: int, index: int)
    requires !(Supported(genus) && index == GroupCount(genus))
    ensures STGroupAsWritten(genus, index) ==
            (if STGroup(genus, index).Some? then Copied(STGroup(genus, index).value) else Refused)
  {
  }

  // ---------------------------------------------------------------------------------------
  // smalljac_STgroup_info

  function IdentityComponent(genus: int, i: int): string
    requires Supported(genus) && 0 <= i < GroupCount(genus)
  {
    if genus == 1 then G1IdentityComponent(i) else G2IdentityComponent(i)
  }

  function ComponentGroup(genus: int, i: int): string
    requires Supported(genus) && 0 <= i < GroupCount(genus)
  {
    if genus == 1 then G1ComponentGroup(i) else G2ComponentGroup(i)
  }

  function Components(genus: int, i: int): int
    requires Supported(genus) && 0 <= i < GroupCount(genus)
  {
    if genus == 1 then G1Components(i) else G2Components(i)
  }

  /** The entries smalljac_STgroup_info writes at the start of z[] for row i: the z1 tag
      when n >= 1, followed by the five z2 tags when n >= 2 (genus 2 only). */
  function ZWritten(genus: int, i: int, n: int): (w: seq<int>)
    requires Supported(genus) && 0 <= i < GroupCount(genus) && n <= genus
    ensures |w| == ZSlots(genus, n)
  {
    G2Shape();
    if n < 1 then []
    else if genus == 1 then [G1Z1(i)]
    else [G2Z1(i)] + (if n == 2 then G2Z2(i) else [])
  }

  /** The entries smalljac_STgroup_info writes at the start of moments[] for row i: the
      first m moments of a1 when n >= 1, followed by the first m moments of a2 when n >= 2
      (genus 2 only). */
  function MomentsWritten(genus: int, i: int, n: int, m: int): (w: seq<int>)
    requires Supported(genus) && 0 <= i < GroupCount(genus) && n <= genus
    requires 0 <= m <= MaxMoment + 1
    ensures |w| == MomentSlots(genus, n, m)
  {
    G1RowsWellFormed();
    G2Shape();
    if n < 1 then []
    else if genus == 1 then G1A1Moments(i)[..m]
    else G2A1Moments(i)[..m] + (if n == 2 then G2A2Moments(i)[..m] else [])
  }

  /** Room the caller must provide in z[]. */
  function ZSlots(genus: int, n: int): nat {
    if Supported(genus) && 1 <= n <= genus then (if n == 2 then 6 else 1) else 0
  }

  /** Room the caller must provide in moments[]. */
  function MomentSlots(genus: int, n: int, m: int): nat {
    if Supported(genus) && 1 <= n <= genus && 0 <= m <= MaxMoment + 1 then n * m else 0
  }

  /** s with its first |w| entries replaced by w. */
  function Overlay(w: seq<int>, s: seq<int>): (r: seq<int>)
    requires |w| <= |s|
    ensures |r| == |s| && r[..|w|] == w && r[|w|..] == s[|w|..]
  {
    w + s[|w|..]
  }

  /** memcpy (a, w, |w| * sizeof(a[0])): the first |w| entries of a become w. */
  method CopyInto(a: array<int>, w: seq<int>)
    requires |w| <= a.Length
    modifies a
    ensures a[..] == Overlay(w, old(a[..]))
  {
    var k := 0;
    while k < |w|
      invariant 0 <= k <= |w|
      invariant forall j | 0 <= j < a.Length :: a[j] == if j < k then w[j] else old(a[j])
    {
      a[k] := w[k];
      k := k + 1;
    }
    assert forall j | 0 <= j < a.Length :: a[..][j] == Overlay(w, old(a[..]))[j];
  }

  /** smalljac_STgroup_info: looks up `group` in the table of `genus` and reports its
      identity component, component group and number of components; when 1 <= n it writes
      the z tags of a1 (and of a2 when n = 2) into z[] and the first m moments of a1 (and of
      a2 after them, when n = 2) into moments[]. A null z[] or moments[] is skipped. It
      fails, writing nothing, when n > genus, when m lies outside 0..MaxMoment+1, when the
      genus is not 1 or 2, or when the name is not in the table. */
  method STGroupInfo(genus: int, group: string, z: array?<int>, moments: array?<int>, n: int, m: int)
    returns (ok: bool, identityComponent: string, componentGroup: string, components: int)
    requires z != null ==> z.Length >= ZSlots(genus, n)
    requires moments != null ==> moments.Length >= MomentSlots(genus, n, m)
    requires z == null || z != moments
    modifies z, moments
    ensures ok <==> n <= genus && 0 <= m <= MaxMoment + 1 && Supported(genus) &&
                    FirstRow(genus, GroupColumn, group) < GroupCount(genus)
    ensures ok ==>
      var i := FirstRow(genus, GroupColumn, group);
      Cell(genus, GroupColumn, i) == group &&
      identityComponent == IdentityComponent(genus, i) &&
      componentGroup == ComponentGroup(genus, i) && components == Components(genus, i) &&
      (z != null ==> z[..] == Overlay(ZWritten(genus, i, n), old(z[..]))) &&
      (moments != null ==> moments[..] == Overlay(MomentsWritten(genus, i, n, m), old(moments[..])))
    ensures !ok ==> (z != null ==> z[..] == old(z[..])) && (moments != null ==> moments[..] == old(moments[..]))
  {
    ok, identityComponent, componentGroup, components := false, "", "", 0;
    if n > genus || m < 0 || m > MaxMoment + 1 || !Supported(genus) {
      return;
    }
    var i := SearchColumn(genus, GroupColumn, group);
    if i >= GroupCount(genus) {
      return;
    }
    ok := true;
    identityComponent, componentGroup, components :=
      IdentityComponent(genus, i), ComponentGroup(genus, i), Components(genus, i);
    WriteRow(genus, i, z, moments, n, m);
  }

  /** The writes smalljac_STgroup_info makes for row i: its tags into z[] and its moments
      into moments[], each skipped when the array is null. */
  method WriteRow(genus: int, i: int, z: array?<int>, moments: array?<int>, n: int, m: int)
    requires Supported(genus) && 0 <= i < GroupCount(genus) && n <= genus && 0 <= m <= MaxMoment + 1
    requires z != null ==> z.Length >= ZSlots(genus, n)
    requires moments != null ==> moments.Length >= MomentSlots(genus, n, m)
    requires z == null || z != moments
    modifies z, moments
    ensures z != null ==> z[..] == Overlay(ZWritten(genus, i, n), old(z[..]))
    ensures moments != null ==> moments[..] == Overlay(MomentsWritten(genus, i, n, m), old(moments[..]))
  {
    var zw := ZWritten(genus, i, n);
    var mw := MomentsWritten(genus, i, n, m);
    if z != null {
      CopyInto(z, zw);
    }
    if moments != null {
      CopyInto(moments, mw);
    }
  }

  // ---------------------------------------------------------------------------------------
  // smalljac_lookup_g1_STgroup and smalljac_lookup_g2_STgroup

  /** The three values smalljac_lookup_g1_STgroup prints: G1ZScale * z1, m1sq[1], m1sq[2]. */
  function G1SigValues(z1: real, m1sq: seq<real>): (v: seq<real>)
    requires |m1sq| == 3
    ensures |v| == 3
  {
    [G1ZScale as real * z1, m1sq[1], m1sq[2]]
  }

  /** The eleven values smalljac_lookup_g2_STgroup prints: G2ZScale * z1, G2ZScale * z2[k]
      for k = 0..4, m1sq[1], m1sq[2], m2[1], m2[2], m2[3]. */
  function G2SigValues(z1: real, z2: seq<real>, m1sq: seq<real>, m2: seq<real>): (v: seq<real>)
    requires |z2| == 5 && |m1sq| == 3 && |m2| == 4
    ensures |v| == 11
  {
    var s := G2ZScale as real;
    [s * z1, s * z2[0], s * z2[1], s * z2[2], s * z2[3], s * z2[4], m1sq[1], m1sq[2], m2[1], m2[2], m2[3]]
  }

  /** The text sprintf (sig, "[%.f,%.f,%.f]", ...) produces. */
  function G1PrintedSig(v: seq<real>): string
    requires |v| == 3
  {
    "[" + PrintedField(v[0], PrintedField(v[1], Printed(v[2]) + "]"))
  }

  /** The text sprintf (sig, "[%.f,...,%.f]", ...) produces (eleven fields). */
  function G2PrintedSig(v: seq<real>): string
    requires |v| == 11
  {
    "[" + PrintedField(v[0], PrintedField(v[1], PrintedField(v[2], PrintedField(v[3],
      PrintedField(v[4], PrintedField(v[5], PrintedField(v[6], PrintedField(v[7],
      PrintedField(v[8], PrintedField(v[9], Printed(v[10]) + "]"))))))))))
  }

  /** The integers the printed values round to. */
  function G1KeyOf(v: seq<real>): G1Tuple
    requires |v| == 3
  {
    G1Tuple(Round(v[0]), Round(v[1]), Round(v[2]))
  }

  function G2KeyOf(v: seq<real>): G2Tuple
    requires |v| == 11
  {
    G2Tuple(Round(v[0]), Round(v[1]), Round(v[2]), Round(v[3]), Round(v[4]), Round(v[5]),
            Round(v[6]), Round(v[7]), Round(v[8]), Round(v[9]), Round(v[10]))
  }

  /** Some printed value is a negative zero ("-0"). */
  predicate SomeNegativeZero(v: seq<real>) {
    exists k | 0 <= k < |v| :: NegativeZero(v[k])
  }

  /** The printed statistics equal the printed signature of t exactly when no value prints
      as "-0" and every value rounds to the matching entry of t. */
  lemma G1PrintedSigMatches(v: seq<real>, t: G1Tuple)
    requires |v| == 3
    ensures G1PrintedSig(v) == G1SigText(t) <==> !SomeNegativeZero(v) && G1KeyOf(v) == t
  {
    var x := PrintedField(v[0], PrintedField(v[1], Printed(v[2]) + "]"));
    var y := Field(t.z1, Field(t.a1sq, IntText(t.a1four) + "]"));
    assert G1PrintedSig(v) == G1SigText(t) <==> x == y by {
      assert G1PrintedSig(v)[1..] == x && G1SigText(t)[1..] == y;
    }
    PrintedFieldMatches(v[0], PrintedField(v[1], Printed(v[2]) + "]"), t.z1, Field(t.a1sq, IntText(t.a1four) + "]"));
    PrintedFieldMatches(v[1], Printed(v[2]) + "]", t.a1sq, IntText(t.a1four) + "]");
    LastPrintedFieldMatches(v[2], t.a1four);
    PrintedIsIntText(v[0], t.z1);
    PrintedIsIntText(v[1], t.a1sq);
    PrintedIsIntText(v[2], t.a1four);
    if SomeNegativeZero(v) {
      var k :| 0 <= k < 3 && NegativeZero(v[k]);
      assert k == 0 || k == 1 || k == 2;
    }
  }

  lemma G2PrintedSigMatches(v: seq<real>, t: G2Tuple)
    requires |v| == 11
    ensures G2PrintedSig(v) == G2SigText(t) <==> !SomeNegativeZero(v) && G2KeyOf(v) == t
  {
    assert G2PrintedSig(v) == G2SigText(t) <==> PrintedField(v[0], PrintedField(v[1], PrintedField(v[2], PrintedField(v[3], PrintedField(v[4], PrintedField(v[5], PrintedField(v[6], PrintedField(v[7], PrintedField(v[8], PrintedField(v[9], Printed(v[10]) + "]")))))))))) == Field(t.z1, Field(t.z2m2, Field(t.z2m1, Field(t.z2z, Field(t.z2p1, Field(t.z2p2, Field(t.a1sq, Field(t.a1four, Field(t.a2, Field(t.a2sq, IntText(t.a2cube) + "]")))))))))) by {
      assert G2PrintedSig(v)[1..] == PrintedField(v[0], PrintedField(v[1], PrintedField(v[2], PrintedField(v[3], PrintedField(v[4], PrintedField(v[5], PrintedField(v[6], PrintedField(v[7], PrintedField(v[8], PrintedField(v[9], Printed(v[10]) + "]"))))))))));
      assert G2SigText(t)[1..] == Field(t.z1, Field(t.z2m2, Field(t.z2m1, Field(t.z2z, Field(t.z2p1, Field(t.z2p2, Field(t.a1sq, Field(t.a1four, Field(t.a2, Field(t.a2sq, IntText(t.a2cube) + "]"))))))))));
    }
    PrintedFieldMatches(v[0], PrintedField(v[1], PrintedField(v[2], PrintedField(v[3], PrintedField(v[4], PrintedField(v[5], PrintedField(v[6], PrintedField(v[7], PrintedField(v[8], PrintedField(v[9], Printed(v[10]) + "]"))))))))),
                        t.z1, Field(t.z2m2, Field(t.z2m1, Field(t.z2z, Field(t.z2p1, Field(t.z2p2, Field(t.a1sq, Field(t.a1four, Field(t.a2, Field(t.a2sq, IntText(t.a2cube) + "]"))))))))));
    PrintedFieldMatches(v[1], PrintedField(v[2], PrintedField(v[3], PrintedField(v[4], PrintedField(v[5], PrintedField(v[6], PrintedField(v[7], PrintedField(v[8], PrintedField(v[9], Printed(v[10]) + "]")))))))),
                        t.z2m2, Field(t.z2m1, Field(t.z2z, Field(t.z2p1, Field(t.z2p2, Field(t.a1sq, Field(t.a1four, Field(t.a2, Field(t.a2sq, IntText(t.a2cube) + "]")))))))));
    PrintedFieldMatches(v[2], PrintedField(v[3], PrintedField(v[4], PrintedField(v[5], PrintedField(v[6], PrintedField(v[7], PrintedField(v[8], PrintedField(v[9], Printed(v[10]) + "]"))))))),
                        t.z2m1, Field(t.z2z, Field(t.z2p1, Field(t.z2p2, Field(t.a1sq, Field(t.a1four, Field(t.a2, Field(t.a2sq, IntText(t.a2cube) + "]"))))))));
    PrintedFieldMatches(v[3], PrintedField(v[4], PrintedField(v[5], PrintedField(v[6], PrintedField(v[7], PrintedField(v[8], PrintedField(v[9], Printed(v[10]) + "]")))))),
                        t.z2z, Field(t.z2p1, Field(t.z2p2, Field(t.a1sq, Field(t.a1four, Field(t.a2, Field(t.a2sq, IntText(t.a2cube) + "]")))))));
    PrintedFieldMatches(v[4], PrintedField(v[5], PrintedField(v[6], PrintedField(v[7], PrintedField(v[8], PrintedField(v[9], Printed(v[10]) + "]"))))),
                        t.z2p1, Field(t.z2p2, Field(t.a1sq, Field(t.a1four, Field(t.a2, Field(t.a2sq, IntText(t.a2cube) + "]"))))));
    PrintedFieldMatches(v[5], PrintedField(v[6], PrintedField(v[7], PrintedField(v[8], PrintedField(v[9], Printed(v[10]) + "]")))),
                        t.z2p2, Field(t.a1sq, Field(t.a1four, Field(t.a2, Field(t.a2sq, IntText(t.a2cube) + "]")))));
    PrintedFieldMatches(v[6], PrintedField(v[7], PrintedField(v[8], PrintedField(v[9], Printed(v[10]) + "]"))),
                        t.a1sq, Field(t.a1four, Field(t.a2, Field(t.a2sq, IntText(t.a2cube) + "]"))));
    PrintedFieldMatches(v[7], PrintedField(v[8], PrintedField(v[9], Printed(v[10]) + "]")),
                        t.a1four, Field(t.a2, Field(t.a2sq, IntText(t.a2cube) + "]")));
    PrintedFieldMatches(v[8], PrintedField(v[9], Printed(v[10]) + "]"),
                        t.a2, Field(t.a2sq, IntText(t.a2cube) + "]"));
    PrintedFieldMatches(v[9], Printed(v[10]) + "]",
                        t.a2sq, IntText(t.a2cube) + "]");
    LastPrintedFieldMatches(v[10], t.a2cube);
    PrintedIsIntText(v[0], t.z1);
    PrintedIsIntText(v[1], t.z2m2);
    PrintedIsIntText(v[2], t.z2m1);
    PrintedIsIntText(v[3], t.z2z);
    PrintedIsIntText(v[4], t.z2p1);
    PrintedIsIntText(v[5], t.z2p2);
    PrintedIsIntText(v[6], t.a1sq);
    PrintedIsIntText(v[7], t.a1four);
    PrintedIsIntText(v[8], t.a2);
    PrintedIsIntText(v[9], t.a2sq);
    PrintedIsIntText(v[10], t.a2cube);
    if SomeNegativeZero(v) {
      var k :| 0 <= k < 11 && NegativeZero(v[k]);
      assert k == 0 || k == 1 || k == 2 || k == 3 || k == 4 || k == 5 || k == 6 || k == 7 || k == 8 || k == 9 || k == 10;
    }
  }

  /** smalljac_lookup_g1_STgroup: the group whose signature text is the printed statistics. */
  function LookupG1(z1: real, m1sq: seq<real>): Option<string>
    requires |m1sq| == 3
  {
    var i := FirstRow(1, SigColumn, G1PrintedSig(G1SigValues(z1, m1sq)));
    if i < G1Groups then Some(G1Group(i)) else None
  }

  /** smalljac_lookup_g2_STgroup: the group whose signature text is the printed statistics. */
  function LookupG2(z1: real, z2: seq<real>, m1sq: seq<real>, m2: seq<real>): Option<string>
    requires |z2| == 5 && |m1sq| == 3 && |m2| == 4
  {
    var i := FirstRow(2, SigColumn, G2PrintedSig(G2SigValues(z1, z2, m1sq, m2)));
    if i < G2Groups then Some(G2Group(i)) else None
  }

  /** A genus 1 lookup succeeds exactly when no value prints as "-0" and the rounded values
      are the signature of some row, and then it names that row. */
  lemma LookupG1Meaning(z1: real, m1sq: seq<real>)
    requires |m1sq| == 3
    ensures var v := G1SigValues(z1, m1sq);
      LookupG1(z1, m1sq).Some? <==>
      !SomeNegativeZero(v) && exists i | 0 <= i < G1Groups :: G1SigTuple(i) == G1KeyOf(v)
    ensures var v := G1SigValues(z1, m1sq);
      forall i | 0 <= i < G1Groups && G1SigTuple(i) == G1KeyOf(v) && !SomeNegativeZero(v) ::
        LookupG1(z1, m1sq) == Some(G1Group(i))
  {
    var v := G1SigValues(z1, m1sq);
    var text := G1PrintedSig(v);
    G1RowsWellFormed();
    forall i | 0 <= i < G1Groups
      ensures Cell(1, SigColumn, i) == text <==> !SomeNegativeZero(v) && G1KeyOf(v) == G1SigTuple(i)
    {
      G1PrintedSigMatches(v, G1SigTuple(i));
    }
    forall i | 0 <= i < G1Groups && Cell(1, SigColumn, i) == text
      ensures FirstRow(1, SigColumn, text) == i
    {
      FirstRowOfCell(1, SigColumn, i);
    }
  }

  /** Row i's signature equals the printed genus 2 statistics exactly when no value prints
      as "-0" and the rounded values are row i's tuple. */
  lemma G2SigCellMatches(v: seq<real>, i: int)
    requires |v| == 11 && 0 <= i < G2Groups
    ensures Cell(2, SigColumn, i) == G2PrintedSig(v) <==> !SomeNegativeZero(v) && G2KeyOf(v) == G2SigTuple(i)
  {
    G2SigTextExact();
    G2PrintedSigMatches(v, G2SigTuple(i));
  }

  /** A genus 2 lookup succeeds exactly when no value prints as "-0" and the rounded values
      are the signature of some row, and then it names that row. */
  lemma LookupG2Meaning(z1: real, z2: seq<real>, m1sq: seq<real>, m2: seq<real>)
    requires |z2| == 5 && |m1sq| == 3 && |m2| == 4
    ensures var v := G2SigValues(z1, z2, m1sq, m2);
      LookupG2(z1, z2, m1sq, m2).Some? <==>
      !SomeNegativeZero(v) && exists i | 0 <= i < G2Groups :: G2SigTuple(i) == G2KeyOf(v)
    ensures var v := G2SigValues(z1, z2, m1sq, m2);
      forall i | 0 <= i < G2Groups && G2SigTuple(i) == G2KeyOf(v) && !SomeNegativeZero(v) ::
        LookupG2(z1, z2, m1sq, m2) == Some(G2Group(i))
  {
    var v := G2SigValues(z1, z2, m1sq, m2);
    var text := G2PrintedSig(v);
    forall i | 0 <= i < G2Groups
      ensures Cell(2, SigColumn, i) == text <==> !SomeNegativeZero(v) && G2KeyOf(v) == G2SigTuple(i)
    {
      G2SigCellMatches(v, i);
    }
    forall i | 0 <= i < G2Groups && Cell(2, SigColumn, i) == text
      ensures FirstRow(2, SigColumn, text) == i
    {
      FirstRowOfCell(2, SigColumn, i);
    }
  }

  /** The loop of smalljac_lookup_g1_STgroup over the printed statistics. */
  method LookupG1STGroup(z1: real, m1sq: seq<real>) returns (found: bool, group: string)
    requires |m1sq| == 3
    ensures found <==> LookupG1(z1, m1sq).Some?
    ensures found ==> group == LookupG1(z1, m1sq).value
  {
    var sig := G1PrintedSig(G1SigValues(z1, m1sq));
    var i := SearchColumn(1, SigColumn, sig);
    if i == G1Groups {
      return false, "";
    }
    return true, G1Group(i);
  }

  /** The loop of smalljac_lookup_g2_STgroup over the printed statistics. */
  method LookupG2STGroup(z1: real, z2: seq<real>, m1sq: seq<real>, m2: seq<real>)
    returns (found: bool, group: string)
    requires |z2| == 5 && |m1sq| == 3 && |m2| == 4
    ensures found <==> LookupG2(z1, z2, m1sq, m2).Some?
    ensures found ==> group == LookupG2(z1, z2, m1sq, m2).value
  {
    var sig := G2PrintedSig(G2SigValues(z1, z2, m1sq, m2));
    var i := SearchColumn(2, SigColumn, sig);
    if i == G2Groups {
      return false, "";
    }
    return true, G2Group(i);
  }

  /** Non-negative statistics within less than one half of row i's signature entries (the
      density of a1 = 0 scaled by G1ZScale) identify row i. */
  lemma LookupG1NearRow(i: int, z1: real, m1sq: seq<real>)
    requires 0 <= i < G1Groups && |m1sq| == 3
    requires z1 >= 0.0 && m1sq[1] >= 0.0 && m1sq[2] >= 0.0
    requires -0.5 < G1ZScale as real * z1 - G1SigTuple(i).z1 as real < 0.5
    requires -0.5 < m1sq[1] - G1SigTuple(i).a1sq as real < 0.5
    requires -0.5 < m1sq[2] - G1SigTuple(i).a1four as real < 0.5
    ensures LookupG1(z1, m1sq) == Some(G1Group(i))
  {
    var v := G1SigValues(z1, m1sq);
    RoundNear(v[0], G1SigTuple(i).z1);
    RoundNear(v[1], G1SigTuple(i).a1sq);
    RoundNear(v[2], G1SigTuple(i).a1four);
    assert !SomeNegativeZero(v);
    LookupG1Meaning(z1, m1sq);
  }

  /** Statistics within less than one half of row i's signature entries (densities scaled by
      G2ZScale) identify row i, provided the densities and the even moments E[a1^2], E[a1^4],
      E[a2^2] are not negative. E[a2] and E[a2^3] may have either sign: both are at least 1 in
      every row, so near a row neither prints as "-0". */
  lemma LookupG2NearRow(i: int, z1: real, z2: seq<real>, m1sq: seq<real>, m2: seq<real>)
    requires 0 <= i < G2Groups && |z2| == 5 && |m1sq| == 3 && |m2| == 4
    requires z1 >= 0.0 && (forall k | 0 <= k < 5 :: z2[k] >= 0.0)
    requires m1sq[1] >= 0.0 && m1sq[2] >= 0.0 && m2[2] >= 0.0
    requires forall k | 0 <= k < 11 ::
      -0.5 < G2SigValues(z1, z2, m1sq, m2)[k] - G2SigTuple(i).Fields()[k] as real < 0.5
    ensures LookupG2(z1, z2, m1sq, m2) == Some(G2Group(i))
  {
    var v := G2SigValues(z1, z2, m1sq, m2);
    var t := G2SigTuple(i);
    forall k | 0 <= k < 11
      ensures Round(v[k]) == t.Fields()[k]
    {
      RoundNear(v[k], t.Fields()[k]);
    }
    assert G2KeyOf(v).Fields() == t.Fields();
    G2SignedMomentsPositive();
    forall k | 0 <= k < 11
      ensures !NegativeZero(v[k])
    {
      assert v[k] >= 0.0 || k == 8 || k == 10;
    }
    LookupG2Meaning(z1, z2, m1sq, m2);
  }
}
