/** The reference catalog of Sato-Tate groups in smalljac/STgroups.c: the three genus 1
    groups of g1sigtab and the 52 genus 2 groups of g2sigtab, each with its signature,
    structural data and reference moment sequences.

    The tables are stored by column: one function per field, indexed by row and written as
    a balanced binary decision on the row index, so that each row is reached in a handful
    of comparisons; each leaf is marked with its row and source line (row k of g1sigtab is
    line 33 + k, row k of g2sigtab is line 55 + k). A row's signature is kept both as the
    literal text of the source table (G1Sig, G2Sig) and as the tuple of integers it spells
    (G1SigTuple, G2SigTuple); module CatalogFacts proves that printing the tuple reproduces
    the text in every row. */
module Catalog {
  import opened Format

  /** Scale applied to zero densities in genus 1 signatures (G1_ZSCALE). */
  const G1ZScale := 2
  /** Scale applied to zero densities in genus 2 signatures (G2_ZSCALE). */
  const G2ZScale := 48
  /** Rows of the genus 1 table (SMALLJAC_G1_ST_GROUPS). */
  const G1Groups := 3
  /** Rows of the genus 2 table (SMALLJAC_G2_ST_GROUPS). */
  const G2Groups := 52
  /** Highest moment order kept in the tables (SMALLJAC_ST_MAX_MOMENT). */
  const MaxMoment := 20

  /** Genus 1 signature: (G1ZScale * dens(a1 = 0), E[a1^2], E[a1^4]). */
  datatype G1Tuple = G1Tuple(z1: int, a1sq: int, a1four: int)

  /** Genus 2 signature: (G2ZScale * dens(a1 = 0), G2ZScale * dens(a2 = b) for b = -2..2,
      E[a1^2], E[a1^4], E[a2], E[a2^2], E[a2^3]). */
  datatype G2Tuple = G2Tuple(z1: int, z2m2: int, z2m1: int, z2z: int, z2p1: int, z2p2: int,
                             a1sq: int, a1four: int, a2: int, a2sq: int, a2cube: int)
  {
    /** The eleven entries in the order the signature prints them. */
    function Fields(): seq<int> {
      [z1, z2m2, z2m1, z2z, z2p1, z2p2, a1sq, a1four, a2, a2sq, a2cube]
    }

    /** The scaled density of a2 = k - 2. */
    function Z2(k: int): int
      requires 0 <= k < 5
    {
      match k
      case 0 => z2m2
      case 1 => z2m1
      case 2 => z2z
      case 3 => z2p1
      case _ => z2p2
    }
  }

  /** The text "[%.f,%.f,%.f]" prints for a genus 1 signature. */
  function G1SigText(t: G1Tuple): string {
    "[" + Field(t.z1, Field(t.a1sq, IntText(t.a1four) + "]"))
  }

  /** The text "[%.f,...,%.f]" (eleven fields) prints for a genus 2 signature. */
  function G2SigText(t: G2Tuple): string {
    "[" + Field(t.z1, Field(t.z2m2, Field(t.z2m1, Field(t.z2z, Field(t.z2p1, Field(t.z2p2,
      Field(t.a1sq, Field(t.a1four, Field(t.a2, Field(t.a2sq, IntText(t.a2cube) + "]"))))))))))
  }

  /** Different genus 1 tuples print differently. */
  lemma G1SigTextInjective(a: G1Tuple, b: G1Tuple)
    requires G1SigText(a) == G1SigText(b)
    ensures a == b
  {
    var ta := Field(a.z1, Field(a.a1sq, IntText(a.a1four) + "]"));
    var tb := Field(b.z1, Field(b.a1sq, IntText(b.a1four) + "]"));
    assert ta == G1SigText(a)[1..] == G1SigText(b)[1..] == tb;
    FieldInjective(a.z1, Field(a.a1sq, IntText(a.a1four) + "]"), b.z1, Field(b.a1sq, IntText(b.a1four) + "]"));
    FieldInjective(a.a1sq, IntText(a.a1four) + "]", b.a1sq, IntText(b.a1four) + "]");
    LastFieldInjective(a.a1four, b.a1four);
  }

  /** Different genus 2 tuples print differently. */
  lemma G2SigTextInjective(a: G2Tuple, b: G2Tuple)
    requires G2SigText(a) == G2SigText(b)
    ensures a == b
  {
    assert Field(a.z1, Field(a.z2m2, Field(a.z2m1, Field(a.z2z, Field(a.z2p1, Field(a.z2p2, Field(a.a1sq, Field(a.a1four, Field(a.a2, Field(a.a2sq, IntText(a.a2cube) + "]"))))))))))
        == G2SigText(a)[1..] == G2SigText(b)[1..]
        == Field(b.z1, Field(b.z2m2, Field(b.z2m1, Field(b.z2z, Field(b.z2p1, Field(b.z2p2, Field(b.a1sq, Field(b.a1four, Field(b.a2, Field(b.a2sq, IntText(b.a2cube) + "]"))))))))));
    FieldInjective(a.z1, Field(a.z2m2, Field(a.z2m1, Field(a.z2z, Field(a.z2p1, Field(a.z2p2, Field(a.a1sq, Field(a.a1four, Field(a.a2, Field(a.a2sq, IntText(a.a2cube) + "]"))))))))),
                   b.z1, Field(b.z2m2, Field(b.z2m1, Field(b.z2z, Field(b.z2p1, Field(b.z2p2, Field(b.a1sq, Field(b.a1four, Field(b.a2, Field(b.a2sq, IntText(b.a2cube) + "]"))))))))));
    FieldInjective(a.z2m2, Field(a.z2m1, Field(a.z2z, Field(a.z2p1, Field(a.z2p2, Field(a.a1sq, Field(a.a1four, Field(a.a2, Field(a.a2sq, IntText(a.a2cube) + "]")))))))),
                   b.z2m2, Field(b.z2m1, Field(b.z2z, Field(b.z2p1, Field(b.z2p2, Field(b.a1sq, Field(b.a1four, Field(b.a2, Field(b.a2sq, IntText(b.a2cube) + "]")))))))));
    FieldInjective(a.z2m1, Field(a.z2z, Field(a.z2p1, Field(a.z2p2, Field(a.a1sq, Field(a.a1four, Field(a.a2, Field(a.a2sq, IntText(a.a2cube) + "]"))))))),
                   b.z2m1, Field(b.z2z, Field(b.z2p1, Field(b.z2p2, Field(b.a1sq, Field(b.a1four, Field(b.a2, Field(b.a2sq, IntText(b.a2cube) + "]"))))))));
    FieldInjective(a.z2z, Field(a.z2p1, Field(a.z2p2, Field(a.a1sq, Field(a.a1four, Field(a.a2, Field(a.a2sq, IntText(a.a2cube) + "]")))))),
                   b.z2z, Field(b.z2p1, Field(b.z2p2, Field(b.a1sq, Field(b.a1four, Field(b.a2, Field(b.a2sq, IntText(b.a2cube) + "]")))))));
    FieldInjective(a.z2p1, Field(a.z2p2, Field(a.a1sq, Field(a.a1four, Field(a.a2, Field(a.a2sq, IntText(a.a2cube) + "]"))))),
                   b.z2p1, Field(b.z2p2, Field(b.a1sq, Field(b.a1four, Field(b.a2, Field(b.a2sq, IntText(b.a2cube) + "]"))))));
    FieldInjective(a.z2p2, Field(a.a1sq, Field(a.a1four, Field(a.a2, Field(a.a2sq, IntText(a.a2cube) + "]")))),
                   b.z2p2, Field(b.a1sq, Field(b.a1four, Field(b.a2, Field(b.a2sq, IntText(b.a2cube) + "]")))));
    FieldInjective(a.a1sq, Field(a.a1four, Field(a.a2, Field(a.a2sq, IntText(a.a2cube) + "]"))),
                   b.a1sq, Field(b.a1four, Field(b.a2, Field(b.a2sq, IntText(b.a2cube) + "]"))));
    FieldInjective(a.a1four, Field(a.a2, Field(a.a2sq, IntText(a.a2cube) + "]")),
                   b.a1four, Field(b.a2, Field(b.a2sq, IntText(b.a2cube) + "]")));
    FieldInjective(a.a2, Field(a.a2sq, IntText(a.a2cube) + "]"),
                   b.a2, Field(b.a2sq, IntText(b.a2cube) + "]"));
    FieldInjective(a.a2sq, IntText(a.a2cube) + "]",
                   b.a2sq, IntText(b.a2cube) + "]");
    LastFieldInjective(a.a2cube, b.a2cube);
  }

  /** Column `group` of g1sigtab. */
  function G1Group(i: int): string
    requires 0 <= i < G1Groups
  {
    if i < 1 then
      "U(1)"  // row 0, line 33
    else
      if i < 2 then
        "N(U(1))"  // row 1, line 34
      else
        "SU(2)"  // row 2, line 35
  }

  /** Column `sig` of g1sigtab: the literal signature text. */
  function G1Sig(i: int): string
    requires 0 <= i < G1Groups
  {
    if i < 1 then
      "[0,2,6]"  // row 0, line 33
    else
      if i < 2 then
        "[1,1,3]"  // row 1, line 34
      else
        "[0,1,2]"  // row 2, line 35
  }

  /** The integers that column `sig` of g1sigtab spells. */
  function G1SigTuple(i: int): G1Tuple
    requires 0 <= i < G1Groups
  {
    if i < 1 then
      G1Tuple(0, 2, 6)  // row 0, line 33
    else
      if i < 2 then
        G1Tuple(1, 1, 3)  // row 1, line 34
      else
        G1Tuple(0, 1, 2)  // row 2, line 35
  }

  /** Column `identity_component` of g1sigtab. */
  function G1IdentityComponent(i: int): string
    requires 0 <= i < G1Groups
  {
    if i < 1 then
      "U(1)"  // row 0, line 33
    else
      if i < 2 then
        "U(1)"  // row 1, line 34
      else
        "SU(2)"  // row 2, line 35
  }

  /** Column `component_group` of g1sigtab. */
  function G1ComponentGroup(i: int): string
    requires 0 <= i < G1Groups
  {
    if i < 1 then
      "C_1"  // row 0, line 33
    else
      if i < 2 then
        "C_2"  // row 1, line 34
      else
        "C_1"  // row 2, line 35
  }

  /** Column `components` of g1sigtab. */
  function G1Components(i: int): int
    requires 0 <= i < G1Groups
  {
    if i < 1 then
      1  // row 0, line 33
    else
      if i < 2 then
        2  // row 1, line 34
      else
        1  // row 2, line 35
  }

  /** Column `z1` of g1sigtab. */
  function G1Z1(i: int): int
    requires 0 <= i < G1Groups
  {
    if i < 1 then
      0  // row 0, line 33
    else
      if i < 2 then
        1  // row 1, line 34
      else
        0  // row 2, line 35
  }

  /** Column `a1moments` of g1sigtab: E[a1^k] for k = 0..MaxMoment. */
  function G1A1Moments(i: int): seq<int>
    requires 0 <= i < G1Groups
  {
    if i < 1 then
      [1, 0, 2, 0, 6, 0, 20, 0, 70, 0, 252, 0, 924, 0, 3432, 0, 12870, 0, 48620, 0, 184756]  // row 0, line 33
    else
      if i < 2 then
        [1, 0, 3, 0, 10, 0, 35, 0, 126, 0, 462, 0, 1716, 0, 6435, 0, 24310, 0, 92378, 0, 352716]  // row 1, line 34
      else
        [1, 0, 1, 0, 2, 0, 5, 0, 14, 0, 42, 0, 132, 0, 429, 0, 1430, 0, 4862, 0, 16796]  // row 2, line 35
  }

  /** Column `tag` of g2sigtab. */
  function G2Tag(i: int): string
    requires 0 <= i < G2Groups
  {
    if i < 26 then
      if i < 13 then
        if i < 6 then
          if i < 3 then
            if i < 1 then
              "27"  // row 0, line 55
            else
              if i < 2 then
                "13b"  // row 1, line 56
              else
                "28"  // row 2, line 57
          else
            if i < 4 then
              "29"  // row 3, line 58
            else
              if i < 5 then
                "30"  // row 4, line 59
              else
                "21c"  // row 5, line 60
        else
          if i < 9 then
            if i < 7 then
              "12d"  // row 6, line 61
            else
              if i < 8 then
                "17c"  // row 7, line 62
              else
                "15c"  // row 8, line 63
          else
            if i < 11 then
              if i < 10 then
                "31"  // row 9, line 64
              else
                "32"  // row 10, line 65
            else
              if i < 12 then
                "13c"  // row 11, line 66
              else
                "21b"  // row 12, line 67
      else
        if i < 19 then
          if i < 16 then
            if i < 14 then
              "12c"  // row 13, line 68
            else
              if i < 15 then
                "17b"  // row 14, line 69
              else
                "15b"  // row 15, line 70
          else
            if i < 17 then
              "23b"  // row 16, line 71
            else
              if i < 18 then
                "20"  // row 17, line 72
              else
                "22"  // row 18, line 73
        else
          if i < 22 then
            if i < 20 then
              "24"  // row 19, line 74
            else
              if i < 21 then
                "25"  // row 20, line 75
              else
                "26"  // row 21, line 76
          else
            if i < 24 then
              if i < 23 then
                "13"  // row 22, line 77
              else
                "21d"  // row 23, line 78
            else
              if i < 25 then
                "12b"  // row 24, line 79
              else
                "21"  // row 25, line 80
    else
      if i < 39 then
        if i < 32 then
          if i < 29 then
            if i < 27 then
              "23"  // row 26, line 81
            else
              if i < 28 then
                "20b"  // row 27, line 82
              else
                "12"  // row 28, line 83
          else
            if i < 30 then
              "17"  // row 29, line 84
            else
              if i < 31 then
                "15"  // row 30, line 85
              else
                "25b"  // row 31, line 86
        else
          if i < 35 then
            if i < 33 then
              "5"  // row 32, line 87
            else
              if i < 34 then
                "11b"  // row 33, line 88
              else
                "4"  // row 34, line 89
          else
            if i < 37 then
              if i < 36 then
                "7"  // row 35, line 90
              else
                "6"  // row 36, line 91
            else
              if i < 38 then
                "11"  // row 37, line 92
              else
                "18"  // row 38, line 93
      else
        if i < 45 then
          if i < 42 then
            if i < 40 then
              "10"  // row 39, line 94
            else
              if i < 41 then
                "16"  // row 40, line 95
              else
                "14"  // row 41, line 96
          else
            if i < 43 then
              "33"  // row 42, line 97
            else
              if i < 44 then
                "34"  // row 43, line 98
              else
                "35"  // row 44, line 99
        else
          if i < 48 then
            if i < 46 then
              "19"  // row 45, line 100
            else
              if i < 47 then
                "8"  // row 46, line 101
              else
                "36"  // row 47, line 102
          else
            if i < 50 then
              if i < 49 then
                "3"  // row 48, line 103
              else
                "2"  // row 49, line 104
            else
              if i < 51 then
                "9"  // row 50, line 105
              else
                "1"  // row 51, line 106
  }

  /** Column `group` of g2sigtab. */
  function G2Group(i: int): string
    requires 0 <= i < G2Groups
  {
    if i < 26 then
      if i < 13 then
        if i < 6 then
          if i < 3 then
            if i < 1 then
              "C_1"  // row 0, line 55
            else
              if i < 2 then
                "C_2"  // row 1, line 56
              else
                "C_3"  // row 2, line 57
          else
            if i < 4 then
              "C_4"  // row 3, line 58
            else
              if i < 5 then
                "C_6"  // row 4, line 59
              else
                "D_2"  // row 5, line 60
        else
          if i < 9 then
            if i < 7 then
              "D_3"  // row 6, line 61
            else
              if i < 8 then
                "D_4"  // row 7, line 62
              else
                "D_6"  // row 8, line 63
          else
            if i < 11 then
              if i < 10 then
                "T"  // row 9, line 64
              else
                "O"  // row 10, line 65
            else
              if i < 12 then
                "J(C_1)"  // row 11, line 66
              else
                "J(C_2)"  // row 12, line 67
      else
        if i < 19 then
          if i < 16 then
            if i < 14 then
              "J(C_3)"  // row 13, line 68
            else
              if i < 15 then
                "J(C_4)"  // row 14, line 69
              else
                "J(C_6)"  // row 15, line 70
          else
            if i < 17 then
              "J(D_2)"  // row 16, line 71
            else
              if i < 18 then
                "J(D_3)"  // row 17, line 72
              else
                "J(D_4)"  // row 18, line 73
        else
          if i < 22 then
            if i < 20 then
              "J(D_6)"  // row 19, line 74
            else
              if i < 21 then
                "J(T)"  // row 20, line 75
              else
                "J(O)"  // row 21, line 76
          else
            if i < 24 then
              if i < 23 then
                "C_{2,1}"  // row 22, line 77
              else
                "C_{4,1}"  // row 23, line 78
            else
              if i < 25 then
                "C_{6,1}"  // row 24, line 79
              else
                "D_{2,1}"  // row 25, line 80
    else
      if i < 39 then
        if i < 32 then
          if i < 29 then
            if i < 27 then
              "D_{4,1}"  // row 26, line 81
            else
              if i < 28 then
                "D_{6,1}"  // row 27, line 82
              else
                "D_{3,2}"  // row 28, line 83
          else
            if i < 30 then
              "D_{4,2}"  // row 29, line 84
            else
              if i < 31 then
                "D_{6,2}"  // row 30, line 85
              else
                "O_1"  // row 31, line 86
        else
          if i < 35 then
            if i < 33 then
              "E_1"  // row 32, line 87
            else
              if i < 34 then
                "E_2"  // row 33, line 88
              else
                "E_3"  // row 34, line 89
          else
            if i < 37 then
              if i < 36 then
                "E_4"  // row 35, line 90
              else
                "E_6"  // row 36, line 91
            else
              if i < 38 then
                "J(E_1)"  // row 37, line 92
              else
                "J(E_2)"  // row 38, line 93
      else
        if i < 45 then
          if i < 42 then
            if i < 40 then
              "J(E_3)"  // row 39, line 94
            else
              if i < 41 then
                "J(E_4)"  // row 40, line 95
              else
                "J(E_6)"  // row 41, line 96
          else
            if i < 43 then
              "F"  // row 42, line 97
            else
              if i < 44 then
                "F_a"  // row 43, line 98
              else
                "F_{ab}"  // row 44, line 99
        else
          if i < 48 then
            if i < 46 then
              "F_{ac}"  // row 45, line 100
            else
              if i < 47 then
                "F_{a,b}"  // row 46, line 101
              else
                "G_{1,3}"  // row 47, line 102
          else
            if i < 50 then
              if i < 49 then
                "N(G_{1,3})"  // row 48, line 103
              else
                "G_{3,3}"  // row 49, line 104
            else
              if i < 51 then
                "N(G_{3,3})"  // row 50, line 105
              else
                "USp(4)"  // row 51, line 106
  }

  /** Column `sig` of g2sigtab: the literal signature text. */
  function G2Sig(i: int): string
    requires 0 <= i < G2Groups
  {
    if i < 26 then
      if i < 13 then
        if i < 6 then
          if i < 3 then
            if i < 1 then
              "[0,0,0,0,0,0,8,96,4,18,88]"  // row 0, line 55
            else
              if i < 2 then
                "[24,0,0,0,0,0,4,48,2,10,44]"  // row 1, line 56
              else
                "[0,0,0,0,0,0,4,36,2,8,34]"  // row 2, line 57
          else
            if i < 4 then
              "[12,0,0,0,0,0,4,36,2,8,32]"  // row 3, line 58
            else
              if i < 5 then
                "[8,0,0,0,0,0,4,36,2,8,32]"  // row 4, line 59
              else
                "[36,0,0,0,0,0,2,24,1,6,22]"  // row 5, line 60
        else
          if i < 9 then
            if i < 7 then
              "[24,0,0,0,0,0,2,18,1,5,17]"  // row 6, line 61
            else
              if i < 8 then
                "[30,0,0,0,0,0,2,18,1,5,16]"  // row 7, line 62
              else
                "[28,0,0,0,0,0,2,18,1,5,16]"  // row 8, line 63
          else
            if i < 11 then
              if i < 10 then
                "[12,0,0,0,0,0,2,12,1,4,12]"  // row 9, line 64
              else
                "[18,0,0,0,0,0,2,12,1,4,11]"  // row 10, line 65
            else
              if i < 12 then
                "[24,24,0,0,0,0,4,48,1,11,40]"  // row 11, line 66
              else
                "[36,12,0,0,0,12,2,24,1,7,22]"  // row 12, line 67
      else
        if i < 19 then
          if i < 16 then
            if i < 14 then
              "[24,8,0,0,16,0,2,18,1,5,16]"  // row 13, line 68
            else
              if i < 15 then
                "[30,6,0,12,0,6,2,18,1,5,16]"  // row 14, line 69
              else
                "[28,4,8,0,8,4,2,18,1,5,16]"  // row 15, line 70
          else
            if i < 17 then
              "[42,6,0,0,0,18,1,12,1,5,13]"  // row 16, line 71
            else
              if i < 18 then
                "[36,4,0,0,8,12,1,9,1,4,10]"  // row 17, line 72
              else
                "[39,3,0,6,0,15,1,9,1,4,10]"  // row 18, line 73
        else
          if i < 22 then
            if i < 20 then
              "[38,2,4,0,4,14,1,9,1,4,10]"  // row 19, line 74
            else
              if i < 21 then
                "[30,2,0,0,16,6,1,6,1,3,7]"  // row 20, line 75
              else
                "[33,1,0,6,8,9,1,6,1,3,7]"  // row 21, line 76
          else
            if i < 24 then
              if i < 23 then
                "[24,0,0,0,0,24,4,48,3,11,48]"  // row 22, line 77
              else
                "[36,0,0,24,0,0,2,24,1,5,22]"  // row 23, line 78
            else
              if i < 25 then
                "[24,0,16,0,0,8,2,18,1,5,18]"  // row 24, line 79
              else
                "[36,0,0,0,0,24,2,24,2,7,26]"  // row 25, line 80
    else
      if i < 39 then
        if i < 32 then
          if i < 29 then
            if i < 27 then
              "[42,0,0,12,0,12,1,12,1,4,13]"  // row 26, line 81
            else
              if i < 28 then
                "[36,0,8,0,0,16,1,9,1,4,11]"  // row 27, line 82
              else
                "[24,0,0,0,0,24,2,18,2,6,21]"  // row 28, line 83
          else
            if i < 30 then
              "[30,0,0,0,0,24,2,18,2,6,20]"  // row 29, line 84
            else
              if i < 31 then
                "[28,0,0,0,0,24,2,18,2,6,20]"  // row 30, line 85
              else
                "[30,0,0,12,0,12,1,6,1,3,8]"  // row 31, line 86
        else
          if i < 35 then
            if i < 33 then
              "[0,0,0,0,0,0,4,32,3,10,37]"  // row 32, line 87
            else
              if i < 34 then
                "[24,0,0,0,0,0,2,16,1,6,17]"  // row 33, line 88
              else
                "[0,0,0,0,0,0,2,12,1,4,13]"  // row 34, line 89
          else
            if i < 37 then
              if i < 36 then
                "[12,0,0,0,0,0,2,12,1,4,11]"  // row 35, line 90
              else
                "[8,0,0,0,0,0,2,12,1,4,11]"  // row 36, line 91
            else
              if i < 38 then
                "[24,0,0,0,0,0,2,16,2,6,20]"  // row 37, line 92
              else
                "[36,0,0,0,0,0,1,8,1,4,10]"  // row 38, line 93
      else
        if i < 45 then
          if i < 42 then
            if i < 40 then
              "[24,0,0,0,0,0,1,6,1,3,8]"  // row 39, line 94
            else
              if i < 41 then
                "[30,0,0,0,0,0,1,6,1,3,7]"  // row 40, line 95
              else
                "[28,0,0,0,0,0,1,6,1,3,7]"  // row 41, line 96
          else
            if i < 43 then
              "[0,0,0,0,0,0,4,36,2,8,32]"  // row 42, line 97
            else
              if i < 44 then
                "[0,0,0,0,0,24,3,21,2,6,20]"  // row 43, line 98
              else
                "[24,0,0,0,0,24,2,18,2,6,20]"  // row 44, line 99
        else
          if i < 48 then
            if i < 46 then
              "[36,0,0,24,0,12,1,9,1,3,10]"  // row 45, line 100
            else
              if i < 47 then
                "[12,0,0,0,0,36,2,12,2,5,14]"  // row 46, line 101
              else
                "[0,0,0,0,0,0,3,20,2,6,20]"  // row 47, line 102
          else
            if i < 50 then
              if i < 49 then
                "[0,0,0,0,0,24,2,11,2,5,14]"  // row 48, line 103
              else
                "[0,0,0,0,0,0,2,10,2,5,14]"  // row 49, line 104
            else
              if i < 51 then
                "[24,0,0,0,0,0,1,5,1,3,7]"  // row 50, line 105
              else
                "[0,0,0,0,0,0,1,3,1,2,4]"  // row 51, line 106
  }

  /** The integers that column `sig` of g2sigtab spells. */
  function G2SigTuple(i: int): G2Tuple
    requires 0 <= i < G2Groups
  {
    if i < 26 then
      if i < 13 then
        if i < 6 then
          if i < 3 then
            if i < 1 then
              G2Tuple(0, 0, 0, 0, 0, 0, 8, 96, 4, 18, 88)  // row 0, line 55
            else
              if i < 2 then
                G2Tuple(24, 0, 0, 0, 0, 0, 4, 48, 2, 10, 44)  // row 1, line 56
              else
                G2Tuple(0, 0, 0, 0, 0, 0, 4, 36, 2, 8, 34)  // row 2, line 57
          else
            if i < 4 then
              G2Tuple(12, 0, 0, 0, 0, 0, 4, 36, 2, 8, 32)  // row 3, line 58
            else
              if i < 5 then
                G2Tuple(8, 0, 0, 0, 0, 0, 4, 36, 2, 8, 32)  // row 4, line 59
              else
                G2Tuple(36, 0, 0, 0, 0, 0, 2, 24, 1, 6, 22)  // row 5, line 60
        else
          if i < 9 then
            if i < 7 then
              G2Tuple(24, 0, 0, 0, 0, 0, 2, 18, 1, 5, 17)  // row 6, line 61
            else
              if i < 8 then
                G2Tuple(30, 0, 0, 0, 0, 0, 2, 18, 1, 5, 16)  // row 7, line 62
              else
                G2Tuple(28, 0, 0, 0, 0, 0, 2, 18, 1, 5, 16)  // row 8, line 63
          else
            if i < 11 then
              if i < 10 then
                G2Tuple(12, 0, 0, 0, 0, 0, 2, 12, 1, 4, 12)  // row 9, line 64
              else
                G2Tuple(18, 0, 0, 0, 0, 0, 2, 12, 1, 4, 11)  // row 10, line 65
            else
              if i < 12 then
                G2Tuple(24, 24, 0, 0, 0, 0, 4, 48, 1, 11, 40)  // row 11, line 66
              else
                G2Tuple(36, 12, 0, 0, 0, 12, 2, 24, 1, 7, 22)  // row 12, line 67
      else
        if i < 19 then
          if i < 16 then
            if i < 14 then
              G2Tuple(24, 8, 0, 0, 16, 0, 2, 18, 1, 5, 16)  // row 13, line 68
            else
              if i < 15 then
                G2Tuple(30, 6, 0, 12, 0, 6, 2, 18, 1, 5, 16)  // row 14, line 69
              else
                G2Tuple(28, 4, 8, 0, 8, 4, 2, 18, 1, 5, 16)  // row 15, line 70
          else
            if i < 17 then
              G2Tuple(42, 6, 0, 0, 0, 18, 1, 12, 1, 5, 13)  // row 16, line 71
            else
              if i < 18 then
                G2Tuple(36, 4, 0, 0, 8, 12, 1, 9, 1, 4, 10)  // row 17, line 72
              else
                G2Tuple(39, 3, 0, 6, 0, 15, 1, 9, 1, 4, 10)  // row 18, line 73
        else
          if i < 22 then
            if i < 20 then
              G2Tuple(38, 2, 4, 0, 4, 14, 1, 9, 1, 4, 10)  // row 19, line 74
            else
              if i < 21 then
                G2Tuple(30, 2, 0, 0, 16, 6, 1, 6, 1, 3, 7)  // row 20, line 75
              else
                G2Tuple(33, 1, 0, 6, 8, 9, 1, 6, 1, 3, 7)  // row 21, line 76
          else
            if i < 24 then
              if i < 23 then
                G2Tuple(24, 0, 0, 0, 0, 24, 4, 48, 3, 11, 48)  // row 22, line 77
              else
                G2Tuple(36, 0, 0, 24, 0, 0, 2, 24, 1, 5, 22)  // row 23, line 78
            else
              if i < 25 then
                G2Tuple(24, 0, 16, 0, 0, 8, 2, 18, 1, 5, 18)  // row 24, line 79
              else
                G2Tuple(36, 0, 0, 0, 0, 24, 2, 24, 2, 7, 26)  // row 25, line 80
    else
      if i < 39 then
        if i < 32 then
          if i < 29 then
            if i < 27 then
              G2Tuple(42, 0, 0, 12, 0, 12, 1, 12, 1, 4, 13)  // row 26, line 81
            else
              if i < 28 then
                G2Tuple(36, 0, 8, 0, 0, 16, 1, 9, 1, 4, 11)  // row 27, line 82
              else
                G2Tuple(24, 0, 0, 0, 0, 24, 2, 18, 2, 6, 21)  // row 28, line 83
          else
            if i < 30 then
              G2Tuple(30, 0, 0, 0, 0, 24, 2, 18, 2, 6, 20)  // row 29, line 84
            else
              if i < 31 then
                G2Tuple(28, 0, 0, 0, 0, 24, 2, 18, 2, 6, 20)  // row 30, line 85
              else
                G2Tuple(30, 0, 0, 12, 0, 12, 1, 6, 1, 3, 8)  // row 31, line 86
        else
          if i < 35 then
            if i < 33 then
              G2Tuple(0, 0, 0, 0, 0, 0, 4, 32, 3, 10, 37)  // row 32, line 87
            else
              if i < 34 then
                G2Tuple(24, 0, 0, 0, 0, 0, 2, 16, 1, 6, 17)  // row 33, line 88
              else
                G2Tuple(0, 0, 0, 0, 0, 0, 2, 12, 1, 4, 13)  // row 34, line 89
          else
            if i < 37 then
              if i < 36 then
                G2Tuple(12, 0, 0, 0, 0, 0, 2, 12, 1, 4, 11)  // row 35, line 90
              else
                G2Tuple(8, 0, 0, 0, 0, 0, 2, 12, 1, 4, 11)  // row 36, line 91
            else
              if i < 38 then
                G2Tuple(24, 0, 0, 0, 0, 0, 2, 16, 2, 6, 20)  // row 37, line 92
              else
                G2Tuple(36, 0, 0, 0, 0, 0, 1, 8, 1, 4, 10)  // row 38, line 93
      else
        if i < 45 then
          if i < 42 then
            if i < 40 then
              G2Tuple(24, 0, 0, 0, 0, 0, 1, 6, 1, 3, 8)  // row 39, line 94
            else
              if i < 41 then
                G2Tuple(30, 0, 0, 0, 0, 0, 1, 6, 1, 3, 7)  // row 40, line 95
              else
                G2Tuple(28, 0, 0, 0, 0, 0, 1, 6, 1, 3, 7)  // row 41, line 96
          else
            if i < 43 then
              G2Tuple(0, 0, 0, 0, 0, 0, 4, 36, 2, 8, 32)  // row 42, line 97
            else
              if i < 44 then
                G2Tuple(0, 0, 0, 0, 0, 24, 3, 21, 2, 6, 20)  // row 43, line 98
              else
                G2Tuple(24, 0, 0, 0, 0, 24, 2, 18, 2, 6, 20)  // row 44, line 99
        else
          if i < 48 then
            if i < 46 then
              G2Tuple(36, 0, 0, 24, 0, 12, 1, 9, 1, 3, 10)  // row 45, line 100
            else
              if i < 47 then
                G2Tuple(12, 0, 0, 0, 0, 36, 2, 12, 2, 5, 14)  // row 46, line 101
              else
                G2Tuple(0, 0, 0, 0, 0, 0, 3, 20, 2, 6, 20)  // row 47, line 102
          else
            if i < 50 then
              if i < 49 then
                G2Tuple(0, 0, 0, 0, 0, 24, 2, 11, 2, 5, 14)  // row 48, line 103
              else
                G2Tuple(0, 0, 0, 0, 0, 0, 2, 10, 2, 5, 14)  // row 49, line 104
            else
              if i < 51 then
                G2Tuple(24, 0, 0, 0, 0, 0, 1, 5, 1, 3, 7)  // row 50, line 105
              else
                G2Tuple(0, 0, 0, 0, 0, 0, 1, 3, 1, 2, 4)  // row 51, line 106
  }

  /** Column `identity_component` of g2sigtab. */
  function G2IdentityComponent(i: int): string
    requires 0 <= i < G2Groups
  {
    if i < 26 then
      if i < 13 then
        if i < 6 then
          if i < 3 then
            if i < 1 then
              "U(1)"  // row 0, line 55
            else
              if i < 2 then
                "U(1)"  // row 1, line 56
              else
                "U(1)"  // row 2, line 57
          else
            if i < 4 then
              "U(1)"  // row 3, line 58
            else
              if i < 5 then
                "U(1)"  // row 4, line 59
              else
                "U(1)"  // row 5, line 60
        else
          if i < 9 then
            if i < 7 then
              "U(1)"  // row 6, line 61
            else
              if i < 8 then
                "U(1)"  // row 7, line 62
              else
                "U(1)"  // row 8, line 63
          else
            if i < 11 then
              if i < 10 then
                "U(1)"  // row 9, line 64
              else
                "U(1)"  // row 10, line 65
            else
              if i < 12 then
                "U(1)"  // row 11, line 66
              else
                "U(1)"  // row 12, line 67
      else
        if i < 19 then
          if i < 16 then
            if i < 14 then
              "U(1)"  // row 13, line 68
            else
              if i < 15 then
                "U(1)"  // row 14, line 69
              else
                "U(1)"  // row 15, line 70
          else
            if i < 17 then
              "U(1)"  // row 16, line 71
            else
              if i < 18 then
                "U(1)"  // row 17, line 72
              else
                "U(1)"  // row 18, line 73
        else
          if i < 22 then
            if i < 20 then
              "U(1)"  // row 19, line 74
            else
              if i < 21 then
                "U(1)"  // row 20, line 75
              else
                "U(1)"  // row 21, line 76
          else
            if i < 24 then
              if i < 23 then
                "U(1)"  // row 22, line 77
              else
                "U(1)"  // row 23, line 78
            else
              if i < 25 then
                "U(1)"  // row 24, line 79
              else
                "U(1)"  // row 25, line 80
    else
      if i < 39 then
        if i < 32 then
          if i < 29 then
            if i < 27 then
              "U(1)"  // row 26, line 81
            else
              if i < 28 then
                "U(1)"  // row 27, line 82
              else
                "U(1)"  // row 28, line 83
          else
            if i < 30 then
              "U(1)"  // row 29, line 84
            else
              if i < 31 then
                "U(1)"  // row 30, line 85
              else
                "U(1)"  // row 31, line 86
        else
          if i < 35 then
            if i < 33 then
              "SU(2)"  // row 32, line 87
            else
              if i < 34 then
                "SU(2)"  // row 33, line 88
              else
                "SU(2)"  // row 34, line 89
          else
            if i < 37 then
              if i < 36 then
                "SU(2)"  // row 35, line 90
              else
                "SU(2)"  // row 36, line 91
            else
              if i < 38 then
                "SU(2)"  // row 37, line 92
              else
                "SU(2)"  // row 38, line 93
      else
        if i < 45 then
          if i < 42 then
            if i < 40 then
              "SU(2)"  // row 39, line 94
            else
              if i < 41 then
                "SU(2)"  // row 40, line 95
              else
                "SU(2)"  // row 41, line 96
          else
            if i < 43 then
              "U(1)xU(1)"  // row 42, line 97
            else
              if i < 44 then
                "U(1)xU(1)"  // row 43, line 98
              else
                "U(1)xU(1)"  // row 44, line 99
        else
          if i < 48 then
            if i < 46 then
              "U(1)xU(1)"  // row 45, line 100
            else
              if i < 47 then
                "U(1)xU(1)"  // row 46, line 101
              else
                "U(1)xSU(2)"  // row 47, line 102
          else
            if i < 50 then
              if i < 49 then
                "U(1)xSU(2)"  // row 48, line 103
              else
                "SU(2)xSU(2)"  // row 49, line 104
            else
              if i < 51 then
                "SU(2)xSU(2)"  // row 50, line 105
              else
                "USp(4)"  // row 51, line 106
  }

  /** Column `component_group` of g2sigtab. */
  function G2ComponentGroup(i: int): string
    requires 0 <= i < G2Groups
  {
    if i < 26 then
      if i < 13 then
        if i < 6 then
          if i < 3 then
            if i < 1 then
              "C_1"  // row 0, line 55
            else
              if i < 2 then
                "C_2"  // row 1, line 56
              else
                "C_3"  // row 2, line 57
          else
            if i < 4 then
              "C_4"  // row 3, line 58
            else
              if i < 5 then
                "C_6"  // row 4, line 59
              else
                "D_2"  // row 5, line 60
        else
          if i < 9 then
            if i < 7 then
              "D_3"  // row 6, line 61
            else
              if i < 8 then
                "D_4"  // row 7, line 62
              else
                "D_6"  // row 8, line 63
          else
            if i < 11 then
              if i < 10 then
                "A_4"  // row 9, line 64
              else
                "S_4"  // row 10, line 65
            else
              if i < 12 then
                "C_2"  // row 11, line 66
              else
                "D_2"  // row 12, line 67
      else
        if i < 19 then
          if i < 16 then
            if i < 14 then
              "C_6"  // row 13, line 68
            else
              if i < 15 then
                "C_4xC_2"  // row 14, line 69
              else
                "C_6xC_2"  // row 15, line 70
          else
            if i < 17 then
              "D_2xC_2"  // row 16, line 71
            else
              if i < 18 then
                "D_6"  // row 17, line 72
              else
                "D_4xC_2"  // row 18, line 73
        else
          if i < 22 then
            if i < 20 then
              "D_6xC_2"  // row 19, line 74
            else
              if i < 21 then
                "A_4xC_2"  // row 20, line 75
              else
                "S_4xC_2"  // row 21, line 76
          else
            if i < 24 then
              if i < 23 then
                "C_2"  // row 22, line 77
              else
                "C_4"  // row 23, line 78
            else
              if i < 25 then
                "C_6"  // row 24, line 79
              else
                "D_2"  // row 25, line 80
    else
      if i < 39 then
        if i < 32 then
          if i < 29 then
            if i < 27 then
              "D_4"  // row 26, line 81
            else
              if i < 28 then
                "D_6"  // row 27, line 82
              else
                "D_3"  // row 28, line 83
          else
            if i < 30 then
              "D_4"  // row 29, line 84
            else
              if i < 31 then
                "D_6"  // row 30, line 85
              else
                "S_4"  // row 31, line 86
        else
          if i < 35 then
            if i < 33 then
              "C_1"  // row 32, line 87
            else
              if i < 34 then
                "C_2"  // row 33, line 88
              else
                "C_3"  // row 34, line 89
          else
            if i < 37 then
              if i < 36 then
                "C_4"  // row 35, line 90
              else
                "C_6"  // row 36, line 91
            else
              if i < 38 then
                "C_2"  // row 37, line 92
              else
                "D_2"  // row 38, line 93
      else
        if i < 45 then
          if i < 42 then
            if i < 40 then
              "D_3"  // row 39, line 94
            else
              if i < 41 then
                "D_4"  // row 40, line 95
              else
                "D_6"  // row 41, line 96
          else
            if i < 43 then
              "C_1"  // row 42, line 97
            else
              if i < 44 then
                "C_2"  // row 43, line 98
              else
                "C_2"  // row 44, line 99
        else
          if i < 48 then
            if i < 46 then
              "C_4"  // row 45, line 100
            else
              if i < 47 then
                "D_2"  // row 46, line 101
              else
                "C_1"  // row 47, line 102
          else
            if i < 50 then
              if i < 49 then
                "C_2"  // row 48, line 103
              else
                "C_1"  // row 49, line 104
            else
              if i < 51 then
                "C_2"  // row 50, line 105
              else
                "C_1"  // row 51, line 106
  }

  /** Column `components` of g2sigtab. */
  function G2Components(i: int): int
    requires 0 <= i < G2Groups
  {
    if i < 26 then
      if i < 13 then
        if i < 6 then
          if i < 3 then
            if i < 1 then
              1  // row 0, line 55
            else
              if i < 2 then
                2  // row 1, line 56
              else
                3  // row 2, line 57
          else
            if i < 4 then
              4  // row 3, line 58
            else
              if i < 5 then
                6  // row 4, line 59
              else
                4  // row 5, line 60
        else
          if i < 9 then
            if i < 7 then
              6  // row 6, line 61
            else
              if i < 8 then
                8  // row 7, line 62
              else
                12  // row 8, line 63
          else
            if i < 11 then
              if i < 10 then
                12  // row 9, line 64
              else
                24  // row 10, line 65
            else
              if i < 12 then
                2  // row 11, line 66
              else
                4  // row 12, line 67
      else
        if i < 19 then
          if i < 16 then
            if i < 14 then
              6  // row 13, line 68
            else
              if i < 15 then
                8  // row 14, line 69
              else
                12  // row 15, line 70
          else
            if i < 17 then
              8  // row 16, line 71
            else
              if i < 18 then
                12  // row 17, line 72
              else
                16  // row 18, line 73
        else
          if i < 22 then
            if i < 20 then
              24  // row 19, line 74
            else
              if i < 21 then
                24  // row 20, line 75
              else
                48  // row 21, line 76
          else
            if i < 24 then
              if i < 23 then
                2  // row 22, line 77
              else
                4  // row 23, line 78
            else
              if i < 25 then
                6  // row 24, line 79
              else
                4  // row 25, line 80
    else
      if i < 39 then
        if i < 32 then
          if i < 29 then
            if i < 27 then
              8  // row 26, line 81
            else
              if i < 28 then
                12  // row 27, line 82
              else
                6  // row 28, line 83
          else
            if i < 30 then
              8  // row 29, line 84
            else
              if i < 31 then
                12  // row 30, line 85
              else
                24  // row 31, line 86
        else
          if i < 35 then
            if i < 33 then
              1  // row 32, line 87
            else
              if i < 34 then
                2  // row 33, line 88
              else
                3  // row 34, line 89
          else
            if i < 37 then
              if i < 36 then
                4  // row 35, line 90
              else
                6  // row 36, line 91
            else
              if i < 38 then
                2  // row 37, line 92
              else
                4  // row 38, line 93
      else
        if i < 45 then
          if i < 42 then
            if i < 40 then
              6  // row 39, line 94
            else
              if i < 41 then
                8  // row 40, line 95
              else
                12  // row 41, line 96
          else
            if i < 43 then
              1  // row 42, line 97
            else
              if i < 44 then
                2  // row 43, line 98
              else
                2  // row 44, line 99
        else
          if i < 48 then
            if i < 46 then
              4  // row 45, line 100
            else
              if i < 47 then
                4  // row 46, line 101
              else
                1  // row 47, line 102
          else
            if i < 50 then
              if i < 49 then
                2  // row 48, line 103
              else
                1  // row 49, line 104
            else
              if i < 51 then
                2  // row 50, line 105
              else
                1  // row 51, line 106
  }

  /** Column `z1` of g2sigtab. */
  function G2Z1(i: int): int
    requires 0 <= i < G2Groups
  {
    if i < 26 then
      if i < 13 then
        if i < 6 then
          if i < 3 then
            if i < 1 then
              0  // row 0, line 55
            else
              if i < 2 then
                1  // row 1, line 56
              else
                0  // row 2, line 57
          else
            if i < 4 then
              1  // row 3, line 58
            else
              if i < 5 then
                1  // row 4, line 59
              else
                3  // row 5, line 60
        else
          if i < 9 then
            if i < 7 then
              3  // row 6, line 61
            else
              if i < 8 then
                5  // row 7, line 62
              else
                7  // row 8, line 63
          else
            if i < 11 then
              if i < 10 then
                3  // row 9, line 64
              else
                9  // row 10, line 65
            else
              if i < 12 then
                1  // row 11, line 66
              else
                3  // row 12, line 67
      else
        if i < 19 then
          if i < 16 then
            if i < 14 then
              3  // row 13, line 68
            else
              if i < 15 then
                5  // row 14, line 69
              else
                7  // row 15, line 70
          else
            if i < 17 then
              7  // row 16, line 71
            else
              if i < 18 then
                9  // row 17, line 72
              else
                13  // row 18, line 73
        else
          if i < 22 then
            if i < 20 then
              19  // row 19, line 74
            else
              if i < 21 then
                15  // row 20, line 75
              else
                33  // row 21, line 76
          else
            if i < 24 then
              if i < 23 then
                1  // row 22, line 77
              else
                3  // row 23, line 78
            else
              if i < 25 then
                3  // row 24, line 79
              else
                3  // row 25, line 80
    else
      if i < 39 then
        if i < 32 then
          if i < 29 then
            if i < 27 then
              7  // row 26, line 81
            else
              if i < 28 then
                9  // row 27, line 82
              else
                3  // row 28, line 83
          else
            if i < 30 then
              5  // row 29, line 84
            else
              if i < 31 then
                7  // row 30, line 85
              else
                15  // row 31, line 86
        else
          if i < 35 then
            if i < 33 then
              0  // row 32, line 87
            else
              if i < 34 then
                1  // row 33, line 88
              else
                0  // row 34, line 89
          else
            if i < 37 then
              if i < 36 then
                1  // row 35, line 90
              else
                1  // row 36, line 91
            else
              if i < 38 then
                1  // row 37, line 92
              else
                3  // row 38, line 93
      else
        if i < 45 then
          if i < 42 then
            if i < 40 then
              3  // row 39, line 94
            else
              if i < 41 then
                5  // row 40, line 95
              else
                7  // row 41, line 96
          else
            if i < 43 then
              0  // row 42, line 97
            else
              if i < 44 then
                0  // row 43, line 98
              else
                1  // row 44, line 99
        else
          if i < 48 then
            if i < 46 then
              3  // row 45, line 100
            else
              if i < 47 then
                1  // row 46, line 101
              else
                0  // row 47, line 102
          else
            if i < 50 then
              if i < 49 then
                0  // row 48, line 103
              else
                0  // row 49, line 104
            else
              if i < 51 then
                1  // row 50, line 105
              else
                0  // row 51, line 106
  }

  /** Column `z2` of g2sigtab. */
  function G2Z2(i: int): seq<int>
    requires 0 <= i < G2Groups
  {
    if i < 26 then
      if i < 13 then
        if i < 6 then
          if i < 3 then
            if i < 1 then
              [0, 0, 0, 0, 0]  // row 0, line 55
            else
              if i < 2 then
                [0, 0, 0, 0, 0]  // row 1, line 56
              else
                [0, 0, 0, 0, 0]  // row 2, line 57
          else
            if i < 4 then
              [0, 0, 0, 0, 0]  // row 3, line 58
            else
              if i < 5 then
                [0, 0, 0, 0, 0]  // row 4, line 59
              else
                [0, 0, 0, 0, 0]  // row 5, line 60
        else
          if i < 9 then
            if i < 7 then
              [0, 0, 0, 0, 0]  // row 6, line 61
            else
              if i < 8 then
                [0, 0, 0, 0, 0]  // row 7, line 62
              else
                [0, 0, 0, 0, 0]  // row 8, line 63
          else
            if i < 11 then
              if i < 10 then
                [0, 0, 0, 0, 0]  // row 9, line 64
              else
                [0, 0, 0, 0, 0]  // row 10, line 65
            else
              if i < 12 then
                [1, 0, 0, 0, 0]  // row 11, line 66
              else
                [1, 0, 0, 0, 1]  // row 12, line 67
      else
        if i < 19 then
          if i < 16 then
            if i < 14 then
              [1, 0, 0, 2, 0]  // row 13, line 68
            else
              if i < 15 then
                [1, 0, 2, 0, 1]  // row 14, line 69
              else
                [1, 2, 0, 2, 1]  // row 15, line 70
          else
            if i < 17 then
              [1, 0, 0, 0, 3]  // row 16, line 71
            else
              if i < 18 then
                [1, 0, 0, 2, 3]  // row 17, line 72
              else
                [1, 0, 2, 0, 5]  // row 18, line 73
        else
          if i < 22 then
            if i < 20 then
              [1, 2, 0, 2, 7]  // row 19, line 74
            else
              if i < 21 then
                [1, 0, 0, 8, 3]  // row 20, line 75
              else
                [1, 0, 6, 8, 9]  // row 21, line 76
          else
            if i < 24 then
              if i < 23 then
                [0, 0, 0, 0, 1]  // row 22, line 77
              else
                [0, 0, 2, 0, 0]  // row 23, line 78
            else
              if i < 25 then
                [0, 2, 0, 0, 1]  // row 24, line 79
              else
                [0, 0, 0, 0, 2]  // row 25, line 80
    else
      if i < 39 then
        if i < 32 then
          if i < 29 then
            if i < 27 then
              [0, 0, 2, 0, 2]  // row 26, line 81
            else
              if i < 28 then
                [0, 2, 0, 0, 4]  // row 27, line 82
              else
                [0, 0, 0, 0, 3]  // row 28, line 83
          else
            if i < 30 then
              [0, 0, 0, 0, 4]  // row 29, line 84
            else
              if i < 31 then
                [0, 0, 0, 0, 6]  // row 30, line 85
              else
                [0, 0, 6, 0, 6]  // row 31, line 86
        else
          if i < 35 then
            if i < 33 then
              [0, 0, 0, 0, 0]  // row 32, line 87
            else
              if i < 34 then
                [0, 0, 0, 0, 0]  // row 33, line 88
              else
                [0, 0, 0, 0, 0]  // row 34, line 89
          else
            if i < 37 then
              if i < 36 then
                [0, 0, 0, 0, 0]  // row 35, line 90
              else
                [0, 0, 0, 0, 0]  // row 36, line 91
            else
              if i < 38 then
                [0, 0, 0, 0, 0]  // row 37, line 92
              else
                [0, 0, 0, 0, 0]  // row 38, line 93
      else
        if i < 45 then
          if i < 42 then
            if i < 40 then
              [0, 0, 0, 0, 0]  // row 39, line 94
            else
              if i < 41 then
                [0, 0, 0, 0, 0]  // row 40, line 95
              else
                [0, 0, 0, 0, 0]  // row 41, line 96
          else
            if i < 43 then
              [0, 0, 0, 0, 0]  // row 42, line 97
            else
              if i < 44 then
                [0, 0, 0, 0, 1]  // row 43, line 98
              else
                [0, 0, 0, 0, 1]  // row 44, line 99
        else
          if i < 48 then
            if i < 46 then
              [0, 0, 2, 0, 1]  // row 45, line 100
            else
              if i < 47 then
                [0, 0, 0, 0, 3]  // row 46, line 101
              else
                [0, 0, 0, 0, 0]  // row 47, line 102
          else
            if i < 50 then
              if i < 49 then
                [0, 0, 0, 0, 1]  // row 48, line 103
              else
                [0, 0, 0, 0, 0]  // row 49, line 104
            else
              if i < 51 then
                [0, 0, 0, 0, 0]  // row 50, line 105
              else
                [0, 0, 0, 0, 0]  // row 51, line 106
  }

  /** Column `a1moments` of g2sigtab: E[a1^k] for k = 0..MaxMoment. */
  function G2A1Moments(i: int): seq<int>
    requires 0 <= i < G2Groups
  {
    if i < 26 then
      if i < 13 then
        if i < 6 then
          if i < 3 then
            if i < 1 then
              [1, 0, 8, 0, 96, 0, 1280, 0, 17920, 0, 258048, 0, 3784704, 0, 56229888, 0, 843448320, 0, 12745441280, 0, 193730707456]  // row 0, line 55
            else
              if i < 2 then
                [1, 0, 4, 0, 48, 0, 640, 0, 8960, 0, 129024, 0, 1892352, 0, 28114944, 0, 421724160, 0, 6372720640, 0, 96865353728]  // row 1, line 56
              else
                [1, 0, 4, 0, 36, 0, 440, 0, 6020, 0, 86184, 0, 1262184, 0, 18745584, 0, 281158020, 0, 4248512840, 0, 64577025656]  // row 2, line 57
          else
            if i < 4 then
              [1, 0, 4, 0, 36, 0, 400, 0, 5040, 0, 68544, 0, 975744, 0, 14277120, 0, 212509440, 0, 3198807040, 0, 48527271936]  // row 3, line 58
            else
              if i < 5 then
                [1, 0, 4, 0, 36, 0, 400, 0, 4900, 0, 63504, 0, 855624, 0, 11874720, 0, 168725700, 0, 2443252240, 0, 35925065176]  // row 4, line 59
              else
                [1, 0, 2, 0, 24, 0, 320, 0, 4480, 0, 64512, 0, 946176, 0, 14057472, 0, 210862080, 0, 3186360320, 0, 48432676864]  // row 5, line 60
        else
          if i < 9 then
            if i < 7 then
              [1, 0, 2, 0, 18, 0, 220, 0, 3010, 0, 43092, 0, 631092, 0, 9372792, 0, 140579010, 0, 2124256420, 0, 32288512828]  // row 6, line 61
            else
              if i < 8 then
                [1, 0, 2, 0, 18, 0, 200, 0, 2520, 0, 34272, 0, 487872, 0, 7138560, 0, 106254720, 0, 1599403520, 0, 24263635968]  // row 7, line 62
              else
                [1, 0, 2, 0, 18, 0, 200, 0, 2450, 0, 31752, 0, 427812, 0, 5937360, 0, 84362850, 0, 1221626120, 0, 17962532588]  // row 8, line 63
          else
            if i < 11 then
              if i < 10 then
                [1, 0, 2, 0, 12, 0, 120, 0, 1540, 0, 21672, 0, 316008, 0, 4688112, 0, 70295940, 0, 1062152520, 0, 16144348792]  // row 9, line 64
              else
                [1, 0, 2, 0, 12, 0, 100, 0, 1050, 0, 12852, 0, 172788, 0, 2453880, 0, 35971650, 0, 537299620, 0, 8119471932]  // row 10, line 65
            else
              if i < 12 then
                [1, 0, 4, 0, 48, 0, 640, 0, 8960, 0, 129024, 0, 1892352, 0, 28114944, 0, 421724160, 0, 6372720640, 0, 96865353728]  // row 11, line 66
              else
                [1, 0, 2, 0, 24, 0, 320, 0, 4480, 0, 64512, 0, 946176, 0, 14057472, 0, 210862080, 0, 3186360320, 0, 48432676864]  // row 12, line 67
      else
        if i < 19 then
          if i < 16 then
            if i < 14 then
              [1, 0, 2, 0, 18, 0, 220, 0, 3010, 0, 43092, 0, 631092, 0, 9372792, 0, 140579010, 0, 2124256420, 0, 32288512828]  // row 13, line 68
            else
              if i < 15 then
                [1, 0, 2, 0, 18, 0, 200, 0, 2520, 0, 34272, 0, 487872, 0, 7138560, 0, 106254720, 0, 1599403520, 0, 24263635968]  // row 14, line 69
              else
                [1, 0, 2, 0, 18, 0, 200, 0, 2450, 0, 31752, 0, 427812, 0, 5937360, 0, 84362850, 0, 1221626120, 0, 17962532588]  // row 15, line 70
          else
            if i < 17 then
              [1, 0, 1, 0, 12, 0, 160, 0, 2240, 0, 32256, 0, 473088, 0, 7028736, 0, 105431040, 0, 1593180160, 0, 24216338432]  // row 16, line 71
            else
              if i < 18 then
                [1, 0, 1, 0, 9, 0, 110, 0, 1505, 0, 21546, 0, 315546, 0, 4686396, 0, 70289505, 0, 1062128210, 0, 16144256414]  // row 17, line 72
              else
                [1, 0, 1, 0, 9, 0, 100, 0, 1260, 0, 17136, 0, 243936, 0, 3569280, 0, 53127360, 0, 799701760, 0, 12131817984]  // row 18, line 73
        else
          if i < 22 then
            if i < 20 then
              [1, 0, 1, 0, 9, 0, 100, 0, 1225, 0, 15876, 0, 213906, 0, 2968680, 0, 42181425, 0, 610813060, 0, 8981266294]  // row 19, line 74
            else
              if i < 21 then
                [1, 0, 1, 0, 6, 0, 60, 0, 770, 0, 10836, 0, 158004, 0, 2344056, 0, 35147970, 0, 531076260, 0, 8072174396]  // row 20, line 75
              else
                [1, 0, 1, 0, 6, 0, 50, 0, 525, 0, 6426, 0, 86394, 0, 1226940, 0, 17985825, 0, 268649810, 0, 4059735966]  // row 21, line 76
          else
            if i < 24 then
              if i < 23 then
                [1, 0, 4, 0, 48, 0, 640, 0, 8960, 0, 129024, 0, 1892352, 0, 28114944, 0, 421724160, 0, 6372720640, 0, 96865353728]  // row 22, line 77
              else
                [1, 0, 2, 0, 24, 0, 320, 0, 4480, 0, 64512, 0, 946176, 0, 14057472, 0, 210862080, 0, 3186360320, 0, 48432676864]  // row 23, line 78
            else
              if i < 25 then
                [1, 0, 2, 0, 18, 0, 220, 0, 3010, 0, 43092, 0, 631092, 0, 9372792, 0, 140579010, 0, 2124256420, 0, 32288512828]  // row 24, line 79
              else
                [1, 0, 2, 0, 24, 0, 320, 0, 4480, 0, 64512, 0, 946176, 0, 14057472, 0, 210862080, 0, 3186360320, 0, 48432676864]  // row 25, line 80
    else
      if i < 39 then
        if i < 32 then
          if i < 29 then
            if i < 27 then
              [1, 0, 1, 0, 12, 0, 160, 0, 2240, 0, 32256, 0, 473088, 0, 7028736, 0, 105431040, 0, 1593180160, 0, 24216338432]  // row 26, line 81
            else
              if i < 28 then
                [1, 0, 1, 0, 9, 0, 110, 0, 1505, 0, 21546, 0, 315546, 0, 4686396, 0, 70289505, 0, 1062128210, 0, 16144256414]  // row 27, line 82
              else
                [1, 0, 2, 0, 18, 0, 220, 0, 3010, 0, 43092, 0, 631092, 0, 9372792, 0, 140579010, 0, 2124256420, 0, 32288512828]  // row 28, line 83
          else
            if i < 30 then
              [1, 0, 2, 0, 18, 0, 200, 0, 2520, 0, 34272, 0, 487872, 0, 7138560, 0, 106254720, 0, 1599403520, 0, 24263635968]  // row 29, line 84
            else
              if i < 31 then
                [1, 0, 2, 0, 18, 0, 200, 0, 2450, 0, 31752, 0, 427812, 0, 5937360, 0, 84362850, 0, 1221626120, 0, 17962532588]  // row 30, line 85
              else
                [1, 0, 1, 0, 6, 0, 60, 0, 770, 0, 10836, 0, 158004, 0, 2344056, 0, 35147970, 0, 531076260, 0, 8072174396]  // row 31, line 86
        else
          if i < 35 then
            if i < 33 then
              [1, 0, 4, 0, 32, 0, 320, 0, 3584, 0, 43008, 0, 540672, 0, 7028736, 0, 93716480, 0, 1274544128, 0, 17611882496]  // row 32, line 87
            else
              if i < 34 then
                [1, 0, 2, 0, 16, 0, 160, 0, 1792, 0, 21504, 0, 270336, 0, 3514368, 0, 46858240, 0, 637272064, 0, 8805941248]  // row 33, line 88
              else
                [1, 0, 2, 0, 12, 0, 110, 0, 1204, 0, 14364, 0, 180312, 0, 2343198, 0, 31239780, 0, 424851284, 0, 5870638696]  // row 34, line 89
          else
            if i < 37 then
              if i < 36 then
                [1, 0, 2, 0, 12, 0, 100, 0, 1008, 0, 11424, 0, 139392, 0, 1784640, 0, 23612160, 0, 319880704, 0, 4411570176]  // row 35, line 90
              else
                [1, 0, 2, 0, 12, 0, 100, 0, 980, 0, 10584, 0, 122232, 0, 1484340, 0, 18747300, 0, 244325224, 0, 3265915016]  // row 36, line 91
            else
              if i < 38 then
                [1, 0, 2, 0, 16, 0, 160, 0, 1792, 0, 21504, 0, 270336, 0, 3514368, 0, 46858240, 0, 637272064, 0, 8805941248]  // row 37, line 92
              else
                [1, 0, 1, 0, 8, 0, 80, 0, 896, 0, 10752, 0, 135168, 0, 1757184, 0, 23429120, 0, 318636032, 0, 4402970624]  // row 38, line 93
      else
        if i < 45 then
          if i < 42 then
            if i < 40 then
              [1, 0, 1, 0, 6, 0, 55, 0, 602, 0, 7182, 0, 90156, 0, 1171599, 0, 15619890, 0, 212425642, 0, 2935319348]  // row 39, line 94
            else
              if i < 41 then
                [1, 0, 1, 0, 6, 0, 50, 0, 504, 0, 5712, 0, 69696, 0, 892320, 0, 11806080, 0, 159940352, 0, 2205785088]  // row 40, line 95
              else
                [1, 0, 1, 0, 6, 0, 50, 0, 490, 0, 5292, 0, 61116, 0, 742170, 0, 9373650, 0, 122162612, 0, 1632957508]  // row 41, line 96
          else
            if i < 43 then
              [1, 0, 3, 0, 21, 0, 210, 0, 2485, 0, 31878, 0, 427350, 0, 5891028, 0, 82824885, 0, 1181976510, 0, 17067482146]  // row 42, line 97
            else
              if i < 44 then
                [1, 0, 3, 0, 21, 0, 210, 0, 2485, 0, 31878, 0, 427350, 0, 5891028, 0, 82824885, 0, 1181976510, 0, 17067482146]  // row 43, line 98
              else
                [1, 0, 2, 0, 18, 0, 200, 0, 2450, 0, 31752, 0, 426888, 0, 5889312, 0, 82818450, 0, 1181952200, 0, 17067389768]  // row 44, line 99
        else
          if i < 48 then
            if i < 46 then
              [1, 0, 1, 0, 9, 0, 100, 0, 1225, 0, 15876, 0, 213444, 0, 2944656, 0, 41409225, 0, 590976100, 0, 8533694884]  // row 45, line 100
            else
              if i < 47 then
                [6, 0, 1, 0, 9, 0, 100, 0, 1225, 0, 15876, 0, 213444, 0, 2944656, 0, 41409225, 0, 590976100, 0, 8533694884]  // row 46, line 101
              else
                [1, 0, 3, 0, 20, 0, 175, 0, 1764, 0, 19404, 0, 226512, 0, 2760615, 0, 34763300, 0, 449141836, 0, 5924217936]  // row 47, line 102
          else
            if i < 50 then
              if i < 49 then
                [1, 0, 2, 0, 11, 0, 90, 0, 889, 0, 9723, 0, 113322, 0, 1380522, 0, 17382365, 0, 224573349, 0, 2962117366]  // row 48, line 103
              else
                [1, 0, 2, 0, 10, 0, 70, 0, 588, 0, 5544, 0, 56628, 0, 613470, 0, 6952660, 0, 81662152, 0, 987369656]  // row 49, line 104
            else
              if i < 51 then
                [1, 0, 1, 0, 5, 0, 35, 0, 294, 0, 2772, 0, 28314, 0, 306735, 0, 3476330, 0, 40831076, 0, 493684828]  // row 50, line 105
              else
                [1, 0, 1, 0, 3, 0, 14, 0, 84, 0, 594, 0, 4719, 0, 40898, 0, 379236, 0, 3711916, 0, 37975756]  // row 51, line 106
  }

  /** Column `a2moments` of g2sigtab: E[a2^k] for k = 0..MaxMoment. */
  function G2A2Moments(i: int): seq<int>
    requires 0 <= i < G2Groups
  {
    if i < 26 then
      if i < 13 then
        if i < 6 then
          if i < 3 then
            if i < 1 then
              [1, 4, 18, 88, 454, 2424, 13236, 73392, 411462, 2325976, 13233628, 75682512, 434662684, 2505229744, 14482673832, 83940771168, 487610895942, 2838118247064, 16547996212044, 96635257790352, 565107853947444]  // row 0, line 55
            else
              if i < 2 then
                [1, 2, 10, 44, 230, 1212, 6628, 36696, 205766, 1162988, 6616940, 37841256, 217331804, 1252614872, 7241338632, 41970385584, 243805454406, 1419059123532, 8273998130332, 48317628895176, 282553927066100]  // row 1, line 56
              else
                [1, 2, 8, 34, 164, 842, 4506, 24726, 137892, 777418, 4417178, 25244606, 144936754, 835218542, 4827968762, 27981448794, 162540429732, 946049505642, 5516028172554, 32211838594686, 188369536235394]  // row 2, line 57
          else
            if i < 4 then
              [1, 2, 8, 32, 150, 732, 3776, 20064, 109318, 605804, 3400848, 19273344, 110017980, 631507736, 3640727616, 21062751552, 122203267398, 710696364876, 4141536632816, 24176487079488, 141345886797460]  // row 3, line 58
            else
              if i < 5 then
                [1, 2, 8, 32, 148, 712, 3586, 18524, 97796, 524744, 2854258, 15701644, 87215618, 488476276, 2755532578, 15640987932, 89261369316, 511795517256, 2946440889922, 17023077481868, 98655116249138]  // row 4, line 59
              else
                [1, 1, 6, 22, 118, 606, 3324, 18348, 102918, 581494, 3308596, 18920628, 108666364, 626307436, 3620671032, 20985192792, 121902733638, 709529561766, 4136999089476, 24158814447588, 141276963625428]  // row 5, line 60
        else
          if i < 9 then
            if i < 7 then
              [1, 1, 5, 17, 85, 421, 2263, 12363, 68981, 388709, 2208715, 12622303, 72468839, 417609271, 2413986097, 13990724397, 81270221301, 473024752821, 2758014110587, 16105919297343, 94184768210075]  // row 6, line 61
            else
              if i < 8 then
                [1, 1, 5, 16, 78, 366, 1898, 10032, 54694, 302902, 1700550, 9636672, 55009452, 315753868, 1820365524, 10531375776, 61101640134, 355348182438, 2070768340718, 12088243539744, 70672943491108]  // row 7, line 62
              else
                [1, 1, 5, 16, 77, 356, 1803, 9262, 48933, 262372, 1427255, 7850822, 43608271, 244238138, 1377768005, 7820493966, 44630691093, 255897758628, 1473220469271, 8511538740934, 49327558216947]  // row 8, line 63
          else
            if i < 11 then
              if i < 10 then
                [1, 1, 4, 12, 52, 236, 1202, 6378, 35044, 195924, 1108834, 6323978, 36271314, 208911106, 1207301162, 6996256002, 40637708964, 236519943876, 1379029131698, 8053024147098, 47092572794722]  // row 9, line 64
              else
                [1, 1, 4, 11, 45, 181, 837, 4047, 20757, 110117, 600669, 3338347, 18811927, 107055703, 613680589, 3536907381, 20469127797, 118843373493, 691783361829, 4035348389499, 23580748075755]  // row 10, line 65
            else
              if i < 12 then
                [1, 1, 11, 40, 235, 1196, 6650, 36632, 205859, 1162732, 6617326, 37840232, 217333390, 1252610776, 7241345108, 41970369200, 243805480739, 1419059057996, 8273998237094, 48317628633032, 282553927498010]  // row 11, line 66
              else
                [1, 1, 7, 22, 123, 606, 3346, 18348, 103011, 581494, 3308982, 18920628, 108667950, 626307436, 3620677508, 20985192792, 121902759971, 709529561766, 4136999196238, 24158814447588, 141276964057338]  // row 12, line 67
      else
        if i < 19 then
          if i < 16 then
            if i < 14 then
              [1, 1, 5, 16, 85, 416, 2264, 12342, 68989, 388624, 2208760, 12621962, 72469060, 417607906, 2413987112, 13990718936, 81270225789, 473024730976, 2758014129968, 16105919209962, 94184768292460]  // row 13, line 68
            else
              if i < 15 then
                [1, 1, 5, 16, 79, 366, 1904, 10032, 54723, 302902, 1700680, 9636672, 55010014, 315753868, 1820367904, 10531375776, 61101650083, 355348182438, 2070768381944, 12088243539744, 70672943660874]  // row 14, line 69
              else
                [1, 1, 5, 16, 77, 356, 1804, 9262, 48941, 262372, 1427300, 7850822, 43608492, 244238138, 1377769020, 7820493966, 44630695581, 255897758628, 1473220488652, 8511538740934, 49327558299332]  // row 15, line 70
          else
            if i < 17 then
              [1, 1, 5, 13, 67, 311, 1694, 9206, 51587, 290875, 1654810, 9460826, 54335230, 313155766, 1810343708, 10492604588, 60951399587, 354764813651, 2068499675810, 12079407354866, 70638482337002]  // row 16, line 71
            else
              if i < 18 then
                [1, 1, 4, 10, 48, 216, 1153, 6203, 34576, 194440, 1104699, 6311493, 36235785, 208806001, 1206998510, 6995367660, 40635132496, 236512398256, 1379007142675, 8052959736053, 47092384454563]  // row 17, line 72
              else
                [1, 1, 4, 10, 45, 191, 973, 5048, 27443, 151579, 850659, 4818848, 27506262, 157878982, 910188906, 5265696080, 30550844643, 177674123987, 1035384268663, 6044121900944, 35336472138770]  // row 18, line 73
        else
          if i < 22 then
            if i < 20 then
              [1, 1, 4, 10, 44, 186, 923, 4663, 24552, 131314, 713969, 3925923, 21805501, 122121117, 688889464, 3910255175, 22315367392, 127948912082, 736610322017, 4255769501539, 24663779457999]  // row 19, line 74
            else
              if i < 21 then
                [1, 1, 3, 7, 29, 121, 612, 3200, 17565, 98005, 554588, 3162160, 18136340, 104456236, 603653312, 3498130732, 20318865405, 118259982861, 689514609540, 4026512117240, 23546286572124]  // row 20, line 75
              else
                [1, 1, 3, 7, 26, 96, 432, 2045, 10432, 55144, 300548, 1669515, 9406817, 53529217, 306843708, 1768459152, 10234577552, 59421708592, 345891735528, 2017674282131, 11790374256331]  // row 21, line 76
          else
            if i < 24 then
              if i < 23 then
                [1, 3, 11, 48, 235, 1228, 6650, 36760, 205859, 1163244, 6617326, 37842280, 217333390, 1252618968, 7241345108, 41970401968, 243805480739, 1419059189068, 8273998237094, 48317629157320, 282553927498010]  // row 22, line 77
              else
                [1, 1, 5, 22, 115, 606, 3314, 18348, 102883, 581494, 3308470, 18920628, 108665902, 626307436, 3620669316, 20985192792, 121902727203, 709529561766, 4136999065166, 24158814447588, 141276963533050]  // row 23, line 78
            else
              if i < 25 then
                [1, 1, 5, 18, 85, 426, 2264, 12384, 68989, 388794, 2208760, 12622644, 72469060, 417610636, 2413987112, 13990729858, 81270225789, 473024774666, 2758014129968, 16105919384724, 94184768292460]  // row 24, line 79
              else
                [1, 2, 7, 26, 123, 622, 3346, 18412, 103011, 581750, 3308982, 18921652, 108667950, 626311532, 3620677508, 20985209176, 121902759971, 709529627302, 4136999196238, 24158814709732, 141276964057338]  // row 25, line 80
    else
      if i < 39 then
        if i < 32 then
          if i < 29 then
            if i < 27 then
              [1, 1, 4, 13, 63, 311, 1678, 9206, 51523, 290875, 1654554, 9460826, 54334206, 313155766, 1810339612, 10492604588, 60951383203, 354764813651, 2068499610274, 12079407354866, 70638482074858]  // row 26, line 81
            else
              if i < 28 then
                [1, 1, 4, 11, 48, 221, 1153, 6224, 34576, 194525, 1104699, 6311834, 36235785, 208807366, 1206998510, 6995373121, 40635132496, 236512420101, 1379007142675, 8052959823434, 47092384454563]  // row 27, line 82
              else
                [1, 2, 6, 21, 90, 437, 2285, 12427, 69074, 388965, 2209101, 12623327, 72470425, 417613367, 2413992573, 13990740781, 81270247634, 473024818357, 2758014217349, 16105919559487, 94184768641985]  // row 28, line 83
          else
            if i < 30 then
              [1, 2, 6, 20, 83, 382, 1920, 10096, 54787, 303158, 1700936, 9637696, 55011038, 315757964, 1820372000, 10531392160, 61101666467, 355348247974, 2070768447480, 12088243801888, 70672943923018]  // row 29, line 84
            else
              if i < 31 then
                [1, 2, 6, 20, 82, 372, 1825, 9326, 49026, 262628, 1427641, 7851846, 43609857, 244242234, 1377774481, 7820510350, 44630717426, 255897824164, 1473220576033, 8511539003078, 49327558648857]  // row 30, line 85
              else
                [1, 1, 3, 8, 30, 126, 617, 3221, 17586, 98090, 554673, 3162501, 18136681, 104457601, 603654677, 3498136193, 20318870866, 118260004706, 689514631385, 4026512204621, 23546286659505]  // row 31, line 86
        else
          if i < 35 then
            if i < 33 then
              [1, 3, 10, 37, 150, 654, 3012, 14445, 71398, 361114, 1859628, 9716194, 51373180, 274352316, 1477635912, 8016865533, 43773564294, 240356635170, 1326359740956, 7351846397334, 40913414754324]  // row 32, line 87
            else
              if i < 34 then
                [1, 1, 6, 17, 78, 322, 1516, 7205, 35734, 180494, 929940, 4857866, 25687052, 137175300, 738819672, 4008429549, 21886788582, 120178305430, 663179894788, 3675923152478, 20456707469540]  // row 33, line 88
              else
                [1, 1, 4, 13, 52, 222, 1014, 4839, 23860, 120526, 620278, 3239788, 17127202, 91458304, 492565662, 2672343909, 14591339748, 80119295718, 442121067510, 2450618669508, 13637813847234]  // row 34, line 89
          else
            if i < 37 then
              if i < 36 then
                [1, 1, 4, 11, 46, 182, 824, 3817, 18582, 92678, 473368, 2458326, 12947532, 68959100, 370747056, 2009062197, 10961073126, 60153975110, 331828766744, 1838845207834, 10231635794980]  // row 35, line 90
              else
                [1, 1, 4, 11, 44, 172, 754, 3397, 16020, 77516, 384578, 1944626, 9997970, 52122566, 275020698, 1466253567, 7888170564, 42773157124, 233548438450, 1283030730346, 7086753445858]  // row 36, line 91
            else
              if i < 38 then
                [1, 2, 6, 20, 78, 332, 1516, 7240, 35734, 180620, 929940, 4858328, 25687052, 137177016, 738819672, 4008435984, 21886788582, 120178329740, 663179894788, 3675923244856, 20456707469540]  // row 37, line 92
              else
                [1, 1, 4, 10, 42, 166, 768, 3620, 17902, 90310, 465096, 2429164, 12843988, 68588508, 369411552, 2004217992, 10943400726, 60089164870, 331589971704, 1837961622428, 10228353827148]  // row 38, line 93
      else
        if i < 45 then
          if i < 42 then
            if i < 40 then
              [1, 1, 3, 8, 29, 116, 517, 2437, 11965, 60326, 310265, 1620125, 8564063, 45730010, 246284547, 1336175172, 7295676309, 40059660014, 221060558065, 1225309380943, 6818907015995]  // row 39, line 94
            else
              if i < 41 then
                [1, 1, 3, 7, 26, 96, 422, 1926, 9326, 46402, 236810, 1229394, 6474228, 34480408, 185375244, 1004534316, 5480542998, 30076999710, 165914407682, 919422650106, 5115817989868]  // row 40, line 95
              else
                [1, 1, 3, 7, 25, 91, 387, 1716, 8045, 38821, 192415, 972544, 4999447, 26062141, 137512065, 733130001, 3944091717, 21386590717, 116774243535, 641515411362, 3543376815307]  // row 41, line 96
          else
            if i < 43 then
              [1, 2, 6, 20, 82, 372, 1824, 9312, 48850, 260804, 1410736, 7708032, 42460840, 235495184, 1313652864, 7364392320, 41464232850, 234349652324, 1328989358544, 7559412595392, 43115245475752]  // row 42, line 97
            else
              if i < 44 then
                [1, 2, 6, 20, 82, 372, 1824, 9312, 48850, 260804, 1410736, 7708032, 42460840, 235495184, 1313652864, 7364392320, 41464232850, 234349652324, 1328989358544, 7559412595392, 43115245475752]  // row 43, line 98
              else
                [1, 2, 6, 20, 82, 372, 1824, 9312, 48850, 260804, 1410736, 7708032, 42460840, 235495184, 1313652864, 7364392320, 41464232850, 234349652324, 1328989358544, 7559412595392, 43115245475752]  // row 44, line 99
        else
          if i < 48 then
            if i < 46 then
              [1, 1, 3, 10, 41, 186, 912, 4656, 24425, 130402, 705368, 3854016, 21230420, 117747592, 656826432, 3682196160, 20732116425, 117174826162, 664494679272, 3779706297696, 21557622737876]  // row 45, line 100
            else
              if i < 47 then
                [1, 1, 3, 7, 26, 101, 477, 2360, 12294, 65329, 353003, 1927520, 10616465, 58875844, 328418170, 1841106272, 10366077814, 58587445849, 332247417327, 1889853279920, 10778811677271]  // row 46, line 101
              else
                [1, 2, 6, 20, 76, 312, 1364, 6232, 29460, 142952, 708328, 3570096, 18251248, 94433120, 493669128, 2603975152, 13843555844, 74109433992, 399194826680, 2162240606992, 11770482003888]  // row 47, line 102
          else
            if i < 50 then
              if i < 49 then
                [1, 2, 5, 14, 46, 172, 714, 3180, 14858, 71732, 354676, 1786072, 9127672, 47220656, 246842756, 1302003960, 6921810690, 37054782532, 199597544412, 1081120565640, 5885241526232]  // row 48, line 103
              else
                [1, 2, 5, 14, 44, 152, 569, 2270, 9524, 41576, 187348, 866296, 4092400, 19684576, 96156649, 476038222, 2384463044, 12067926920, 61641751124, 317469893176, 1647261806128]  // row 49, line 104
            else
              if i < 51 then
                [1, 1, 3, 7, 23, 76, 287, 1135, 4769, 20788, 93695, 433148, 2046266, 9842288, 48078539, 238019111, 1192232237, 6033963460, 30820877993, 158734946588, 823630911462]  // row 50, line 105
              else
                [1, 1, 2, 4, 10, 27, 82, 268, 940, 3476, 13448, 53968, 223412, 949535, 4128594, 18310972, 82645012, 378851428, 1760998280, 8288679056, 39457907128]  // row 51, line 106
  }

}
