/** Facts about the tables of module Catalog, each proved by splitting on the row index
    (in chunks of rows, or one row at a time with a dispatching lemma that lifts the row
    facts to the whole table). Each fact mentions only the columns it is about. */
module CatalogFacts {
  import opened Format
  import opened Catalog

  /** The zero-density part of a genus 1 signature is the scaled z1 tag averaged over the
      components: sig[0] * components == G1ZScale * z1 (no rounding is involved). */
  ghost predicate G1DensityExact(i: int)
    requires 0 <= i < G1Groups
  {
    G1SigTuple(i).z1 * G1Components(i) == G1ZScale * G1Z1(i)
  }

  /** The moment part of a genus 1 signature repeats E[a1^2], E[a1^4] from a1moments. */
  ghost predicate G1MomentsAgree(i: int)
    requires 0 <= i < G1Groups && |G1A1Moments(i)| == MaxMoment + 1
  {
    G1SigTuple(i).a1sq == G1A1Moments(i)[2] && G1SigTuple(i).a1four == G1A1Moments(i)[4]
  }

  /** The density part of a genus 2 signature divides out exactly from the row's tags:
      sig[0] * components == G2ZScale * z1 and sig[1 + k] * components == G2ZScale * z2[k]. */
  ghost predicate G2DensityExact(i: int)
    requires 0 <= i < G2Groups && |G2Z2(i)| == 5
  {
    G2SigTuple(i).z1 * G2Components(i) == G2ZScale * G2Z1(i) &&
    forall k | 0 <= k < 5 :: G2SigTuple(i).Z2(k) * G2Components(i) == G2ZScale * G2Z2(i)[k]
  }

  /** The moment part of a genus 2 signature repeats E[a1^2], E[a1^4] from a1moments and
      E[a2], E[a2^2], E[a2^3] from a2moments. */
  ghost predicate G2MomentsAgree(i: int)
    requires 0 <= i < G2Groups
    requires |G2A1Moments(i)| == MaxMoment + 1 && |G2A2Moments(i)| == MaxMoment + 1
  {
    var t := G2SigTuple(i);
    t.a1sq == G2A1Moments(i)[2] && t.a1four == G2A1Moments(i)[4] &&
    t.a2 == G2A2Moments(i)[1] && t.a2sq == G2A2Moments(i)[2] && t.a2cube == G2A2Moments(i)[3]
  }

  /** Every genus 1 row: its printed tuple is its literal signature, its moment sequence has
      orders 0..MaxMoment, it has at least one component and a non-empty name, and its
      density part is exact. */
  lemma G1RowsWellFormed()
    ensures forall i | 0 <= i < G1Groups ::
      G1SigText(G1SigTuple(i)) == G1Sig(i) && |G1A1Moments(i)| == MaxMoment + 1 &&
      G1Components(i) >= 1 && G1Group(i) != "" && G1DensityExact(i)
  {
    forall i | 0 <= i < G1Groups
      ensures G1SigText(G1SigTuple(i)) == G1Sig(i) && |G1A1Moments(i)| == MaxMoment + 1
      ensures G1Components(i) >= 1 && G1Group(i) != "" && G1DensityExact(i)
    {
      assert i == 0 || i == 1 || i == 2;
    }
  }

  /** The moment part of a genus 1 signature agrees with a1moments in every row except
      N(U(1)) (row 1), whose signature says E[a1^2] = 1, E[a1^4] = 3 while its a1moments
      say 3 and 10. */
  lemma G1MomentsAgreeExceptNU1()
    ensures forall i | 0 <= i < G1Groups ::
      |G1A1Moments(i)| == MaxMoment + 1 && (G1MomentsAgree(i) <==> i != 1)
  {
    forall i | 0 <= i < G1Groups
      ensures |G1A1Moments(i)| == MaxMoment + 1 && (G1MomentsAgree(i) <==> i != 1)
    {
      assert i == 0 || i == 1 || i == 2;
    }
  }

  /** The genus 1 signature tuples are pairwise distinct, and so are the genus 1 names. */
  lemma G1Distinct()
    ensures forall i, j | 0 <= i < G1Groups && 0 <= j < G1Groups && i != j ::
      G1SigTuple(i) != G1SigTuple(j) && G1Group(i) != G1Group(j)
  {
    forall i, j | 0 <= i < G1Groups && 0 <= j < G1Groups && i != j
      ensures G1SigTuple(i) != G1SigTuple(j) && G1Group(i) != G1Group(j)
    {
      assert i == 0 || i == 1 || i == 2;
      assert j == 0 || j == 1 || j == 2;
    }
  }

  lemma G2SigTextRow0()
    ensures G2SigText(G2SigTuple(0)) == G2Sig(0)
  {
  }

  lemma G2SigTextRow1()
    ensures G2SigText(G2SigTuple(1)) == G2Sig(1)
  {
  }

  lemma G2SigTextRow2()
    ensures G2SigText(G2SigTuple(2)) == G2Sig(2)
  {
  }

  lemma G2SigTextRow3()
    ensures G2SigText(G2SigTuple(3)) == G2Sig(3)
  {
  }

  lemma G2SigTextRow4()
    ensures G2SigText(G2SigTuple(4)) == G2Sig(4)
  {
  }

  lemma G2SigTextRow5()
    ensures G2SigText(G2SigTuple(5)) == G2Sig(5)
  {
  }

  lemma G2SigTextRow6()
    ensures G2SigText(G2SigTuple(6)) == G2Sig(6)
  {
  }

  lemma G2SigTextRow7()
    ensures G2SigText(G2SigTuple(7)) == G2Sig(7)
  {
  }

  lemma G2SigTextRow8()
    ensures G2SigText(G2SigTuple(8)) == G2Sig(8)
  {
  }

  lemma G2SigTextRow9()
    ensures G2SigText(G2SigTuple(9)) == G2Sig(9)
  {
  }

  lemma G2SigTextRow10()
    ensures G2SigText(G2SigTuple(10)) == G2Sig(10)
  {
  }

  lemma G2SigTextRow11()
    ensures G2SigText(G2SigTuple(11)) == G2Sig(11)
  {
  }

  lemma G2SigTextRow12()
    ensures G2SigText(G2SigTuple(12)) == G2Sig(12)
  {
  }

  lemma G2SigTextRow13()
    ensures G2SigText(G2SigTuple(13)) == G2Sig(13)
  {
  }

  lemma G2SigTextRow14()
    ensures G2SigText(G2SigTuple(14)) == G2Sig(14)
  {
  }

  lemma G2SigTextRow15()
    ensures G2SigText(G2SigTuple(15)) == G2Sig(15)
  {
  }

  lemma G2SigTextRow16()
    ensures G2SigText(G2SigTuple(16)) == G2Sig(16)
  {
  }

  lemma G2SigTextRow17()
    ensures G2SigText(G2SigTuple(17)) == G2Sig(17)
  {
  }

  lemma G2SigTextRow18()
    ensures G2SigText(G2SigTuple(18)) == G2Sig(18)
  {
  }

  lemma G2SigTextRow19()
    ensures G2SigText(G2SigTuple(19)) == G2Sig(19)
  {
  }

  lemma G2SigTextRow20()
    ensures G2SigText(G2SigTuple(20)) == G2Sig(20)
  {
  }

  lemma G2SigTextRow21()
    ensures G2SigText(G2SigTuple(21)) == G2Sig(21)
  {
  }

  lemma G2SigTextRow22()
    ensures G2SigText(G2SigTuple(22)) == G2Sig(22)
  {
  }

  lemma G2SigTextRow23()
    ensures G2SigText(G2SigTuple(23)) == G2Sig(23)
  {
  }

  lemma G2SigTextRow24()
    ensures G2SigText(G2SigTuple(24)) == G2Sig(24)
  {
  }

  lemma G2SigTextRow25()
    ensures G2SigText(G2SigTuple(25)) == G2Sig(25)
  {
  }

  lemma G2SigTextRow26()
    ensures G2SigText(G2SigTuple(26)) == G2Sig(26)
  {
  }

  lemma G2SigTextRow27()
    ensures G2SigText(G2SigTuple(27)) == G2Sig(27)
  {
  }

  lemma G2SigTextRow28()
    ensures G2SigText(G2SigTuple(28)) == G2Sig(28)
  {
  }

  lemma G2SigTextRow29()
    ensures G2SigText(G2SigTuple(29)) == G2Sig(29)
  {
  }

  lemma G2SigTextRow30()
    ensures G2SigText(G2SigTuple(30)) == G2Sig(30)
  {
  }

  lemma G2SigTextRow31()
    ensures G2SigText(G2SigTuple(31)) == G2Sig(31)
  {
  }

  lemma G2SigTextRow32()
    ensures G2SigText(G2SigTuple(32)) == G2Sig(32)
  {
  }

  lemma G2SigTextRow33()
    ensures G2SigText(G2SigTuple(33)) == G2Sig(33)
  {
  }

  lemma G2SigTextRow34()
    ensures G2SigText(G2SigTuple(34)) == G2Sig(34)
  {
  }

  lemma G2SigTextRow35()
    ensures G2SigText(G2SigTuple(35)) == G2Sig(35)
  {
  }

  lemma G2SigTextRow36()
    ensures G2SigText(G2SigTuple(36)) == G2Sig(36)
  {
  }

  lemma G2SigTextRow37()
    ensures G2SigText(G2SigTuple(37)) == G2Sig(37)
  {
  }

  lemma G2SigTextRow38()
    ensures G2SigText(G2SigTuple(38)) == G2Sig(38)
  {
  }

  lemma G2SigTextRow39()
    ensures G2SigText(G2SigTuple(39)) == G2Sig(39)
  {
  }

  lemma G2SigTextRow40()
    ensures G2SigText(G2SigTuple(40)) == G2Sig(40)
  {
  }

  lemma G2SigTextRow41()
    ensures G2SigText(G2SigTuple(41)) == G2Sig(41)
  {
  }

  lemma G2SigTextRow42()
    ensures G2SigText(G2SigTuple(42)) == G2Sig(42)
  {
  }

  lemma G2SigTextRow43()
    ensures G2SigText(G2SigTuple(43)) == G2Sig(43)
  {
  }

  lemma G2SigTextRow44()
    ensures G2SigText(G2SigTuple(44)) == G2Sig(44)
  {
  }

  lemma G2SigTextRow45()
    ensures G2SigText(G2SigTuple(45)) == G2Sig(45)
  {
  }

  lemma G2SigTextRow46()
    ensures G2SigText(G2SigTuple(46)) == G2Sig(46)
  {
  }

  lemma G2SigTextRow47()
    ensures G2SigText(G2SigTuple(47)) == G2Sig(47)
  {
  }

  lemma G2SigTextRow48()
    ensures G2SigText(G2SigTuple(48)) == G2Sig(48)
  {
  }

  lemma G2SigTextRow49()
    ensures G2SigText(G2SigTuple(49)) == G2Sig(49)
  {
  }

  lemma G2SigTextRow50()
    ensures G2SigText(G2SigTuple(50)) == G2Sig(50)
  {
  }

  lemma G2SigTextRow51()
    ensures G2SigText(G2SigTuple(51)) == G2Sig(51)
  {
  }

  lemma G2SigTextChunk0()
    ensures forall i | 0 <= i < 13 :: G2SigText(G2SigTuple(i)) == G2Sig(i)
  {
    forall i | 0 <= i < 13
      ensures G2SigText(G2SigTuple(i)) == G2Sig(i)
    {
      if i == 0 {
        G2SigTextRow0();
      } else if i == 1 {
        G2SigTextRow1();
      } else if i == 2 {
        G2SigTextRow2();
      } else if i == 3 {
        G2SigTextRow3();
      } else if i == 4 {
        G2SigTextRow4();
      } else if i == 5 {
        G2SigTextRow5();
      } else if i == 6 {
        G2SigTextRow6();
      } else if i == 7 {
        G2SigTextRow7();
      } else if i == 8 {
        G2SigTextRow8();
      } else if i == 9 {
        G2SigTextRow9();
      } else if i == 10 {
        G2SigTextRow10();
      } else if i == 11 {
        G2SigTextRow11();
      } else {
        G2SigTextRow12();
      }
    }
  }

  lemma G2SigTextChunk13()
    ensures forall i | 13 <= i < 26 :: G2SigText(G2SigTuple(i)) == G2Sig(i)
  {
    forall i | 13 <= i < 26
      ensures G2SigText(G2SigTuple(i)) == G2Sig(i)
    {
      if i == 13 {
        G2SigTextRow13();
      } else if i == 14 {
        G2SigTextRow14();
      } else if i == 15 {
        G2SigTextRow15();
      } else if i == 16 {
        G2SigTextRow16();
      } else if i == 17 {
        G2SigTextRow17();
      } else if i == 18 {
        G2SigTextRow18();
      } else if i == 19 {
        G2SigTextRow19();
      } else if i == 20 {
        G2SigTextRow20();
      } else if i == 21 {
        G2SigTextRow21();
      } else if i == 22 {
        G2SigTextRow22();
      } else if i == 23 {
        G2SigTextRow23();
      } else if i == 24 {
        G2SigTextRow24();
      } else {
        G2SigTextRow25();
      }
    }
  }

  lemma G2SigTextChunk26()
    ensures forall i | 26 <= i < 39 :: G2SigText(G2SigTuple(i)) == G2Sig(i)
  {
    forall i | 26 <= i < 39
      ensures G2SigText(G2SigTuple(i)) == G2Sig(i)
    {
      if i == 26 {
        G2SigTextRow26();
      } else if i == 27 {
        G2SigTextRow27();
      } else if i == 28 {
        G2SigTextRow28();
      } else if i == 29 {
        G2SigTextRow29();
      } else if i == 30 {
        G2SigTextRow30();
      } else if i == 31 {
        G2SigTextRow31();
      } else if i == 32 {
        G2SigTextRow32();
      } else if i == 33 {
        G2SigTextRow33();
      } else if i == 34 {
        G2SigTextRow34();
      } else if i == 35 {
        G2SigTextRow35();
      } else if i == 36 {
        G2SigTextRow36();
      } else if i == 37 {
        G2SigTextRow37();
      } else {
        G2SigTextRow38();
      }
    }
  }

  lemma G2SigTextChunk39()
    ensures forall i | 39 <= i < 52 :: G2SigText(G2SigTuple(i)) == G2Sig(i)
  {
    forall i | 39 <= i < 52
      ensures G2SigText(G2SigTuple(i)) == G2Sig(i)
    {
      if i == 39 {
        G2SigTextRow39();
      } else if i == 40 {
        G2SigTextRow40();
      } else if i == 41 {
        G2SigTextRow41();
      } else if i == 42 {
        G2SigTextRow42();
      } else if i == 43 {
        G2SigTextRow43();
      } else if i == 44 {
        G2SigTextRow44();
      } else if i == 45 {
        G2SigTextRow45();
      } else if i == 46 {
        G2SigTextRow46();
      } else if i == 47 {
        G2SigTextRow47();
      } else if i == 48 {
        G2SigTextRow48();
      } else if i == 49 {
        G2SigTextRow49();
      } else if i == 50 {
        G2SigTextRow50();
      } else {
        G2SigTextRow51();
      }
    }
  }

  /** Printing a genus 2 row's signature tuple reproduces the literal signature text of that row. */
  lemma G2SigTextExact()
    ensures forall i | 0 <= i < G2Groups :: G2SigText(G2SigTuple(i)) == G2Sig(i)
  {
    G2SigTextChunk0();
    G2SigTextChunk13();
    G2SigTextChunk26();
    G2SigTextChunk39();
  }

  lemma G2Shape0()
    ensures forall i | 0 <= i < 7 :: |G2Z2(i)| == 5 && |G2A1Moments(i)| == MaxMoment + 1 && |G2A2Moments(i)| == MaxMoment + 1 && G2Components(i) >= 1 && G2Group(i) != ""
  {
    forall i | 0 <= i < 7
      ensures |G2Z2(i)| == 5 && |G2A1Moments(i)| == MaxMoment + 1 && |G2A2Moments(i)| == MaxMoment + 1 && G2Components(i) >= 1 && G2Group(i) != ""
    {
      assert i == 0 || i == 1 || i == 2 || i == 3 || i == 4 || i == 5 || i == 6;
    }
  }

  lemma G2Shape7()
    ensures forall i | 7 <= i < 14 :: |G2Z2(i)| == 5 && |G2A1Moments(i)| == MaxMoment + 1 && |G2A2Moments(i)| == MaxMoment + 1 && G2Components(i) >= 1 && G2Group(i) != ""
  {
    forall i | 7 <= i < 14
      ensures |G2Z2(i)| == 5 && |G2A1Moments(i)| == MaxMoment + 1 && |G2A2Moments(i)| == MaxMoment + 1 && G2Components(i) >= 1 && G2Group(i) != ""
    {
      assert i == 7 || i == 8 || i == 9 || i == 10 || i == 11 || i == 12 || i == 13;
    }
  }

  lemma G2Shape14()
    ensures forall i | 14 <= i < 21 :: |G2Z2(i)| == 5 && |G2A1Moments(i)| == MaxMoment + 1 && |G2A2Moments(i)| == MaxMoment + 1 && G2Components(i) >= 1 && G2Group(i) != ""
  {
    forall i | 14 <= i < 21
      ensures |G2Z2(i)| == 5 && |G2A1Moments(i)| == MaxMoment + 1 && |G2A2Moments(i)| == MaxMoment + 1 && G2Components(i) >= 1 && G2Group(i) != ""
    {
      assert i == 14 || i == 15 || i == 16 || i == 17 || i == 18 || i == 19 || i == 20;
    }
  }

  lemma G2Shape21()
    ensures forall i | 21 <= i < 28 :: |G2Z2(i)| == 5 && |G2A1Moments(i)| == MaxMoment + 1 && |G2A2Moments(i)| == MaxMoment + 1 && G2Components(i) >= 1 && G2Group(i) != ""
  {
    forall i | 21 <= i < 28
      ensures |G2Z2(i)| == 5 && |G2A1Moments(i)| == MaxMoment + 1 && |G2A2Moments(i)| == MaxMoment + 1 && G2Components(i) >= 1 && G2Group(i) != ""
    {
      assert i == 21 || i == 22 || i == 23 || i == 24 || i == 25 || i == 26 || i == 27;
    }
  }

  lemma G2Shape28()
    ensures forall i | 28 <= i < 35 :: |G2Z2(i)| == 5 && |G2A1Moments(i)| == MaxMoment + 1 && |G2A2Moments(i)| == MaxMoment + 1 && G2Components(i) >= 1 && G2Group(i) != ""
  {
    forall i | 28 <= i < 35
      ensures |G2Z2(i)| == 5 && |G2A1Moments(i)| == MaxMoment + 1 && |G2A2Moments(i)| == MaxMoment + 1 && G2Components(i) >= 1 && G2Group(i) != ""
    {
      assert i == 28 || i == 29 || i == 30 || i == 31 || i == 32 || i == 33 || i == 34;
    }
  }

  lemma G2Shape35()
    ensures forall i | 35 <= i < 42 :: |G2Z2(i)| == 5 && |G2A1Moments(i)| == MaxMoment + 1 && |G2A2Moments(i)| == MaxMoment + 1 && G2Components(i) >= 1 && G2Group(i) != ""
  {
    forall i | 35 <= i < 42
      ensures |G2Z2(i)| == 5 && |G2A1Moments(i)| == MaxMoment + 1 && |G2A2Moments(i)| == MaxMoment + 1 && G2Components(i) >= 1 && G2Group(i) != ""
    {
      assert i == 35 || i == 36 || i == 37 || i == 38 || i == 39 || i == 40 || i == 41;
    }
  }

  lemma G2Shape42()
    ensures forall i | 42 <= i < 49 :: |G2Z2(i)| == 5 && |G2A1Moments(i)| == MaxMoment + 1 && |G2A2Moments(i)| == MaxMoment + 1 && G2Components(i) >= 1 && G2Group(i) != ""
  {
    forall i | 42 <= i < 49
      ensures |G2Z2(i)| == 5 && |G2A1Moments(i)| == MaxMoment + 1 && |G2A2Moments(i)| == MaxMoment + 1 && G2Components(i) >= 1 && G2Group(i) != ""
    {
      assert i == 42 || i == 43 || i == 44 || i == 45 || i == 46 || i == 47 || i == 48;
    }
  }

  lemma G2Shape49()
    ensures forall i | 49 <= i < 52 :: |G2Z2(i)| == 5 && |G2A1Moments(i)| == MaxMoment + 1 && |G2A2Moments(i)| == MaxMoment + 1 && G2Components(i) >= 1 && G2Group(i) != ""
  {
    forall i | 49 <= i < 52
      ensures |G2Z2(i)| == 5 && |G2A1Moments(i)| == MaxMoment + 1 && |G2A2Moments(i)| == MaxMoment + 1 && G2Components(i) >= 1 && G2Group(i) != ""
    {
      assert i == 49 || i == 50 || i == 51;
    }
  }

  /** Every genus 2 row has five z2 tags, moment sequences of orders 0..MaxMoment, at least one component and a non-empty name. */
  lemma G2Shape()
    ensures forall i | 0 <= i < G2Groups :: |G2Z2(i)| == 5 && |G2A1Moments(i)| == MaxMoment + 1 && |G2A2Moments(i)| == MaxMoment + 1 && G2Components(i) >= 1 && G2Group(i) != ""
  {
    G2Shape0();
    G2Shape7();
    G2Shape14();
    G2Shape21();
    G2Shape28();
    G2Shape35();
    G2Shape42();
    G2Shape49();
  }

  lemma G2DensityExactAll0()
    ensures forall i | 0 <= i < 13 :: |G2Z2(i)| == 5 && G2DensityExact(i)
  {
    forall i | 0 <= i < 13
      ensures |G2Z2(i)| == 5 && G2DensityExact(i)
    {
      assert i == 0 || i == 1 || i == 2 || i == 3 || i == 4 || i == 5 || i == 6 || i == 7 || i == 8 || i == 9 || i == 10 || i == 11 || i == 12;
    }
  }

  lemma G2DensityExactAll13()
    ensures forall i | 13 <= i < 26 :: |G2Z2(i)| == 5 && G2DensityExact(i)
  {
    forall i | 13 <= i < 26
      ensures |G2Z2(i)| == 5 && G2DensityExact(i)
    {
      assert i == 13 || i == 14 || i == 15 || i == 16 || i == 17 || i == 18 || i == 19 || i == 20 || i == 21 || i == 22 || i == 23 || i == 24 || i == 25;
    }
  }

  lemma G2DensityExactAll26()
    ensures forall i | 26 <= i < 39 :: |G2Z2(i)| == 5 && G2DensityExact(i)
  {
    forall i | 26 <= i < 39
      ensures |G2Z2(i)| == 5 && G2DensityExact(i)
    {
      assert i == 26 || i == 27 || i == 28 || i == 29 || i == 30 || i == 31 || i == 32 || i == 33 || i == 34 || i == 35 || i == 36 || i == 37 || i == 38;
    }
  }

  lemma G2DensityExactAll39()
    ensures forall i | 39 <= i < 52 :: |G2Z2(i)| == 5 && G2DensityExact(i)
  {
    forall i | 39 <= i < 52
      ensures |G2Z2(i)| == 5 && G2DensityExact(i)
    {
      assert i == 39 || i == 40 || i == 41 || i == 42 || i == 43 || i == 44 || i == 45 || i == 46 || i == 47 || i == 48 || i == 49 || i == 50 || i == 51;
    }
  }

  /** In every genus 2 row the density part of the signature divides out exactly from z1, z2 and components. */
  lemma G2DensityExactAll()
    ensures forall i | 0 <= i < G2Groups :: |G2Z2(i)| == 5 && G2DensityExact(i)
  {
    G2DensityExactAll0();
    G2DensityExactAll13();
    G2DensityExactAll26();
    G2DensityExactAll39();
  }

  lemma G2MomentsRow0()
    ensures |G2A1Moments(0)| == MaxMoment + 1 && |G2A2Moments(0)| == MaxMoment + 1 && G2MomentsAgree(0)
  {
  }

  lemma G2MomentsRow1()
    ensures |G2A1Moments(1)| == MaxMoment + 1 && |G2A2Moments(1)| == MaxMoment + 1 && G2MomentsAgree(1)
  {
  }

  lemma G2MomentsRow2()
    ensures |G2A1Moments(2)| == MaxMoment + 1 && |G2A2Moments(2)| == MaxMoment + 1 && G2MomentsAgree(2)
  {
  }

  lemma G2MomentsRow3()
    ensures |G2A1Moments(3)| == MaxMoment + 1 && |G2A2Moments(3)| == MaxMoment + 1 && G2MomentsAgree(3)
  {
  }

  lemma G2MomentsRow4()
    ensures |G2A1Moments(4)| == MaxMoment + 1 && |G2A2Moments(4)| == MaxMoment + 1 && G2MomentsAgree(4)
  {
  }

  lemma G2MomentsRow5()
    ensures |G2A1Moments(5)| == MaxMoment + 1 && |G2A2Moments(5)| == MaxMoment + 1 && G2MomentsAgree(5)
  {
  }

  lemma G2MomentsRow6()
    ensures |G2A1Moments(6)| == MaxMoment + 1 && |G2A2Moments(6)| == MaxMoment + 1 && G2MomentsAgree(6)
  {
  }

  lemma G2MomentsRow7()
    ensures |G2A1Moments(7)| == MaxMoment + 1 && |G2A2Moments(7)| == MaxMoment + 1 && G2MomentsAgree(7)
  {
  }

  lemma G2MomentsRow8()
    ensures |G2A1Moments(8)| == MaxMoment + 1 && |G2A2Moments(8)| == MaxMoment + 1 && G2MomentsAgree(8)
  {
  }

  lemma G2MomentsRow9()
    ensures |G2A1Moments(9)| == MaxMoment + 1 && |G2A2Moments(9)| == MaxMoment + 1 && G2MomentsAgree(9)
  {
  }

  lemma G2MomentsRow10()
    ensures |G2A1Moments(10)| == MaxMoment + 1 && |G2A2Moments(10)| == MaxMoment + 1 && G2MomentsAgree(10)
  {
  }

  lemma G2MomentsRow11()
    ensures |G2A1Moments(11)| == MaxMoment + 1 && |G2A2Moments(11)| == MaxMoment + 1 && G2MomentsAgree(11)
  {
  }

  lemma G2MomentsRow12()
    ensures |G2A1Moments(12)| == MaxMoment + 1 && |G2A2Moments(12)| == MaxMoment + 1 && G2MomentsAgree(12)
  {
  }

  lemma G2MomentsRow13()
    ensures |G2A1Moments(13)| == MaxMoment + 1 && |G2A2Moments(13)| == MaxMoment + 1 && G2MomentsAgree(13)
  {
  }

  lemma G2MomentsRow14()
    ensures |G2A1Moments(14)| == MaxMoment + 1 && |G2A2Moments(14)| == MaxMoment + 1 && G2MomentsAgree(14)
  {
  }

  lemma G2MomentsRow15()
    ensures |G2A1Moments(15)| == MaxMoment + 1 && |G2A2Moments(15)| == MaxMoment + 1 && G2MomentsAgree(15)
  {
  }

  lemma G2MomentsRow16()
    ensures |G2A1Moments(16)| == MaxMoment + 1 && |G2A2Moments(16)| == MaxMoment + 1 && G2MomentsAgree(16)
  {
  }

  lemma G2MomentsRow17()
    ensures |G2A1Moments(17)| == MaxMoment + 1 && |G2A2Moments(17)| == MaxMoment + 1 && G2MomentsAgree(17)
  {
  }

  lemma G2MomentsRow18()
    ensures |G2A1Moments(18)| == MaxMoment + 1 && |G2A2Moments(18)| == MaxMoment + 1 && G2MomentsAgree(18)
  {
  }

  lemma G2MomentsRow19()
    ensures |G2A1Moments(19)| == MaxMoment + 1 && |G2A2Moments(19)| == MaxMoment + 1 && G2MomentsAgree(19)
  {
  }

  lemma G2MomentsRow20()
    ensures |G2A1Moments(20)| == MaxMoment + 1 && |G2A2Moments(20)| == MaxMoment + 1 && G2MomentsAgree(20)
  {
  }

  lemma G2MomentsRow21()
    ensures |G2A1Moments(21)| == MaxMoment + 1 && |G2A2Moments(21)| == MaxMoment + 1 && G2MomentsAgree(21)
  {
  }

  lemma G2MomentsRow22()
    ensures |G2A1Moments(22)| == MaxMoment + 1 && |G2A2Moments(22)| == MaxMoment + 1 && G2MomentsAgree(22)
  {
  }

  lemma G2MomentsRow23()
    ensures |G2A1Moments(23)| == MaxMoment + 1 && |G2A2Moments(23)| == MaxMoment + 1 && G2MomentsAgree(23)
  {
  }

  lemma G2MomentsRow24()
    ensures |G2A1Moments(24)| == MaxMoment + 1 && |G2A2Moments(24)| == MaxMoment + 1 && G2MomentsAgree(24)
  {
  }

  lemma G2MomentsRow25()
    ensures |G2A1Moments(25)| == MaxMoment + 1 && |G2A2Moments(25)| == MaxMoment + 1 && G2MomentsAgree(25)
  {
  }

  lemma G2MomentsRow26()
    ensures |G2A1Moments(26)| == MaxMoment + 1 && |G2A2Moments(26)| == MaxMoment + 1 && G2MomentsAgree(26)
  {
  }

  lemma G2MomentsRow27()
    ensures |G2A1Moments(27)| == MaxMoment + 1 && |G2A2Moments(27)| == MaxMoment + 1 && G2MomentsAgree(27)
  {
  }

  lemma G2MomentsRow28()
    ensures |G2A1Moments(28)| == MaxMoment + 1 && |G2A2Moments(28)| == MaxMoment + 1 && G2MomentsAgree(28)
  {
  }

  lemma G2MomentsRow29()
    ensures |G2A1Moments(29)| == MaxMoment + 1 && |G2A2Moments(29)| == MaxMoment + 1 && G2MomentsAgree(29)
  {
  }

  lemma G2MomentsRow30()
    ensures |G2A1Moments(30)| == MaxMoment + 1 && |G2A2Moments(30)| == MaxMoment + 1 && G2MomentsAgree(30)
  {
  }

  lemma G2MomentsRow31()
    ensures |G2A1Moments(31)| == MaxMoment + 1 && |G2A2Moments(31)| == MaxMoment + 1 && G2MomentsAgree(31)
  {
  }

  lemma G2MomentsRow32()
    ensures |G2A1Moments(32)| == MaxMoment + 1 && |G2A2Moments(32)| == MaxMoment + 1 && G2MomentsAgree(32)
  {
  }

  lemma G2MomentsRow33()
    ensures |G2A1Moments(33)| == MaxMoment + 1 && |G2A2Moments(33)| == MaxMoment + 1 && G2MomentsAgree(33)
  {
  }

  lemma G2MomentsRow34()
    ensures |G2A1Moments(34)| == MaxMoment + 1 && |G2A2Moments(34)| == MaxMoment + 1 && G2MomentsAgree(34)
  {
  }

  lemma G2MomentsRow35()
    ensures |G2A1Moments(35)| == MaxMoment + 1 && |G2A2Moments(35)| == MaxMoment + 1 && G2MomentsAgree(35)
  {
  }

  lemma G2MomentsRow36()
    ensures |G2A1Moments(36)| == MaxMoment + 1 && |G2A2Moments(36)| == MaxMoment + 1 && G2MomentsAgree(36)
  {
  }

  lemma G2MomentsRow37()
    ensures |G2A1Moments(37)| == MaxMoment + 1 && |G2A2Moments(37)| == MaxMoment + 1 && G2MomentsAgree(37)
  {
  }

  lemma G2MomentsRow38()
    ensures |G2A1Moments(38)| == MaxMoment + 1 && |G2A2Moments(38)| == MaxMoment + 1 && G2MomentsAgree(38)
  {
  }

  lemma G2MomentsRow39()
    ensures |G2A1Moments(39)| == MaxMoment + 1 && |G2A2Moments(39)| == MaxMoment + 1 && G2MomentsAgree(39)
  {
  }

  lemma G2MomentsRow40()
    ensures |G2A1Moments(40)| == MaxMoment + 1 && |G2A2Moments(40)| == MaxMoment + 1 && G2MomentsAgree(40)
  {
  }

  lemma G2MomentsRow41()
    ensures |G2A1Moments(41)| == MaxMoment + 1 && |G2A2Moments(41)| == MaxMoment + 1 && G2MomentsAgree(41)
  {
  }

  lemma G2MomentsRow43()
    ensures |G2A1Moments(43)| == MaxMoment + 1 && |G2A2Moments(43)| == MaxMoment + 1 && G2MomentsAgree(43)
  {
  }

  lemma G2MomentsRow44()
    ensures |G2A1Moments(44)| == MaxMoment + 1 && |G2A2Moments(44)| == MaxMoment + 1 && G2MomentsAgree(44)
  {
  }

  lemma G2MomentsRow45()
    ensures |G2A1Moments(45)| == MaxMoment + 1 && |G2A2Moments(45)| == MaxMoment + 1 && G2MomentsAgree(45)
  {
  }

  lemma G2MomentsRow47()
    ensures |G2A1Moments(47)| == MaxMoment + 1 && |G2A2Moments(47)| == MaxMoment + 1 && G2MomentsAgree(47)
  {
  }

  lemma G2MomentsRow48()
    ensures |G2A1Moments(48)| == MaxMoment + 1 && |G2A2Moments(48)| == MaxMoment + 1 && G2MomentsAgree(48)
  {
  }

  lemma G2MomentsRow49()
    ensures |G2A1Moments(49)| == MaxMoment + 1 && |G2A2Moments(49)| == MaxMoment + 1 && G2MomentsAgree(49)
  {
  }

  lemma G2MomentsRow50()
    ensures |G2A1Moments(50)| == MaxMoment + 1 && |G2A2Moments(50)| == MaxMoment + 1 && G2MomentsAgree(50)
  {
  }

  lemma G2MomentsRow51()
    ensures |G2A1Moments(51)| == MaxMoment + 1 && |G2A2Moments(51)| == MaxMoment + 1 && G2MomentsAgree(51)
  {
  }

  lemma G2MomentsChunk0()
    ensures forall i | 0 <= i < 10 :: |G2A1Moments(i)| == MaxMoment + 1 && |G2A2Moments(i)| == MaxMoment + 1 && G2MomentsAgree(i)
  {
    forall i | 0 <= i < 10
      ensures |G2A1Moments(i)| == MaxMoment + 1 && |G2A2Moments(i)| == MaxMoment + 1 && G2MomentsAgree(i)
    {
      if i == 0 {
        G2MomentsRow0();
      } else if i == 1 {
        G2MomentsRow1();
      } else if i == 2 {
        G2MomentsRow2();
      } else if i == 3 {
        G2MomentsRow3();
      } else if i == 4 {
        G2MomentsRow4();
      } else if i == 5 {
        G2MomentsRow5();
      } else if i == 6 {
        G2MomentsRow6();
      } else if i == 7 {
        G2MomentsRow7();
      } else if i == 8 {
        G2MomentsRow8();
      } else {
        G2MomentsRow9();
      }
    }
  }

  lemma G2MomentsChunk10()
    ensures forall i | 10 <= i < 20 :: |G2A1Moments(i)| == MaxMoment + 1 && |G2A2Moments(i)| == MaxMoment + 1 && G2MomentsAgree(i)
  {
    forall i | 10 <= i < 20
      ensures |G2A1Moments(i)| == MaxMoment + 1 && |G2A2Moments(i)| == MaxMoment + 1 && G2MomentsAgree(i)
    {
      if i == 10 {
        G2MomentsRow10();
      } else if i == 11 {
        G2MomentsRow11();
      } else if i == 12 {
        G2MomentsRow12();
      } else if i == 13 {
        G2MomentsRow13();
      } else if i == 14 {
        G2MomentsRow14();
      } else if i == 15 {
        G2MomentsRow15();
      } else if i == 16 {
        G2MomentsRow16();
      } else if i == 17 {
        G2MomentsRow17();
      } else if i == 18 {
        G2MomentsRow18();
      } else {
        G2MomentsRow19();
      }
    }
  }

  lemma G2MomentsChunk20()
    ensures forall i | 20 <= i < 30 :: |G2A1Moments(i)| == MaxMoment + 1 && |G2A2Moments(i)| == MaxMoment + 1 && G2MomentsAgree(i)
  {
    forall i | 20 <= i < 30
      ensures |G2A1Moments(i)| == MaxMoment + 1 && |G2A2Moments(i)| == MaxMoment + 1 && G2MomentsAgree(i)
    {
      if i == 20 {
        G2MomentsRow20();
      } else if i == 21 {
        G2MomentsRow21();
      } else if i == 22 {
        G2MomentsRow22();
      } else if i == 23 {
        G2MomentsRow23();
      } else if i == 24 {
        G2MomentsRow24();
      } else if i == 25 {
        G2MomentsRow25();
      } else if i == 26 {
        G2MomentsRow26();
      } else if i == 27 {
        G2MomentsRow27();
      } else if i == 28 {
        G2MomentsRow28();
      } else {
        G2MomentsRow29();
      }
    }
  }

  lemma G2MomentsChunk30()
    ensures forall i | 30 <= i < 40 :: |G2A1Moments(i)| == MaxMoment + 1 && |G2A2Moments(i)| == MaxMoment + 1 && G2MomentsAgree(i)
  {
    forall i | 30 <= i < 40
      ensures |G2A1Moments(i)| == MaxMoment + 1 && |G2A2Moments(i)| == MaxMoment + 1 && G2MomentsAgree(i)
    {
      if i == 30 {
        G2MomentsRow30();
      } else if i == 31 {
        G2MomentsRow31();
      } else if i == 32 {
        G2MomentsRow32();
      } else if i == 33 {
        G2MomentsRow33();
      } else if i == 34 {
        G2MomentsRow34();
      } else if i == 35 {
        G2MomentsRow35();
      } else if i == 36 {
        G2MomentsRow36();
      } else if i == 37 {
        G2MomentsRow37();
      } else if i == 38 {
        G2MomentsRow38();
      } else {
        G2MomentsRow39();
      }
    }
  }

  lemma G2MomentsChunk40()
    ensures forall i | 40 <= i < 52 && i != 42 && i != 46 :: |G2A1Moments(i)| == MaxMoment + 1 && |G2A2Moments(i)| == MaxMoment + 1 && G2MomentsAgree(i)
  {
    forall i | 40 <= i < 52 && i != 42 && i != 46
      ensures |G2A1Moments(i)| == MaxMoment + 1 && |G2A2Moments(i)| == MaxMoment + 1 && G2MomentsAgree(i)
    {
      if i == 40 {
        G2MomentsRow40();
      } else if i == 41 {
        G2MomentsRow41();
      } else if i == 43 {
        G2MomentsRow43();
      } else if i == 44 {
        G2MomentsRow44();
      } else if i == 45 {
        G2MomentsRow45();
      } else if i == 47 {
        G2MomentsRow47();
      } else if i == 48 {
        G2MomentsRow48();
      } else if i == 49 {
        G2MomentsRow49();
      } else if i == 50 {
        G2MomentsRow50();
      } else {
        G2MomentsRow51();
      }
    }
  }

  lemma G2MomentsRow42()
    ensures |G2A1Moments(42)| == MaxMoment + 1 && |G2A2Moments(42)| == MaxMoment + 1 && !G2MomentsAgree(42)
  {
  }

  lemma G2MomentsRow46()
    ensures |G2A1Moments(46)| == MaxMoment + 1 && |G2A2Moments(46)| == MaxMoment + 1 && !G2MomentsAgree(46)
  {
  }

  /** The moment part of a genus 2 signature agrees with the moment sequences in every row
      except F (row 42) and F_{a,b} (row 46). The signature of F gives E[a1^2], E[a1^4],
      E[a2], E[a2^2], E[a2^3] = 4, 36, 2, 8, 32 where its moment sequences give 3, 21, 2, 6,
      20; that of F_{a,b} gives 2, 12, 2, 5, 14 where its sequences give 1, 9, 1, 3, 7. */
  lemma G2MomentsAgreeExceptF()
    ensures forall i | 0 <= i < G2Groups ::
      |G2A1Moments(i)| == MaxMoment + 1 && |G2A2Moments(i)| == MaxMoment + 1 && (G2MomentsAgree(i) <==> i != 42 && i != 46)
  {
    G2MomentsChunk0();
    G2MomentsChunk10();
    G2MomentsChunk20();
    G2MomentsChunk30();
    G2MomentsChunk40();
    G2MomentsRow42();
    G2MomentsRow46();
  }

  lemma G2SignedMomentsPositive0()
    ensures forall i | 0 <= i < 26 :: G2SigTuple(i).a2 >= 1 && G2SigTuple(i).a2cube >= 1
  {
    forall i | 0 <= i < 26
      ensures G2SigTuple(i).a2 >= 1 && G2SigTuple(i).a2cube >= 1
    {
      assert i == 0 || i == 1 || i == 2 || i == 3 || i == 4 || i == 5 || i == 6 || i == 7 || i == 8 || i == 9 || i == 10 || i == 11 || i == 12 || i == 13 || i == 14 || i == 15 || i == 16 || i == 17 || i == 18 || i == 19 || i == 20 || i == 21 || i == 22 || i == 23 || i == 24 || i == 25;
    }
  }

  lemma G2SignedMomentsPositive26()
    ensures forall i | 26 <= i < 52 :: G2SigTuple(i).a2 >= 1 && G2SigTuple(i).a2cube >= 1
  {
    forall i | 26 <= i < 52
      ensures G2SigTuple(i).a2 >= 1 && G2SigTuple(i).a2cube >= 1
    {
      assert i == 26 || i == 27 || i == 28 || i == 29 || i == 30 || i == 31 || i == 32 || i == 33 || i == 34 || i == 35 || i == 36 || i == 37 || i == 38 || i == 39 || i == 40 || i == 41 || i == 42 || i == 43 || i == 44 || i == 45 || i == 46 || i == 47 || i == 48 || i == 49 || i == 50 || i == 51;
    }
  }

  /** E[a2] and E[a2^3], the only signature entries whose statistics can be negative, are at least 1 in every genus 2 row. */
  lemma G2SignedMomentsPositive()
    ensures forall i | 0 <= i < G2Groups :: G2SigTuple(i).a2 >= 1 && G2SigTuple(i).a2cube >= 1
  {
    G2SignedMomentsPositive0();
    G2SignedMomentsPositive26();
  }

  lemma G2DistinctFromLater0()
    ensures forall j | 0 < j < G2Groups :: G2SigTuple(0) != G2SigTuple(j) && G2Group(0) != G2Group(j)
  {
    forall j | 0 < j < G2Groups
      ensures G2SigTuple(0) != G2SigTuple(j) && G2Group(0) != G2Group(j)
    {
      assert j == 1 || j == 2 || j == 3 || j == 4 || j == 5 || j == 6 || j == 7 || j == 8 || j == 9 || j == 10 || j == 11 || j == 12 || j == 13 || j == 14 || j == 15 || j == 16 || j == 17 || j == 18 || j == 19 || j == 20 || j == 21 || j == 22 || j == 23 || j == 24 || j == 25 || j == 26 || j == 27 || j == 28 || j == 29 || j == 30 || j == 31 || j == 32 || j == 33 || j == 34 || j == 35 || j == 36 || j == 37 || j == 38 || j == 39 || j == 40 || j == 41 || j == 42 || j == 43 || j == 44 || j == 45 || j == 46 || j == 47 || j == 48 || j == 49 || j == 50 || j == 51;
    }
  }

  lemma G2DistinctFromLater1()
    ensures forall j | 1 < j < G2Groups :: G2SigTuple(1) != G2SigTuple(j) && G2Group(1) != G2Group(j)
  {
    forall j | 1 < j < G2Groups
      ensures G2SigTuple(1) != G2SigTuple(j) && G2Group(1) != G2Group(j)
    {
      assert j == 2 || j == 3 || j == 4 || j == 5 || j == 6 || j == 7 || j == 8 || j == 9 || j == 10 || j == 11 || j == 12 || j == 13 || j == 14 || j == 15 || j == 16 || j == 17 || j == 18 || j == 19 || j == 20 || j == 21 || j == 22 || j == 23 || j == 24 || j == 25 || j == 26 || j == 27 || j == 28 || j == 29 || j == 30 || j == 31 || j == 32 || j == 33 || j == 34 || j == 35 || j == 36 || j == 37 || j == 38 || j == 39 || j == 40 || j == 41 || j == 42 || j == 43 || j == 44 || j == 45 || j == 46 || j == 47 || j == 48 || j == 49 || j == 50 || j == 51;
    }
  }

  lemma G2DistinctFromLater2()
    ensures forall j | 2 < j < G2Groups :: G2SigTuple(2) != G2SigTuple(j) && G2Group(2) != G2Group(j)
  {
    forall j | 2 < j < G2Groups
      ensures G2SigTuple(2) != G2SigTuple(j) && G2Group(2) != G2Group(j)
    {
      assert j == 3 || j == 4 || j == 5 || j == 6 || j == 7 || j == 8 || j == 9 || j == 10 || j == 11 || j == 12 || j == 13 || j == 14 || j == 15 || j == 16 || j == 17 || j == 18 || j == 19 || j == 20 || j == 21 || j == 22 || j == 23 || j == 24 || j == 25 || j == 26 || j == 27 || j == 28 || j == 29 || j == 30 || j == 31 || j == 32 || j == 33 || j == 34 || j == 35 || j == 36 || j == 37 || j == 38 || j == 39 || j == 40 || j == 41 || j == 42 || j == 43 || j == 44 || j == 45 || j == 46 || j == 47 || j == 48 || j == 49 || j == 50 || j == 51;
    }
  }

  lemma G2DistinctFromLater3()
    ensures forall j | 3 < j < G2Groups :: G2SigTuple(3) != G2SigTuple(j) && G2Group(3) != G2Group(j)
  {
    forall j | 3 < j < G2Groups
      ensures G2SigTuple(3) != G2SigTuple(j) && G2Group(3) != G2Group(j)
    {
      assert j == 4 || j == 5 || j == 6 || j == 7 || j == 8 || j == 9 || j == 10 || j == 11 || j == 12 || j == 13 || j == 14 || j == 15 || j == 16 || j == 17 || j == 18 || j == 19 || j == 20 || j == 21 || j == 22 || j == 23 || j == 24 || j == 25 || j == 26 || j == 27 || j == 28 || j == 29 || j == 30 || j == 31 || j == 32 || j == 33 || j == 34 || j == 35 || j == 36 || j == 37 || j == 38 || j == 39 || j == 40 || j == 41 || j == 42 || j == 43 || j == 44 || j == 45 || j == 46 || j == 47 || j == 48 || j == 49 || j == 50 || j == 51;
    }
  }

  lemma G2DistinctFromLater4()
    ensures forall j | 4 < j < G2Groups :: G2SigTuple(4) != G2SigTuple(j) && G2Group(4) != G2Group(j)
  {
    forall j | 4 < j < G2Groups
      ensures G2SigTuple(4) != G2SigTuple(j) && G2Group(4) != G2Group(j)
    {
      assert j == 5 || j == 6 || j == 7 || j == 8 || j == 9 || j == 10 || j == 11 || j == 12 || j == 13 || j == 14 || j == 15 || j == 16 || j == 17 || j == 18 || j == 19 || j == 20 || j == 21 || j == 22 || j == 23 || j == 24 || j == 25 || j == 26 || j == 27 || j == 28 || j == 29 || j == 30 || j == 31 || j == 32 || j == 33 || j == 34 || j == 35 || j == 36 || j == 37 || j == 38 || j == 39 || j == 40 || j == 41 || j == 42 || j == 43 || j == 44 || j == 45 || j == 46 || j == 47 || j == 48 || j == 49 || j == 50 || j == 51;
    }
  }

  lemma G2DistinctFromLater5()
    ensures forall j | 5 < j < G2Groups :: G2SigTuple(5) != G2SigTuple(j) && G2Group(5) != G2Group(j)
  {
    forall j | 5 < j < G2Groups
      ensures G2SigTuple(5) != G2SigTuple(j) && G2Group(5) != G2Group(j)
    {
      assert j == 6 || j == 7 || j == 8 || j == 9 || j == 10 || j == 11 || j == 12 || j == 13 || j == 14 || j == 15 || j == 16 || j == 17 || j == 18 || j == 19 || j == 20 || j == 21 || j == 22 || j == 23 || j == 24 || j == 25 || j == 26 || j == 27 || j == 28 || j == 29 || j == 30 || j == 31 || j == 32 || j == 33 || j == 34 || j == 35 || j == 36 || j == 37 || j == 38 || j == 39 || j == 40 || j == 41 || j == 42 || j == 43 || j == 44 || j == 45 || j == 46 || j == 47 || j == 48 || j == 49 || j == 50 || j == 51;
    }
  }

  lemma G2DistinctFromLater6()
    ensures forall j | 6 < j < G2Groups :: G2SigTuple(6) != G2SigTuple(j) && G2Group(6) != G2Group(j)
  {
    forall j | 6 < j < G2Groups
      ensures G2SigTuple(6) != G2SigTuple(j) && G2Group(6) != G2Group(j)
    {
      assert j == 7 || j == 8 || j == 9 || j == 10 || j == 11 || j == 12 || j == 13 || j == 14 || j == 15 || j == 16 || j == 17 || j == 18 || j == 19 || j == 20 || j == 21 || j == 22 || j == 23 || j == 24 || j == 25 || j == 26 || j == 27 || j == 28 || j == 29 || j == 30 || j == 31 || j == 32 || j == 33 || j == 34 || j == 35 || j == 36 || j == 37 || j == 38 || j == 39 || j == 40 || j == 41 || j == 42 || j == 43 || j == 44 || j == 45 || j == 46 || j == 47 || j == 48 || j == 49 || j == 50 || j == 51;
    }
  }

  lemma G2DistinctFromLater7()
    ensures forall j | 7 < j < G2Groups :: G2SigTuple(7) != G2SigTuple(j) && G2Group(7) != G2Group(j)
  {
    forall j | 7 < j < G2Groups
      ensures G2SigTuple(7) != G2SigTuple(j) && G2Group(7) != G2Group(j)
    {
      assert j == 8 || j == 9 || j == 10 || j == 11 || j == 12 || j == 13 || j == 14 || j == 15 || j == 16 || j == 17 || j == 18 || j == 19 || j == 20 || j == 21 || j == 22 || j == 23 || j == 24 || j == 25 || j == 26 || j == 27 || j == 28 || j == 29 || j == 30 || j == 31 || j == 32 || j == 33 || j == 34 || j == 35 || j == 36 || j == 37 || j == 38 || j == 39 || j == 40 || j == 41 || j == 42 || j == 43 || j == 44 || j == 45 || j == 46 || j == 47 || j == 48 || j == 49 || j == 50 || j == 51;
    }
  }

  lemma G2DistinctFromLater8()
    ensures forall j | 8 < j < G2Groups :: G2SigTuple(8) != G2SigTuple(j) && G2Group(8) != G2Group(j)
  {
    forall j | 8 < j < G2Groups
      ensures G2SigTuple(8) != G2SigTuple(j) && G2Group(8) != G2Group(j)
    {
      assert j == 9 || j == 10 || j == 11 || j == 12 || j == 13 || j == 14 || j == 15 || j == 16 || j == 17 || j == 18 || j == 19 || j == 20 || j == 21 || j == 22 || j == 23 || j == 24 || j == 25 || j == 26 || j == 27 || j == 28 || j == 29 || j == 30 || j == 31 || j == 32 || j == 33 || j == 34 || j == 35 || j == 36 || j == 37 || j == 38 || j == 39 || j == 40 || j == 41 || j == 42 || j == 43 || j == 44 || j == 45 || j == 46 || j == 47 || j == 48 || j == 49 || j == 50 || j == 51;
    }
  }

  lemma G2DistinctFromLater9()
    ensures forall j | 9 < j < G2Groups :: G2SigTuple(9) != G2SigTuple(j) && G2Group(9) != G2Group(j)
  {
    forall j | 9 < j < G2Groups
      ensures G2SigTuple(9) != G2SigTuple(j) && G2Group(9) != G2Group(j)
    {
      assert j == 10 || j == 11 || j == 12 || j == 13 || j == 14 || j == 15 || j == 16 || j == 17 || j == 18 || j == 19 || j == 20 || j == 21 || j == 22 || j == 23 || j == 24 || j == 25 || j == 26 || j == 27 || j == 28 || j == 29 || j == 30 || j == 31 || j == 32 || j == 33 || j == 34 || j == 35 || j == 36 || j == 37 || j == 38 || j == 39 || j == 40 || j == 41 || j == 42 || j == 43 || j == 44 || j == 45 || j == 46 || j == 47 || j == 48 || j == 49 || j == 50 || j == 51;
    }
  }

  lemma G2DistinctFromLater10()
    ensures forall j | 10 < j < G2Groups :: G2SigTuple(10) != G2SigTuple(j) && G2Group(10) != G2Group(j)
  {
    forall j | 10 < j < G2Groups
      ensures G2SigTuple(10) != G2SigTuple(j) && G2Group(10) != G2Group(j)
    {
      assert j == 11 || j == 12 || j == 13 || j == 14 || j == 15 || j == 16 || j == 17 || j == 18 || j == 19 || j == 20 || j == 21 || j == 22 || j == 23 || j == 24 || j == 25 || j == 26 || j == 27 || j == 28 || j == 29 || j == 30 || j == 31 || j == 32 || j == 33 || j == 34 || j == 35 || j == 36 || j == 37 || j == 38 || j == 39 || j == 40 || j == 41 || j == 42 || j == 43 || j == 44 || j == 45 || j == 46 || j == 47 || j == 48 || j == 49 || j == 50 || j == 51;
    }
  }

  lemma G2DistinctFromLater11()
    ensures forall j | 11 < j < G2Groups :: G2SigTuple(11) != G2SigTuple(j) && G2Group(11) != G2Group(j)
  {
    forall j | 11 < j < G2Groups
      ensures G2SigTuple(11) != G2SigTuple(j) && G2Group(11) != G2Group(j)
    {
      assert j == 12 || j == 13 || j == 14 || j == 15 || j == 16 || j == 17 || j == 18 || j == 19 || j == 20 || j == 21 || j == 22 || j == 23 || j == 24 || j == 25 || j == 26 || j == 27 || j == 28 || j == 29 || j == 30 || j == 31 || j == 32 || j == 33 || j == 34 || j == 35 || j == 36 || j == 37 || j == 38 || j == 39 || j == 40 || j == 41 || j == 42 || j == 43 || j == 44 || j == 45 || j == 46 || j == 47 || j == 48 || j == 49 || j == 50 || j == 51;
    }
  }

  lemma G2DistinctFromLater12()
    ensures forall j | 12 < j < G2Groups :: G2SigTuple(12) != G2SigTuple(j) && G2Group(12) != G2Group(j)
  {
    forall j | 12 < j < G2Groups
      ensures G2SigTuple(12) != G2SigTuple(j) && G2Group(12) != G2Group(j)
    {
      assert j == 13 || j == 14 || j == 15 || j == 16 || j == 17 || j == 18 || j == 19 || j == 20 || j == 21 || j == 22 || j == 23 || j == 24 || j == 25 || j == 26 || j == 27 || j == 28 || j == 29 || j == 30 || j == 31 || j == 32 || j == 33 || j == 34 || j == 35 || j == 36 || j == 37 || j == 38 || j == 39 || j == 40 || j == 41 || j == 42 || j == 43 || j == 44 || j == 45 || j == 46 || j == 47 || j == 48 || j == 49 || j == 50 || j == 51;
    }
  }

  lemma G2DistinctFromLater13()
    ensures forall j | 13 < j < G2Groups :: G2SigTuple(13) != G2SigTuple(j) && G2Group(13) != G2Group(j)
  {
    forall j | 13 < j < G2Groups
      ensures G2SigTuple(13) != G2SigTuple(j) && G2Group(13) != G2Group(j)
    {
      assert j == 14 || j == 15 || j == 16 || j == 17 || j == 18 || j == 19 || j == 20 || j == 21 || j == 22 || j == 23 || j == 24 || j == 25 || j == 26 || j == 27 || j == 28 || j == 29 || j == 30 || j == 31 || j == 32 || j == 33 || j == 34 || j == 35 || j == 36 || j == 37 || j == 38 || j == 39 || j == 40 || j == 41 || j == 42 || j == 43 || j == 44 || j == 45 || j == 46 || j == 47 || j == 48 || j == 49 || j == 50 || j == 51;
    }
  }

  lemma G2DistinctFromLater14()
    ensures forall j | 14 < j < G2Groups :: G2SigTuple(14) != G2SigTuple(j) && G2Group(14) != G2Group(j)
  {
    forall j | 14 < j < G2Groups
      ensures G2SigTuple(14) != G2SigTuple(j) && G2Group(14) != G2Group(j)
    {
      assert j == 15 || j == 16 || j == 17 || j == 18 || j == 19 || j == 20 || j == 21 || j == 22 || j == 23 || j == 24 || j == 25 || j == 26 || j == 27 || j == 28 || j == 29 || j == 30 || j == 31 || j == 32 || j == 33 || j == 34 || j == 35 || j == 36 || j == 37 || j == 38 || j == 39 || j == 40 || j == 41 || j == 42 || j == 43 || j == 44 || j == 45 || j == 46 || j == 47 || j == 48 || j == 49 || j == 50 || j == 51;
    }
  }

  lemma G2DistinctFromLater15()
    ensures forall j | 15 < j < G2Groups :: G2SigTuple(15) != G2SigTuple(j) && G2Group(15) != G2Group(j)
  {
    forall j | 15 < j < G2Groups
      ensures G2SigTuple(15) != G2SigTuple(j) && G2Group(15) != G2Group(j)
    {
      assert j == 16 || j == 17 || j == 18 || j == 19 || j == 20 || j == 21 || j == 22 || j == 23 || j == 24 || j == 25 || j == 26 || j == 27 || j == 28 || j == 29 || j == 30 || j == 31 || j == 32 || j == 33 || j == 34 || j == 35 || j == 36 || j == 37 || j == 38 || j == 39 || j == 40 || j == 41 || j == 42 || j == 43 || j == 44 || j == 45 || j == 46 || j == 47 || j == 48 || j == 49 || j == 50 || j == 51;
    }
  }

  lemma G2DistinctFromLater16()
    ensures forall j | 16 < j < G2Groups :: G2SigTuple(16) != G2SigTuple(j) && G2Group(16) != G2Group(j)
  {
    forall j | 16 < j < G2Groups
      ensures G2SigTuple(16) != G2SigTuple(j) && G2Group(16) != G2Group(j)
    {
      assert j == 17 || j == 18 || j == 19 || j == 20 || j == 21 || j == 22 || j == 23 || j == 24 || j == 25 || j == 26 || j == 27 || j == 28 || j == 29 || j == 30 || j == 31 || j == 32 || j == 33 || j == 34 || j == 35 || j == 36 || j == 37 || j == 38 || j == 39 || j == 40 || j == 41 || j == 42 || j == 43 || j == 44 || j == 45 || j == 46 || j == 47 || j == 48 || j == 49 || j == 50 || j == 51;
    }
  }

  lemma G2DistinctFromLater17()
    ensures forall j | 17 < j < G2Groups :: G2SigTuple(17) != G2SigTuple(j) && G2Group(17) != G2Group(j)
  {
    forall j | 17 < j < G2Groups
      ensures G2SigTuple(17) != G2SigTuple(j) && G2Group(17) != G2Group(j)
    {
      assert j == 18 || j == 19 || j == 20 || j == 21 || j == 22 || j == 23 || j == 24 || j == 25 || j == 26 || j == 27 || j == 28 || j == 29 || j == 30 || j == 31 || j == 32 || j == 33 || j == 34 || j == 35 || j == 36 || j == 37 || j == 38 || j == 39 || j == 40 || j == 41 || j == 42 || j == 43 || j == 44 || j == 45 || j == 46 || j == 47 || j == 48 || j == 49 || j == 50 || j == 51;
    }
  }

  lemma G2DistinctFromLater18()
    ensures forall j | 18 < j < G2Groups :: G2SigTuple(18) != G2SigTuple(j) && G2Group(18) != G2Group(j)
  {
    forall j | 18 < j < G2Groups
      ensures G2SigTuple(18) != G2SigTuple(j) && G2Group(18) != G2Group(j)
    {
      assert j == 19 || j == 20 || j == 21 || j == 22 || j == 23 || j == 24 || j == 25 || j == 26 || j == 27 || j == 28 || j == 29 || j == 30 || j == 31 || j == 32 || j == 33 || j == 34 || j == 35 || j == 36 || j == 37 || j == 38 || j == 39 || j == 40 || j == 41 || j == 42 || j == 43 || j == 44 || j == 45 || j == 46 || j == 47 || j == 48 || j == 49 || j == 50 || j == 51;
    }
  }

  lemma G2DistinctFromLater19()
    ensures forall j | 19 < j < G2Groups :: G2SigTuple(19) != G2SigTuple(j) && G2Group(19) != G2Group(j)
  {
    forall j | 19 < j < G2Groups
      ensures G2SigTuple(19) != G2SigTuple(j) && G2Group(19) != G2Group(j)
    {
      assert j == 20 || j == 21 || j == 22 || j == 23 || j == 24 || j == 25 || j == 26 || j == 27 || j == 28 || j == 29 || j == 30 || j == 31 || j == 32 || j == 33 || j == 34 || j == 35 || j == 36 || j == 37 || j == 38 || j == 39 || j == 40 || j == 41 || j == 42 || j == 43 || j == 44 || j == 45 || j == 46 || j == 47 || j == 48 || j == 49 || j == 50 || j == 51;
    }
  }

  lemma G2DistinctFromLater20()
    ensures forall j | 20 < j < G2Groups :: G2SigTuple(20) != G2SigTuple(j) && G2Group(20) != G2Group(j)
  {
    forall j | 20 < j < G2Groups
      ensures G2SigTuple(20) != G2SigTuple(j) && G2Group(20) != G2Group(j)
    {
      assert j == 21 || j == 22 || j == 23 || j == 24 || j == 25 || j == 26 || j == 27 || j == 28 || j == 29 || j == 30 || j == 31 || j == 32 || j == 33 || j == 34 || j == 35 || j == 36 || j == 37 || j == 38 || j == 39 || j == 40 || j == 41 || j == 42 || j == 43 || j == 44 || j == 45 || j == 46 || j == 47 || j == 48 || j == 49 || j == 50 || j == 51;
    }
  }

  lemma G2DistinctFromLater21()
    ensures forall j | 21 < j < G2Groups :: G2SigTuple(21) != G2SigTuple(j) && G2Group(21) != G2Group(j)
  {
    forall j | 21 < j < G2Groups
      ensures G2SigTuple(21) != G2SigTuple(j) && G2Group(21) != G2Group(j)
    {
      assert j == 22 || j == 23 || j == 24 || j == 25 || j == 26 || j == 27 || j == 28 || j == 29 || j == 30 || j == 31 || j == 32 || j == 33 || j == 34 || j == 35 || j == 36 || j == 37 || j == 38 || j == 39 || j == 40 || j == 41 || j == 42 || j == 43 || j == 44 || j == 45 || j == 46 || j == 47 || j == 48 || j == 49 || j == 50 || j == 51;
    }
  }

  lemma G2DistinctFromLater22()
    ensures forall j | 22 < j < G2Groups :: G2SigTuple(22) != G2SigTuple(j) && G2Group(22) != G2Group(j)
  {
    forall j | 22 < j < G2Groups
      ensures G2SigTuple(22) != G2SigTuple(j) && G2Group(22) != G2Group(j)
    {
      assert j == 23 || j == 24 || j == 25 || j == 26 || j == 27 || j == 28 || j == 29 || j == 30 || j == 31 || j == 32 || j == 33 || j == 34 || j == 35 || j == 36 || j == 37 || j == 38 || j == 39 || j == 40 || j == 41 || j == 42 || j == 43 || j == 44 || j == 45 || j == 46 || j == 47 || j == 48 || j == 49 || j == 50 || j == 51;
    }
  }

  lemma G2DistinctFromLater23()
    ensures forall j | 23 < j < G2Groups :: G2SigTuple(23) != G2SigTuple(j) && G2Group(23) != G2Group(j)
  {
    forall j | 23 < j < G2Groups
      ensures G2SigTuple(23) != G2SigTuple(j) && G2Group(23) != G2Group(j)
    {
      assert j == 24 || j == 25 || j == 26 || j == 27 || j == 28 || j == 29 || j == 30 || j == 31 || j == 32 || j == 33 || j == 34 || j == 35 || j == 36 || j == 37 || j == 38 || j == 39 || j == 40 || j == 41 || j == 42 || j == 43 || j == 44 || j == 45 || j == 46 || j == 47 || j == 48 || j == 49 || j == 50 || j == 51;
    }
  }

  lemma G2DistinctFromLater24()
    ensures forall j | 24 < j < G2Groups :: G2SigTuple(24) != G2SigTuple(j) && G2Group(24) != G2Group(j)
  {
    forall j | 24 < j < G2Groups
      ensures G2SigTuple(24) != G2SigTuple(j) && G2Group(24) != G2Group(j)
    {
      assert j == 25 || j == 26 || j == 27 || j == 28 || j == 29 || j == 30 || j == 31 || j == 32 || j == 33 || j == 34 || j == 35 || j == 36 || j == 37 || j == 38 || j == 39 || j == 40 || j == 41 || j == 42 || j == 43 || j == 44 || j == 45 || j == 46 || j == 47 || j == 48 || j == 49 || j == 50 || j == 51;
    }
  }

  lemma G2DistinctFromLater25()
    ensures forall j | 25 < j < G2Groups :: G2SigTuple(25) != G2SigTuple(j) && G2Group(25) != G2Group(j)
  {
    forall j | 25 < j < G2Groups
      ensures G2SigTuple(25) != G2SigTuple(j) && G2Group(25) != G2Group(j)
    {
      assert j == 26 || j == 27 || j == 28 || j == 29 || j == 30 || j == 31 || j == 32 || j == 33 || j == 34 || j == 35 || j == 36 || j == 37 || j == 38 || j == 39 || j == 40 || j == 41 || j == 42 || j == 43 || j == 44 || j == 45 || j == 46 || j == 47 || j == 48 || j == 49 || j == 50 || j == 51;
    }
  }

  lemma G2DistinctFromLater26()
    ensures forall j | 26 < j < G2Groups :: G2SigTuple(26) != G2SigTuple(j) && G2Group(26) != G2Group(j)
  {
    forall j | 26 < j < G2Groups
      ensures G2SigTuple(26) != G2SigTuple(j) && G2Group(26) != G2Group(j)
    {
      assert j == 27 || j == 28 || j == 29 || j == 30 || j == 31 || j == 32 || j == 33 || j == 34 || j == 35 || j == 36 || j == 37 || j == 38 || j == 39 || j == 40 || j == 41 || j == 42 || j == 43 || j == 44 || j == 45 || j == 46 || j == 47 || j == 48 || j == 49 || j == 50 || j == 51;
    }
  }

  lemma G2DistinctFromLater27()
    ensures forall j | 27 < j < G2Groups :: G2SigTuple(27) != G2SigTuple(j) && G2Group(27) != G2Group(j)
  {
    forall j | 27 < j < G2Groups
      ensures G2SigTuple(27) != G2SigTuple(j) && G2Group(27) != G2Group(j)
    {
      assert j == 28 || j == 29 || j == 30 || j == 31 || j == 32 || j == 33 || j == 34 || j == 35 || j == 36 || j == 37 || j == 38 || j == 39 || j == 40 || j == 41 || j == 42 || j == 43 || j == 44 || j == 45 || j == 46 || j == 47 || j == 48 || j == 49 || j == 50 || j == 51;
    }
  }

  lemma G2DistinctFromLater28()
    ensures forall j | 28 < j < G2Groups :: G2SigTuple(28) != G2SigTuple(j) && G2Group(28) != G2Group(j)
  {
    forall j | 28 < j < G2Groups
      ensures G2SigTuple(28) != G2SigTuple(j) && G2Group(28) != G2Group(j)
    {
      assert j == 29 || j == 30 || j == 31 || j == 32 || j == 33 || j == 34 || j == 35 || j == 36 || j == 37 || j == 38 || j == 39 || j == 40 || j == 41 || j == 42 || j == 43 || j == 44 || j == 45 || j == 46 || j == 47 || j == 48 || j == 49 || j == 50 || j == 51;
    }
  }

  lemma G2DistinctFromLater29()
    ensures forall j | 29 < j < G2Groups :: G2SigTuple(29) != G2SigTuple(j) && G2Group(29) != G2Group(j)
  {
    forall j | 29 < j < G2Groups
      ensures G2SigTuple(29) != G2SigTuple(j) && G2Group(29) != G2Group(j)
    {
      assert j == 30 || j == 31 || j == 32 || j == 33 || j == 34 || j == 35 || j == 36 || j == 37 || j == 38 || j == 39 || j == 40 || j == 41 || j == 42 || j == 43 || j == 44 || j == 45 || j == 46 || j == 47 || j == 48 || j == 49 || j == 50 || j == 51;
    }
  }

  lemma G2DistinctFromLater30()
    ensures forall j | 30 < j < G2Groups :: G2SigTuple(30) != G2SigTuple(j) && G2Group(30) != G2Group(j)
  {
    forall j | 30 < j < G2Groups
      ensures G2SigTuple(30) != G2SigTuple(j) && G2Group(30) != G2Group(j)
    {
      assert j == 31 || j == 32 || j == 33 || j == 34 || j == 35 || j == 36 || j == 37 || j == 38 || j == 39 || j == 40 || j == 41 || j == 42 || j == 43 || j == 44 || j == 45 || j == 46 || j == 47 || j == 48 || j == 49 || j == 50 || j == 51;
    }
  }

  lemma G2DistinctFromLater31()
    ensures forall j | 31 < j < G2Groups :: G2SigTuple(31) != G2SigTuple(j) && G2Group(31) != G2Group(j)
  {
    forall j | 31 < j < G2Groups
      ensures G2SigTuple(31) != G2SigTuple(j) && G2Group(31) != G2Group(j)
    {
      assert j == 32 || j == 33 || j == 34 || j == 35 || j == 36 || j == 37 || j == 38 || j == 39 || j == 40 || j == 41 || j == 42 || j == 43 || j == 44 || j == 45 || j == 46 || j == 47 || j == 48 || j == 49 || j == 50 || j == 51;
    }
  }

  lemma G2DistinctFromLater32()
    ensures forall j | 32 < j < G2Groups :: G2SigTuple(32) != G2SigTuple(j) && G2Group(32) != G2Group(j)
  {
    forall j | 32 < j < G2Groups
      ensures G2SigTuple(32) != G2SigTuple(j) && G2Group(32) != G2Group(j)
    {
      assert j == 33 || j == 34 || j == 35 || j == 36 || j == 37 || j == 38 || j == 39 || j == 40 || j == 41 || j == 42 || j == 43 || j == 44 || j == 45 || j == 46 || j == 47 || j == 48 || j == 49 || j == 50 || j == 51;
    }
  }

  lemma G2DistinctFromLater33()
    ensures forall j | 33 < j < G2Groups :: G2SigTuple(33) != G2SigTuple(j) && G2Group(33) != G2Group(j)
  {
    forall j | 33 < j < G2Groups
      ensures G2SigTuple(33) != G2SigTuple(j) && G2Group(33) != G2Group(j)
    {
      assert j == 34 || j == 35 || j == 36 || j == 37 || j == 38 || j == 39 || j == 40 || j == 41 || j == 42 || j == 43 || j == 44 || j == 45 || j == 46 || j == 47 || j == 48 || j == 49 || j == 50 || j == 51;
    }
  }

  lemma G2DistinctFromLater34()
    ensures forall j | 34 < j < G2Groups :: G2SigTuple(34) != G2SigTuple(j) && G2Group(34) != G2Group(j)
  {
    forall j | 34 < j < G2Groups
      ensures G2SigTuple(34) != G2SigTuple(j) && G2Group(34) != G2Group(j)
    {
      assert j == 35 || j == 36 || j == 37 || j == 38 || j == 39 || j == 40 || j == 41 || j == 42 || j == 43 || j == 44 || j == 45 || j == 46 || j == 47 || j == 48 || j == 49 || j == 50 || j == 51;
    }
  }

  lemma G2DistinctFromLater35()
    ensures forall j | 35 < j < G2Groups :: G2SigTuple(35) != G2SigTuple(j) && G2Group(35) != G2Group(j)
  {
    forall j | 35 < j < G2Groups
      ensures G2SigTuple(35) != G2SigTuple(j) && G2Group(35) != G2Group(j)
    {
      assert j == 36 || j == 37 || j == 38 || j == 39 || j == 40 || j == 41 || j == 42 || j == 43 || j == 44 || j == 45 || j == 46 || j == 47 || j == 48 || j == 49 || j == 50 || j == 51;
    }
  }

  lemma G2DistinctFromLater36()
    ensures forall j | 36 < j < G2Groups :: G2SigTuple(36) != G2SigTuple(j) && G2Group(36) != G2Group(j)
  {
    forall j | 36 < j < G2Groups
      ensures G2SigTuple(36) != G2SigTuple(j) && G2Group(36) != G2Group(j)
    {
      assert j == 37 || j == 38 || j == 39 || j == 40 || j == 41 || j == 42 || j == 43 || j == 44 || j == 45 || j == 46 || j == 47 || j == 48 || j == 49 || j == 50 || j == 51;
    }
  }

  lemma G2DistinctFromLater37()
    ensures forall j | 37 < j < G2Groups :: G2SigTuple(37) != G2SigTuple(j) && G2Group(37) != G2Group(j)
  {
    forall j | 37 < j < G2Groups
      ensures G2SigTuple(37) != G2SigTuple(j) && G2Group(37) != G2Group(j)
    {
      assert j == 38 || j == 39 || j == 40 || j == 41 || j == 42 || j == 43 || j == 44 || j == 45 || j == 46 || j == 47 || j == 48 || j == 49 || j == 50 || j == 51;
    }
  }

  lemma G2DistinctFromLater38()
    ensures forall j | 38 < j < G2Groups :: G2SigTuple(38) != G2SigTuple(j) && G2Group(38) != G2Group(j)
  {
    forall j | 38 < j < G2Groups
      ensures G2SigTuple(38) != G2SigTuple(j) && G2Group(38) != G2Group(j)
    {
      assert j == 39 || j == 40 || j == 41 || j == 42 || j == 43 || j == 44 || j == 45 || j == 46 || j == 47 || j == 48 || j == 49 || j == 50 || j == 51;
    }
  }

  lemma G2DistinctFromLater39()
    ensures forall j | 39 < j < G2Groups :: G2SigTuple(39) != G2SigTuple(j) && G2Group(39) != G2Group(j)
  {
    forall j | 39 < j < G2Groups
      ensures G2SigTuple(39) != G2SigTuple(j) && G2Group(39) != G2Group(j)
    {
      assert j == 40 || j == 41 || j == 42 || j == 43 || j == 44 || j == 45 || j == 46 || j == 47 || j == 48 || j == 49 || j == 50 || j == 51;
    }
  }

  lemma G2DistinctFromLater40()
    ensures forall j | 40 < j < G2Groups :: G2SigTuple(40) != G2SigTuple(j) && G2Group(40) != G2Group(j)
  {
    forall j | 40 < j < G2Groups
      ensures G2SigTuple(40) != G2SigTuple(j) && G2Group(40) != G2Group(j)
    {
      assert j == 41 || j == 42 || j == 43 || j == 44 || j == 45 || j == 46 || j == 47 || j == 48 || j == 49 || j == 50 || j == 51;
    }
  }

  lemma G2DistinctFromLater41()
    ensures forall j | 41 < j < G2Groups :: G2SigTuple(41) != G2SigTuple(j) && G2Group(41) != G2Group(j)
  {
    forall j | 41 < j < G2Groups
      ensures G2SigTuple(41) != G2SigTuple(j) && G2Group(41) != G2Group(j)
    {
      assert j == 42 || j == 43 || j == 44 || j == 45 || j == 46 || j == 47 || j == 48 || j == 49 || j == 50 || j == 51;
    }
  }

  lemma G2DistinctFromLater42()
    ensures forall j | 42 < j < G2Groups :: G2SigTuple(42) != G2SigTuple(j) && G2Group(42) != G2Group(j)
  {
    forall j | 42 < j < G2Groups
      ensures G2SigTuple(42) != G2SigTuple(j) && G2Group(42) != G2Group(j)
    {
      assert j == 43 || j == 44 || j == 45 || j == 46 || j == 47 || j == 48 || j == 49 || j == 50 || j == 51;
    }
  }

  lemma G2DistinctFromLater43()
    ensures forall j | 43 < j < G2Groups :: G2SigTuple(43) != G2SigTuple(j) && G2Group(43) != G2Group(j)
  {
    forall j | 43 < j < G2Groups
      ensures G2SigTuple(43) != G2SigTuple(j) && G2Group(43) != G2Group(j)
    {
      assert j == 44 || j == 45 || j == 46 || j == 47 || j == 48 || j == 49 || j == 50 || j == 51;
    }
  }

  lemma G2DistinctFromLater44()
    ensures forall j | 44 < j < G2Groups :: G2SigTuple(44) != G2SigTuple(j) && G2Group(44) != G2Group(j)
  {
    forall j | 44 < j < G2Groups
      ensures G2SigTuple(44) != G2SigTuple(j) && G2Group(44) != G2Group(j)
    {
      assert j == 45 || j == 46 || j == 47 || j == 48 || j == 49 || j == 50 || j == 51;
    }
  }

  lemma G2DistinctFromLater45()
    ensures forall j | 45 < j < G2Groups :: G2SigTuple(45) != G2SigTuple(j) && G2Group(45) != G2Group(j)
  {
    forall j | 45 < j < G2Groups
      ensures G2SigTuple(45) != G2SigTuple(j) && G2Group(45) != G2Group(j)
    {
      assert j == 46 || j == 47 || j == 48 || j == 49 || j == 50 || j == 51;
    }
  }

  lemma G2DistinctFromLater46()
    ensures forall j | 46 < j < G2Groups :: G2SigTuple(46) != G2SigTuple(j) && G2Group(46) != G2Group(j)
  {
    forall j | 46 < j < G2Groups
      ensures G2SigTuple(46) != G2SigTuple(j) && G2Group(46) != G2Group(j)
    {
      assert j == 47 || j == 48 || j == 49 || j == 50 || j == 51;
    }
  }

  lemma G2DistinctFromLater47()
    ensures forall j | 47 < j < G2Groups :: G2SigTuple(47) != G2SigTuple(j) && G2Group(47) != G2Group(j)
  {
    forall j | 47 < j < G2Groups
      ensures G2SigTuple(47) != G2SigTuple(j) && G2Group(47) != G2Group(j)
    {
      assert j == 48 || j == 49 || j == 50 || j == 51;
    }
  }

  lemma G2DistinctFromLater48()
    ensures forall j | 48 < j < G2Groups :: G2SigTuple(48) != G2SigTuple(j) && G2Group(48) != G2Group(j)
  {
    forall j | 48 < j < G2Groups
      ensures G2SigTuple(48) != G2SigTuple(j) && G2Group(48) != G2Group(j)
    {
      assert j == 49 || j == 50 || j == 51;
    }
  }

  lemma G2DistinctFromLater49()
    ensures forall j | 49 < j < G2Groups :: G2SigTuple(49) != G2SigTuple(j) && G2Group(49) != G2Group(j)
  {
    forall j | 49 < j < G2Groups
      ensures G2SigTuple(49) != G2SigTuple(j) && G2Group(49) != G2Group(j)
    {
      assert j == 50 || j == 51;
    }
  }

  lemma G2DistinctFromLater50()
    ensures forall j | 50 < j < G2Groups :: G2SigTuple(50) != G2SigTuple(j) && G2Group(50) != G2Group(j)
  {
    forall j | 50 < j < G2Groups
      ensures G2SigTuple(50) != G2SigTuple(j) && G2Group(50) != G2Group(j)
    {
      assert j == 51;
    }
  }

  lemma G2DistinctChunk0()
    ensures forall i, j | 0 <= i < 13 && i < j < G2Groups ::
      G2SigTuple(i) != G2SigTuple(j) && G2Group(i) != G2Group(j)
  {
    forall i, j | 0 <= i < 13 && i < j < G2Groups
      ensures G2SigTuple(i) != G2SigTuple(j) && G2Group(i) != G2Group(j)
    {
      if i == 0 {
        G2DistinctFromLater0();
      } else if i == 1 {
        G2DistinctFromLater1();
      } else if i == 2 {
        G2DistinctFromLater2();
      } else if i == 3 {
        G2DistinctFromLater3();
      } else if i == 4 {
        G2DistinctFromLater4();
      } else if i == 5 {
        G2DistinctFromLater5();
      } else if i == 6 {
        G2DistinctFromLater6();
      } else if i == 7 {
        G2DistinctFromLater7();
      } else if i == 8 {
        G2DistinctFromLater8();
      } else if i == 9 {
        G2DistinctFromLater9();
      } else if i == 10 {
        G2DistinctFromLater10();
      } else if i == 11 {
        G2DistinctFromLater11();
      } else {
        G2DistinctFromLater12();
      }
    }
  }

  lemma G2DistinctChunk13()
    ensures forall i, j | 13 <= i < 26 && i < j < G2Groups ::
      G2SigTuple(i) != G2SigTuple(j) && G2Group(i) != G2Group(j)
  {
    forall i, j | 13 <= i < 26 && i < j < G2Groups
      ensures G2SigTuple(i) != G2SigTuple(j) && G2Group(i) != G2Group(j)
    {
      if i == 13 {
        G2DistinctFromLater13();
      } else if i == 14 {
        G2DistinctFromLater14();
      } else if i == 15 {
        G2DistinctFromLater15();
      } else if i == 16 {
        G2DistinctFromLater16();
      } else if i == 17 {
        G2DistinctFromLater17();
      } else if i == 18 {
        G2DistinctFromLater18();
      } else if i == 19 {
        G2DistinctFromLater19();
      } else if i == 20 {
        G2DistinctFromLater20();
      } else if i == 21 {
        G2DistinctFromLater21();
      } else if i == 22 {
        G2DistinctFromLater22();
      } else if i == 23 {
        G2DistinctFromLater23();
      } else if i == 24 {
        G2DistinctFromLater24();
      } else {
        G2DistinctFromLater25();
      }
    }
  }

  lemma G2DistinctChunk26()
    ensures forall i, j | 26 <= i < 39 && i < j < G2Groups ::
      G2SigTuple(i) != G2SigTuple(j) && G2Group(i) != G2Group(j)
  {
    forall i, j | 26 <= i < 39 && i < j < G2Groups
      ensures G2SigTuple(i) != G2SigTuple(j) && G2Group(i) != G2Group(j)
    {
      if i == 26 {
        G2DistinctFromLater26();
      } else if i == 27 {
        G2DistinctFromLater27();
      } else if i == 28 {
        G2DistinctFromLater28();
      } else if i == 29 {
        G2DistinctFromLater29();
      } else if i == 30 {
        G2DistinctFromLater30();
      } else if i == 31 {
        G2DistinctFromLater31();
      } else if i == 32 {
        G2DistinctFromLater32();
      } else if i == 33 {
        G2DistinctFromLater33();
      } else if i == 34 {
        G2DistinctFromLater34();
      } else if i == 35 {
        G2DistinctFromLater35();
      } else if i == 36 {
        G2DistinctFromLater36();
      } else if i == 37 {
        G2DistinctFromLater37();
      } else {
        G2DistinctFromLater38();
      }
    }
  }

  lemma G2DistinctChunk39()
    ensures forall i, j | 39 <= i < 51 && i < j < G2Groups ::
      G2SigTuple(i) != G2SigTuple(j) && G2Group(i) != G2Group(j)
  {
    forall i, j | 39 <= i < 51 && i < j < G2Groups
      ensures G2SigTuple(i) != G2SigTuple(j) && G2Group(i) != G2Group(j)
    {
      if i == 39 {
        G2DistinctFromLater39();
      } else if i == 40 {
        G2DistinctFromLater40();
      } else if i == 41 {
        G2DistinctFromLater41();
      } else if i == 42 {
        G2DistinctFromLater42();
      } else if i == 43 {
        G2DistinctFromLater43();
      } else if i == 44 {
        G2DistinctFromLater44();
      } else if i == 45 {
        G2DistinctFromLater45();
      } else if i == 46 {
        G2DistinctFromLater46();
      } else if i == 47 {
        G2DistinctFromLater47();
      } else if i == 48 {
        G2DistinctFromLater48();
      } else if i == 49 {
        G2DistinctFromLater49();
      } else {
        G2DistinctFromLater50();
      }
    }
  }

  /** The genus 2 signature tuples are pairwise distinct. */
  lemma G2TuplesDistinct()
    ensures forall i, j | 0 <= i < G2Groups && 0 <= j < G2Groups && i != j :: G2SigTuple(i) != G2SigTuple(j)
  {
    G2DistinctChunk0();
    G2DistinctChunk13();
    G2DistinctChunk26();
    G2DistinctChunk39();
  }

  /** The genus 2 group names are pairwise distinct. */
  lemma G2NamesDistinct()
    ensures forall i, j | 0 <= i < G2Groups && 0 <= j < G2Groups && i != j :: G2Group(i) != G2Group(j)
  {
    G2DistinctChunk0();
    G2DistinctChunk13();
    G2DistinctChunk26();
    G2DistinctChunk39();
  }
}
