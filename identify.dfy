/** Identification of the Sato-Tate group of a curve from its Frobenius traces
    (smalljac/STgroups.c lines 192-268). For every good prime p the callback receives the
    coefficients a[0] (and a[1] in genus 2) of the L-polynomial at p and accumulates
    statistics of the normalized values; whenever p passes a checkpoint it looks the
    statistics up in the catalog, and it stops once the same group has been found at
    REQUIRED_MATCHES consecutive checkpoints. Checkpoints start at CHECK_START and grow by
    the factor CHECK_RATIO after every checkpoint that does not stop the search.

    Module Identify first states the callback and the driver as functions on a value that
    mirrors struct g2_sigtab_ctx, then gives the imperative form: class IdentifyContext,
    whose Observe method updates the fields in place, and method IdentifySTGroup, whose
    loop stands in for smalljac_Lpolys feeding one prime after another to the callback. */
module Identify {
  import opened Format
  import opened Catalog
  import opened Lookup

  /** CHECK_START */
  const CheckStart := 16384
  /** CHECK_RATIO */
  const CheckRatio := 1.5
  /** REQUIRED_MATCHES */
  const RequiredMatches := 3

  /** C's conversion of a double to an int: truncation toward zero. */
  function Truncate(x: real): (r: int)
    ensures x >= 0.0 ==> r as real <= x < r as real + 1.0
  {
    if x >= 0.0 then x.Floor else -((-x).Floor)
  }

  /** The next checkpoint: ctx->chkp = CHECK_RATIO * ctx->chkp. */
  function Grow(chkp: int): int {
    Truncate(CheckRatio * chkp as real)
  }

  /** The checkpoint after k growths from CheckStart. */
  function CheckpointAfter(k: nat): int {
    if k == 0 then CheckStart else Grow(CheckpointAfter(k - 1))
  }

  /** Checkpoints grow strictly: a positive checkpoint of at least 2 grows by its half,
      rounded down. */
  lemma GrowIsThreeHalves(chkp: int)
    requires chkp >= 0
    ensures Grow(chkp) == (3 * chkp) / 2
    ensures chkp >= 2 ==> Grow(chkp) > chkp
  {
    var x := CheckRatio * chkp as real;
    assert x == (3 * chkp) as real / 2.0;
    var q := (3 * chkp) / 2;
    assert q as real <= x < q as real + 1.0;
  }

  /** The first three checkpoints are 16384, 24576 and 36864. */
  lemma FirstCheckpoints()
    ensures CheckpointAfter(1) == 24576 && CheckpointAfter(2) == 36864
  {
    GrowIsThreeHalves(16384);
    GrowIsThreeHalves(24576);
  }

  /** Checkpoints never shrink and stay at least CheckStart. */
  lemma {:induction false} CheckpointsIncrease(k: nat)
    ensures CheckpointAfter(k) >= CheckStart
    ensures CheckpointAfter(k + 1) > CheckpointAfter(k)
  {
    if k > 0 {
      CheckpointsIncrease(k - 1);
    }
    GrowIsThreeHalves(CheckpointAfter(k));
  }

  /** struct g2_sigtab_ctx: counts of a[0] = 0 and of a[1] = b * p for b = -2..2, the number of
      primes seen, the next checkpoint, running sums of (a[0]^2/p)^k for k = 1, 2 (entries 1
      and 2 of a1sq) and of (a[1]/p)^k for k = 1..3 (entries 1..3 of a2), the sum of a[0], the
      number of consecutive checkpoints that found the same group, and that group. Entry 0
      of a1sq and a2 is never used. */
  datatype Context = Context(z1cnt: int, z2cnts: seq<int>, cnt: int, chkp: int,
                             a1sq: seq<real>, a2: seq<real>, a1tot: int,
                             matchCount: int, stGroup: string)

  predicate Shaped(c: Context) {
    |c.z2cnts| == 5 && |c.a1sq| == 3 && |c.a2| == 4 && c.cnt >= 0
  }

  /** The context after memset (&ctx, 0, sizeof(ctx)) and ctx.chkp = CHECK_START. */
  function Initial(): Context {
    Context(0, [0, 0, 0, 0, 0], 0, CheckStart, [0.0, 0.0, 0.0], [0.0, 0.0, 0.0, 0.0], 0, 0, "")
  }

  /** The part of the callback that updates the statistics with the coefficients a[0..n-1]
      of the L-polynomial at p. The C test `!(a[1] % p)` and the quotient a[1] / p agree
      with Dafny's operators here: the test is whether p divides a[1], and the quotient is
      only taken when it does. */
  function Accumulate(c: Context, p: int, a: seq<int>, n: int): (r: Context)
    requires Shaped(c) && p >= 1 && 1 <= n <= 2 && |a| >= n
    ensures Shaped(r) && r.cnt == c.cnt + 1
    ensures r.chkp == c.chkp && r.matchCount == c.matchCount && r.stGroup == c.stGroup
  {
    var c1 := CountTrace(c, p, a[0]);
    if n > 1 then CountSecondCoefficient(c1, p, a[1]) else c1
  }

  /** The genus 1 part: the prime, its trace a0, and (a0^2/p)^k for k = 1, 2. */
  function CountTrace(c: Context, p: int, a0: int): Context
    requires Shaped(c) && p >= 1
  {
    var x := (a0 * a0) as real / p as real;
    c.(cnt := c.cnt + 1, a1tot := c.a1tot + a0,
       a1sq := c.a1sq[1 := c.a1sq[1] + x][2 := c.a1sq[2] + x * x],
       z1cnt := if a0 == 0 then c.z1cnt + 1 else c.z1cnt)
  }

  /** The genus 2 part: (a1/p)^k for k = 1..3, and the slot of a1 = b * p for b = -2..2. */
  function CountSecondCoefficient(c: Context, p: int, a1: int): Context
    requires Shaped(c) && p >= 1
  {
    var y := a1 as real / p as real;
    var c1 := c.(a2 := c.a2[1 := c.a2[1] + y][2 := c.a2[2] + y * y][3 := c.a2[3] + y * y * y]);
    if a1 % p == 0 && -2 <= a1 / p <= 2 then
      c1.(z2cnts := c1.z2cnts[2 + a1 / p := c1.z2cnts[2 + a1 / p] + 1])
    else
      c1
  }

  /** The statistics the callback passes to the lookups: the density of a1 = 0, the
      densities of a2 = b for b = -2..2, and the averages m1sq[k] of (a[0]^2/p)^k and
      m2[k] of (a[1]/p)^k. Entry 0 of m1sq and m2 is left uninitialized by the source and
      never read by the lookups; it is 0.0 here. */
  function Z1Density(c: Context): real
    requires Shaped(c) && c.cnt > 0
  {
    Ratio(c.z1cnt, c.cnt)
  }

  function Z2Densities(c: Context): seq<real>
    requires Shaped(c) && c.cnt > 0
  {
    [Ratio(c.z2cnts[0], c.cnt), Ratio(c.z2cnts[1], c.cnt), Ratio(c.z2cnts[2], c.cnt),
     Ratio(c.z2cnts[3], c.cnt), Ratio(c.z2cnts[4], c.cnt)]
  }

  /** The average sum/total of a sum over total samples. */
  function Average(sum: real, total: int): (r: real)
    requires total > 0
    ensures sum >= 0.0 ==> r >= 0.0
  {
    sum / total as real
  }

  /** The density (double)count/total of a count among total samples. */
  function Ratio(count: int, total: int): (r: real)
    requires total > 0
    ensures count >= 0 ==> r >= 0.0
  {
    count as real / total as real
  }

  function A1Averages(c: Context): seq<real>
    requires Shaped(c) && c.cnt > 0
  {
    [0.0, Average(c.a1sq[1], c.cnt), Average(c.a1sq[2], c.cnt)]
  }

  function A2Averages(c: Context): seq<real>
    requires Shaped(c) && c.cnt > 0
  {
    [0.0, Average(c.a2[1], c.cnt), Average(c.a2[2], c.cnt), Average(c.a2[3], c.cnt)]
  }

  /** The group the lookup names at a checkpoint: smalljac_lookup_g2_STgroup when n > 1,
      smalljac_lookup_g1_STgroup otherwise. The callback only looks up after counting at
      least one prime, so the guard never fails there. */
  function Classify(c: Context, n: int): Option<string> {
    if Shaped(c) && c.cnt > 0 then
      if n > 1 then LookupG2(Z1Density(c), Z2Densities(c), A1Averages(c), A2Averages(c))
      else LookupG1(Z1Density(c), A1Averages(c))
    else None
  }

  /** The bookkeeping after a checkpoint lookup: a repeated group extends the streak and
      stops the search when the streak reaches RequiredMatches (before the checkpoint
      grows); a new group starts a streak of 1; no group resets the streak to 0. */
  function Settle(c: Context, verdict: Option<string>): (r: (Context, bool))
    ensures r.0 == c.(chkp := r.0.chkp, matchCount := r.0.matchCount, stGroup := r.0.stGroup)
    ensures Shaped(c) ==> Shaped(r.0)
    ensures !r.1 <==> verdict == Some(c.stGroup) && c.matchCount + 1 == RequiredMatches
    ensures r.0.chkp == if r.1 then Grow(c.chkp) else c.chkp
  {
    match verdict
    case Some(g) =>
      if g == c.stGroup then
        if c.matchCount + 1 == RequiredMatches then (c.(matchCount := c.matchCount + 1), false)
        else (c.(matchCount := c.matchCount + 1, chkp := Grow(c.chkp)), true)
      else (c.(stGroup := g, matchCount := 1, chkp := Grow(c.chkp)), true)
    case None => (c.(matchCount := 0, chkp := Grow(c.chkp)), true)
  }

  /** Whether the observation at p after accumulating is a checkpoint. */
  predicate IsCheckpoint(c: Context, p: int) {
    p > c.chkp
  }

  /** smalljac_identify_STgroup_callback with the checkpoint lookup as a parameter: the new
      context and whether to go on (the C return value 1). An n other than 1 or 2 stops at
      once and changes nothing. The bookkeeping below is stated for every lookup. */
  function CallbackWith(lookup: (Context, int) -> Option<string>, c: Context, p: int, a: seq<int>,
                        n: int): (r: (Context, bool))
    requires Shaped(c) && (1 <= n <= 2 ==> p >= 1 && |a| >= n)
    ensures Shaped(r.0)
  {
    if n < 1 || n > 2 then (c, false)
    else
      var c1 := Accumulate(c, p, a, n);
      if IsCheckpoint(c1, p) then Settle(c1, lookup(c1, n)) else (c1, true)
  }

  /** smalljac_identify_STgroup_callback itself, looking up with Classify. */
  function Callback(c: Context, p: int, a: seq<int>, n: int): (Context, bool)
    requires Shaped(c) && (1 <= n <= 2 ==> p >= 1 && |a| >= n)
  {
    CallbackWith(Classify, c, p, a, n)
  }

  /** The coefficients smalljac_Lpolys reports for one good prime. */
  datatype Observation = Observation(p: int, a: seq<int>)

  /** What the callback needs of each observation it is given for genus n. */
  predicate Admissible(obs: seq<Observation>, n: int) {
    forall k | 0 <= k < |obs| :: 1 <= n <= 2 ==> obs[k].p >= 1 && |obs[k].a| >= n
  }

  /** The whole run: the final context, how many observations were passed to the callback,
      whether the callback stopped the run, and the lookup results of the checkpoints in
      the order they happened. */
  datatype Outcome = Outcome(ctx: Context, seen: nat, stopped: bool, verdicts: seq<Option<string>>)

  /** Feeding the observations to the callback in order until it returns 0. */
  function RunWith(lookup: (Context, int) -> Option<string>, c: Context, obs: seq<Observation>,
                   n: int): (o: Outcome)
    requires Shaped(c) && Admissible(obs, n)
    ensures Shaped(o.ctx) && o.seen <= |obs| && (!o.stopped ==> o.seen == |obs|)
    decreases |obs|, 1
  {
    if |obs| == 0 then Outcome(c, 0, false, []) else StepWith(lookup, c, obs, n)
  }

  /** One call of the callback on the first observation, then the rest of the run unless the
      callback returned 0. */
  function StepWith(lookup: (Context, int) -> Option<string>, c: Context, obs: seq<Observation>,
                    n: int): (o: Outcome)
    requires Shaped(c) && Admissible(obs, n) && |obs| > 0
    ensures Shaped(o.ctx) && o.seen <= |obs| && (!o.stopped ==> o.seen == |obs|)
    decreases |obs|, 0
  {
    var r := CallbackWith(lookup, c, obs[0].p, obs[0].a, n);
    var v := if 1 <= n <= 2 && IsCheckpoint(Accumulate(c, obs[0].p, obs[0].a, n), obs[0].p)
             then [lookup(Accumulate(c, obs[0].p, obs[0].a, n), n)] else [];
    if !r.1 then Outcome(r.0, 1, true, v)
    else
      var o := RunWith(lookup, r.0, obs[1..], n);
      Outcome(o.ctx, o.seen + 1, o.stopped, v + o.verdicts)
  }

  /** The run's bookkeeping one step at a time, for a genus the callback supports: the
      statistics change in some way that leaves the checkpoint, the streak and its group
      alone, and a checkpoint settles the verdict of the lookup. */
  lemma StepBookkeeping(lookup: (Context, int) -> Option<string>, c: Context,
                        obs: seq<Observation>, n: int) returns (c1: Context)
    requires Shaped(c) && Admissible(obs, n) && |obs| > 0 && 1 <= n <= 2
    ensures Admissible(obs[1..], n)
    ensures c1 == Accumulate(c, obs[0].p, obs[0].a, n)
    ensures Shaped(c1) && c1.cnt == c.cnt + 1 && c1.chkp == c.chkp &&
            c1.matchCount == c.matchCount && c1.stGroup == c.stGroup
    ensures
      StepWith(lookup, c, obs, n) ==
        if obs[0].p > c1.chkp then
          var x := lookup(c1, n);
          var r := Settle(c1, x);
          if r.1 then
            var o := RunWith(lookup, r.0, obs[1..], n);
            Outcome(o.ctx, o.seen + 1, o.stopped, [x] + o.verdicts)
          else Outcome(r.0, 1, true, [x])
        else
          var o := RunWith(lookup, c1, obs[1..], n);
          Outcome(o.ctx, o.seen + 1, o.stopped, o.verdicts)
  {
    assert Admissible(obs[1..], n);
    c1 := Accumulate(c, obs[0].p, obs[0].a, n);
    if !(obs[0].p > c1.chkp) {
      assert [] + RunWith(lookup, c1, obs[1..], n).verdicts == RunWith(lookup, c1, obs[1..], n).verdicts;
    }
  }

  /** smalljac_identify_STgroup with the checkpoint lookup as a parameter: the group found
      REQUIRED_MATCHES times in a row, or None when the genus exceeds 2, when smalljac_Lpolys
      reports an error (a negative status), or when the primes ran out first. */
  function IdentifyWith(lookup: (Context, int) -> Option<string>, genus: int,
                        obs: seq<Observation>, status: int): Option<string>
    requires Admissible(obs, genus)
  {
    if genus > 2 then None
    else
      var o := RunWith(lookup, Initial(), obs, genus);
      if status < 0 then None
      else if o.ctx.matchCount >= RequiredMatches then Some(o.ctx.stGroup)
      else None
  }

  /** smalljac_identify_STgroup itself. */
  function Identify(genus: int, obs: seq<Observation>, status: int): Option<string>
    requires Admissible(obs, genus)
  {
    IdentifyWith(Classify, genus, obs, status)
  }

  /** The lookup results of the checkpoints of a whole run for genus n. */
  function Verdicts(genus: int, obs: seq<Observation>): seq<Option<string>>
    requires Admissible(obs, genus)
  {
    RunWith(Classify, Initial(), obs, genus).verdicts
  }

  // ---------------------------------------------------------------------------------------
  // Consecutive matches

  /** The number of trailing entries of v equal to x. */
  function TrailingRun(v: seq<Option<string>>, x: Option<string>): nat
    decreases |v|
  {
    if |v| == 0 || v[|v| - 1] != x then 0 else 1 + TrailingRun(v[..|v| - 1], x)
  }

  /** The length of the run of one and the same found group at the end of v. */
  function Streak(v: seq<Option<string>>): nat {
    if |v| == 0 || v[|v| - 1].None? then 0 else TrailingRun(v, v[|v| - 1])
  }

  /** Checkpoints j, j + 1 and j + 2 found the same group. */
  predicate Triple(v: seq<Option<string>>, j: int) {
    0 <= j && j + 2 < |v| && v[j].Some? && v[j] == v[j + 1] && v[j + 1] == v[j + 2]
  }

  /** How one more verdict changes the streak. */
  lemma StreakAppend(v: seq<Option<string>>, x: Option<string>)
    ensures Streak(v + [x]) ==
            if x.None? then 0 else if |v| > 0 && v[|v| - 1] == x then Streak(v) + 1 else 1
  {
    var w := v + [x];
    assert w[..|w| - 1] == v;
    if x.Some? && !(|v| > 0 && v[|v| - 1] == x) {
      assert TrailingRun(v, x) == 0;
    }
  }

  /** A streak of at least three is a triple at the end. */
  lemma StreakThree(v: seq<Option<string>>)
    ensures Streak(v) >= 3 <==> Triple(v, |v| - 3)
  {
    if |v| > 0 && v[|v| - 1].Some? {
      var x := v[|v| - 1];
      var v1 := v[..|v| - 1];
      assert TrailingRun(v, x) == 1 + TrailingRun(v1, x);
      if |v1| > 0 && v1[|v1| - 1] == x {
        var v2 := v1[..|v1| - 1];
        assert TrailingRun(v1, x) == 1 + TrailingRun(v2, x);
        assert TrailingRun(v2, x) >= 1 <==> |v2| > 0 && v2[|v2| - 1] == x;
        if |v2| > 0 {
          assert v2[|v2| - 1] == v[|v| - 3];
        }
      } else {
        assert TrailingRun(v1, x) == 0;
        if |v1| > 0 {
          assert v1[|v1| - 1] == v[|v| - 2];
        }
      }
    }
  }

  /** One more verdict adds no earlier triple when there was none at the end before. */
  lemma NoEarlierTripleAppend(h: seq<Option<string>>, x: Option<string>)
    requires NoEarlierTriple(h) && !Triple(h, |h| - 3)
    ensures NoEarlierTriple(h + [x])
  {
    var w := h + [x];
    forall j | 0 <= j && j + 3 < |w|
      ensures !Triple(w, j)
    {
      assert w[j] == h[j] && w[j + 1] == h[j + 1] && w[j + 2] == h[j + 2];
      if j + 3 < |h| {
        assert !Triple(h, j);
      }
    }
  }

  /** The context's matchCount is the streak of the verdicts so far, and a positive streak
      is a streak of the context's group. */
  predicate StreakKept(c: Context, h: seq<Option<string>>) {
    c.matchCount == Streak(h) && (Streak(h) > 0 ==> h[|h| - 1] == Some(c.stGroup))
  }

  /** No three consecutive checkpoints found the same group, except perhaps the last three. */
  predicate NoEarlierTriple(v: seq<Option<string>>) {
    forall j | 0 <= j && j + 3 < |v| :: !Triple(v, j)
  }

  lemma SettleKeepsStreak(c: Context, x: Option<string>, h: seq<Option<string>>)
    requires StreakKept(c, h) && Streak(h) < RequiredMatches
    ensures StreakKept(Settle(c, x).0, h + [x])
    ensures Settle(c, x).1 <==> Streak(h + [x]) < RequiredMatches
  {
    StreakAppend(h, x);
  }

  /** Along a run the streak of the verdicts is kept in matchCount, the run stops exactly
      when the streak reaches RequiredMatches, and before that no triple occurs. */
  lemma {:induction false} RunKeepsStreak(lookup: (Context, int) -> Option<string>, c: Context,
                                          obs: seq<Observation>, n: int, h: seq<Option<string>>)
    requires Shaped(c) && 1 <= n <= 2 && Admissible(obs, n)
    requires StreakKept(c, h) && Streak(h) < RequiredMatches && NoEarlierTriple(h)
    ensures var o := RunWith(lookup, c, obs, n);
      var w := h + o.verdicts;
      StreakKept(o.ctx, w) && NoEarlierTriple(w) && Streak(w) <= RequiredMatches &&
      (o.stopped <==> Streak(w) >= RequiredMatches)
    decreases |obs|
  {
    StreakThree(h);
    var o := RunWith(lookup, c, obs, n);
    if |obs| == 0 {
      assert h + o.verdicts == h;
    } else {
      var c1 := StepBookkeeping(lookup, c, obs, n);
      if obs[0].p > c1.chkp {
        var x := lookup(c1, n);
        var r := Settle(c1, x);
        var h1 := h + [x];
        SettleKeepsStreak(c1, x, h);
        NoEarlierTripleAppend(h, x);
        if r.1 {
          StreakThree(h1);
          var o1 := RunWith(lookup, r.0, obs[1..], n);
          RunKeepsStreak(lookup, r.0, obs[1..], n, h1);
          assert h + o.verdicts == h1 + o1.verdicts;
        }
      } else {
        RunKeepsStreak(lookup, c1, obs[1..], n, h);
      }
    }
  }

  /** From the zeroed context match_count is the streak of the run's verdicts, which never
      exceeds RequiredMatches, the run stops exactly when it reaches it, and no triple
      comes before the last three verdicts. */
  lemma RunFromInitialKeepsStreak(lookup: (Context, int) -> Option<string>, genus: int,
                                  obs: seq<Observation>)
    requires 1 <= genus <= 2 && Admissible(obs, genus)
    ensures var o := RunWith(lookup, Initial(), obs, genus);
      StreakKept(o.ctx, o.verdicts) && NoEarlierTriple(o.verdicts) &&
      Streak(o.verdicts) <= RequiredMatches &&
      (o.stopped <==> Streak(o.verdicts) >= RequiredMatches)
  {
    var o := RunWith(lookup, Initial(), obs, genus);
    RunKeepsStreak(lookup, Initial(), obs, genus, []);
    assert [] + o.verdicts == o.verdicts;
  }

  /** smalljac_identify_STgroup names a group exactly when three consecutive checkpoint
      lookups named it (and smalljac_Lpolys reported no error), and it stops at the first
      such triple: no three consecutive checkpoints before the last three agree. */
  lemma IdentifyWithThreeInARow(lookup: (Context, int) -> Option<string>, genus: int,
                                obs: seq<Observation>, status: int)
    requires 1 <= genus <= 2 && Admissible(obs, genus)
    ensures var v := RunWith(lookup, Initial(), obs, genus).verdicts;
      var g := IdentifyWith(lookup, genus, obs, status);
      (g.Some? <==> status >= 0 && Triple(v, |v| - 3)) &&
      (g.Some? ==> v[|v| - 1] == Some(g.value)) &&
      NoEarlierTriple(v)
  {
    var o := RunWith(lookup, Initial(), obs, genus);
    RunFromInitialKeepsStreak(lookup, genus, obs);
    StreakThree(o.verdicts);
  }

  lemma IdentifyThreeInARow(genus: int, obs: seq<Observation>, status: int)
    requires 1 <= genus <= 2 && Admissible(obs, genus)
    ensures var v := Verdicts(genus, obs);
      var g := Identify(genus, obs, status);
      (g.Some? <==> status >= 0 && Triple(v, |v| - 3)) &&
      (g.Some? ==> v[|v| - 1] == Some(g.value)) &&
      NoEarlierTriple(v)
  {
    IdentifyWithThreeInARow(Classify, genus, obs, status);
  }
  // ---------------------------------------------------------------------------------------
  // Checkpoints

  /** A run that made at least k checkpoint lookups, started at the checkpoint reached
      after h growths, was given some prime above the checkpoint reached after h + k - 1
      growths. */
  lemma {:induction false} RunCheckpoints(lookup: (Context, int) -> Option<string>, c: Context,
                                          obs: seq<Observation>, n: int, h: nat, k: nat)
    requires Shaped(c) && 1 <= n <= 2 && Admissible(obs, n)
    requires c.chkp == CheckpointAfter(h)
    requires 1 <= k <= |RunWith(lookup, c, obs, n).verdicts|
    ensures exists i | 0 <= i < RunWith(lookup, c, obs, n).seen :: obs[i].p > CheckpointAfter(h + k - 1)
    decreases |obs|
  {
    var o := RunWith(lookup, c, obs, n);
    var c1 := StepBookkeeping(lookup, c, obs, n);
    if obs[0].p > c1.chkp {
      var r := Settle(c1, lookup(c1, n));
      if k == 1 {
        assert obs[0].p > CheckpointAfter(h + k - 1);
      } else {
        assert r.1;
        var o1 := RunWith(lookup, r.0, obs[1..], n);
        assert r.0.chkp == CheckpointAfter(h + 1);
        RunCheckpoints(lookup, r.0, obs[1..], n, h + 1, k - 1);
        var i :| 0 <= i < o1.seen && obs[1..][i].p > CheckpointAfter(h + 1 + (k - 1) - 1);
        assert obs[i + 1].p > CheckpointAfter(h + k - 1);
      }
    } else {
      var o1 := RunWith(lookup, c1, obs[1..], n);
      RunCheckpoints(lookup, c1, obs[1..], n, h, k);
      var i :| 0 <= i < o1.seen && obs[1..][i].p > CheckpointAfter(h + k - 1);
      assert obs[i + 1].p > CheckpointAfter(h + k - 1);
    }
  }

  /** A group is only ever named after a prime above the third checkpoint, 36864: the
      three matching lookups happen at three successive checkpoints. */
  lemma IdentifyNeedsLargePrimes(genus: int, obs: seq<Observation>, status: int)
    requires 1 <= genus <= 2 && Admissible(obs, genus)
    requires Identify(genus, obs, status).Some?
    ensures exists i | 0 <= i < |obs| :: obs[i].p > 36864
  {
    IdentifyThreeInARow(genus, obs, status);
    FirstCheckpoints();
    RunCheckpoints(Classify, Initial(), obs, genus, 0, 3);
  }

  /** With no prime above CHECK_START no lookup happens and no group is named. */
  lemma SmallPrimesDecideNothing(genus: int, obs: seq<Observation>, status: int)
    requires 1 <= genus <= 2 && Admissible(obs, genus)
    requires forall i | 0 <= i < |obs| :: obs[i].p <= CheckStart
    ensures Verdicts(genus, obs) == [] && Identify(genus, obs, status) == None
  {
    if Verdicts(genus, obs) != [] {
      RunCheckpoints(Classify, Initial(), obs, genus, 0, 1);
    }
    IdentifyThreeInARow(genus, obs, status);
  }

  /** The context and length of a run after its first step: the callback's new context
      and whether it went on, then the rest of the run from there. */
  lemma RunAfterFirst(lookup: (Context, int) -> Option<string>, c: Context,
                      obs: seq<Observation>, n: int) returns (c2: Context, cont: bool)
    requires Shaped(c) && 1 <= n <= 2 && Admissible(obs, n) && |obs| > 0
    ensures Admissible(obs[1..], n) && Shaped(c2)
    ensures var c1 := Accumulate(c, obs[0].p, obs[0].a, n);
      (c2, cont) == if obs[0].p > c1.chkp then Settle(c1, lookup(c1, n)) else (c1, true)
    ensures var o := RunWith(lookup, c, obs, n);
      if cont then o.ctx == RunWith(lookup, c2, obs[1..], n).ctx &&
                   o.seen == RunWith(lookup, c2, obs[1..], n).seen + 1 &&
                   o.stopped == RunWith(lookup, c2, obs[1..], n).stopped
      else o.ctx == c2 && o.seen == 1 && o.stopped
  {
    var c1 := StepBookkeeping(lookup, c, obs, n);
    var r := if obs[0].p > c1.chkp then Settle(c1, lookup(c1, n)) else (c1, true);
    c2, cont := r.0, r.1;
  }

  /** Positions of obs in increasing order whose primes lie above the checkpoints reached
      after h, h + 1, h + 2, ... growths: the j-th position passes the (h + j)-th
      checkpoint. */
  predicate ClimbsCheckpoints(obs: seq<Observation>, idx: seq<int>, h: nat) {
    (forall j | 0 <= j < |idx| :: 0 <= idx[j] < |obs| && obs[idx[j]].p > CheckpointAfter(h + j)) &&
    (forall j | 0 <= j < |idx| - 1 :: idx[j] < idx[j + 1])
  }

  /** The positions after dropping the first observation, and after dropping the first
      position as well. */
  lemma ClimbsAfterFirst(obs: seq<Observation>, idx: seq<int>, h: nat, c: int)
    requires ClimbsCheckpoints(obs, idx, h) && |idx| > 0 && c == CheckpointAfter(h)
    ensures |obs| > 0
    ensures obs[0].p <= c ==>
      ClimbsCheckpoints(obs[1..], seq(|idx|, j requires 0 <= j < |idx| => idx[j] - 1), h)
    ensures ClimbsCheckpoints(obs[1..], seq(|idx| - 1, j requires 0 <= j < |idx| - 1 => idx[j + 1] - 1), h + 1)
  {
    assert 0 <= idx[0] < |obs|;
    forall j | 1 <= j < |idx|
      ensures 1 <= idx[j] < |obs|
    {
      assert idx[j - 1] < idx[j];
    }
    var tail := obs[1..];
    var rest := seq(|idx| - 1, j requires 0 <= j < |idx| - 1 => idx[j + 1] - 1);
    forall j | 0 <= j < |rest|
      ensures 0 <= rest[j] < |tail| && tail[rest[j]].p > CheckpointAfter(h + 1 + j)
    {
      assert tail[rest[j]] == obs[idx[j + 1]];
    }
    if obs[0].p <= c {
      assert idx[0] != 0;
      var all := seq(|idx|, j requires 0 <= j < |idx| => idx[j] - 1);
      forall j | 0 <= j < |all|
        ensures 0 <= all[j] < |tail| && tail[all[j]].p > CheckpointAfter(h + j)
      {
        assert tail[all[j]] == obs[idx[j]];
      }
    }
  }

  /** The converse of RunCheckpoints: a run given primes above successive checkpoints, at
      increasing positions, makes a lookup at each of them unless the callback stops it
      first. */
  lemma {:induction false} RunReachesCheckpoints(lookup: (Context, int) -> Option<string>, c: Context,
                                                 obs: seq<Observation>, n: int, h: nat, idx: seq<int>)
    requires Shaped(c) && 1 <= n <= 2 && Admissible(obs, n)
    requires c.chkp == CheckpointAfter(h) && ClimbsCheckpoints(obs, idx, h)
    ensures var o := RunWith(lookup, c, obs, n); o.stopped || |o.verdicts| >= |idx|
    decreases |obs|
  {
    if |idx| > 0 {
      ClimbsAfterFirst(obs, idx, h, c.chkp);
      var c1 := StepBookkeeping(lookup, c, obs, n);
      if obs[0].p > c1.chkp {
        var x := lookup(c1, n);
        var r := Settle(c1, x);
        if r.1 {
          assert r.0.chkp == CheckpointAfter(h + 1);
          var rest := seq(|idx| - 1, j requires 0 <= j < |idx| - 1 => idx[j + 1] - 1);
          RunReachesCheckpoints(lookup, r.0, obs[1..], n, h + 1, rest);
          var o1 := RunWith(lookup, r.0, obs[1..], n);
          assert RunWith(lookup, c, obs, n).verdicts == [x] + o1.verdicts;
          assert RunWith(lookup, c, obs, n).stopped == o1.stopped;
        }
      } else {
        var rest := seq(|idx|, j requires 0 <= j < |idx| => idx[j] - 1);
        RunReachesCheckpoints(lookup, c1, obs[1..], n, h, rest);
      }
    }
  }

  /** The statistics of a context: everything but the checkpoint and the streak. */
  function Statistics(c: Context): Context {
    c.(chkp := 0, matchCount := 0, stGroup := "")
  }

  /** The statistics the callback has counted after being given the observations s, one after
      another, from c; the checkpoint and the streak stay those of c. */
  function Tallied(c: Context, s: seq<Observation>, n: int): (r: Context)
    requires Shaped(c) && 1 <= n <= 2 && Admissible(s, n)
    ensures Shaped(r) && r.cnt == c.cnt + |s|
    decreases |s|
  {
    if |s| == 0 then c
    else
      assert Admissible(s[1..], n);
      Tallied(Accumulate(c, s[0].p, s[0].a, n), s[1..], n)
  }

  /** Counting the same observation into two contexts with the same statistics gives two
      contexts with the same statistics. */
  lemma AccumulateStatistics(c: Context, d: Context, p: int, a: seq<int>, n: int)
    requires Shaped(c) && Shaped(d) && Statistics(c) == Statistics(d)
    requires p >= 1 && 1 <= n <= 2 && |a| >= n
    ensures Statistics(Accumulate(c, p, a, n)) == Statistics(Accumulate(d, p, a, n))
  {
    assert c.z1cnt == d.z1cnt && c.z2cnts == d.z2cnts && c.cnt == d.cnt;
    assert c.a1sq == d.a1sq && c.a2 == d.a2 && c.a1tot == d.a1tot;
  }

  lemma {:induction false} TalliedStatistics(c: Context, d: Context, s: seq<Observation>, n: int)
    requires Shaped(c) && Shaped(d) && Statistics(c) == Statistics(d)
    requires 1 <= n <= 2 && Admissible(s, n)
    ensures Statistics(Tallied(c, s, n)) == Statistics(Tallied(d, s, n))
    decreases |s|
  {
    if |s| > 0 {
      assert Admissible(s[1..], n);
      AccumulateStatistics(c, d, s[0].p, s[0].a, n);
      TalliedStatistics(Accumulate(c, s[0].p, s[0].a, n), Accumulate(d, s[0].p, s[0].a, n), s[1..], n);
    }
  }

  /** The catalog lookup only reads the statistics. */
  lemma ClassifyStatistics(c: Context, d: Context, n: int)
    requires Statistics(c) == Statistics(d)
    ensures Classify(c, n) == Classify(d, n)
  {
    assert c.z1cnt == d.z1cnt && c.z2cnts == d.z2cnts && c.cnt == d.cnt;
    assert c.a1sq == d.a1sq && c.a2 == d.a2;
  }

  /** The lookup names g at every context with the statistics of x. */
  ghost predicate NamesAt(lookup: (Context, int) -> Option<string>, n: int, g: string, x: Context) {
    forall d: Context | Statistics(d) == Statistics(x) :: lookup(d, n) == Some(g)
  }

  /** From c on, the lookup names g at every position whose prime is above the checkpoint of
      c, that is, at every position where the run can look up, given the statistics counted
      up to and including that position. */
  ghost predicate NamesFrom(lookup: (Context, int) -> Option<string>, c: Context,
                            obs: seq<Observation>, n: int, g: string)
    requires Shaped(c) && 1 <= n <= 2 && Admissible(obs, n)
  {
    forall j | 0 <= j < |obs| && obs[j].p > c.chkp :: NamesAt(lookup, n, g, Tallied(c, obs[..j + 1], n))
  }

  /** NamesFrom carries over past the first observation to any context with the statistics
      the callback has counted by then and a checkpoint no lower than before; and if the first
      prime is above the checkpoint, the lookup there names g. */
  lemma NamesAfterFirst(lookup: (Context, int) -> Option<string>, c: Context,
                        obs: seq<Observation>, n: int, g: string, c2: Context)
    requires Shaped(c) && 1 <= n <= 2 && Admissible(obs, n) && |obs| > 0
    requires NamesFrom(lookup, c, obs, n, g)
    requires Shaped(c2) && Statistics(c2) == Statistics(Accumulate(c, obs[0].p, obs[0].a, n))
    requires c2.chkp >= c.chkp
    ensures Admissible(obs[1..], n) && NamesFrom(lookup, c2, obs[1..], n, g)
    ensures obs[0].p > c.chkp ==> lookup(Accumulate(c, obs[0].p, obs[0].a, n), n) == Some(g)
  {
    var c1 := Accumulate(c, obs[0].p, obs[0].a, n);
    var tail := obs[1..];
    assert Admissible(tail, n);
    if obs[0].p > c.chkp {
      assert obs[..1][1..] == [] && obs[..1][0] == obs[0];
      assert Tallied(c, obs[..1], n) == c1;
      assert NamesAt(lookup, n, g, c1);
    }
    forall j | 0 <= j < |tail| && tail[j].p > c2.chkp
      ensures NamesAt(lookup, n, g, Tallied(c2, tail[..j + 1], n))
    {
      var s := obs[..j + 2];
      assert s[1..] == tail[..j + 1] && s[0] == obs[0];
      assert Tallied(c, s, n) == Tallied(c1, tail[..j + 1], n);
      assert obs[j + 1] == tail[j];
      assert NamesAt(lookup, n, g, Tallied(c, obs[..(j + 1) + 1], n));
      TalliedStatistics(c2, c1, tail[..j + 1], n);
    }
  }

  /** A lookup that only reads the statistics of a context. */
  ghost predicate ReadsStatistics(lookup: (Context, int) -> Option<string>, n: int) {
    forall c: Context, d: Context | Statistics(c) == Statistics(d) :: lookup(c, n) == lookup(d, n)
  }

  /** The catalog lookup only reads the statistics. */
  lemma ClassifyReadsStatistics(n: int)
    ensures ReadsStatistics(Classify, n)
  {
    forall c: Context, d: Context | Statistics(c) == Statistics(d)
      ensures Classify(c, n) == Classify(d, n)
    {
      ClassifyStatistics(c, d, n);
    }
  }

  /** Counting obs[..1] from c is counting obs[0]. */
  lemma TalliedFirst(c: Context, obs: seq<Observation>, n: int)
    requires Shaped(c) && 1 <= n <= 2 && Admissible(obs, n) && 0 < |obs|
    ensures Tallied(c, obs[..1], n) == Accumulate(c, obs[0].p, obs[0].a, n)
  {
    assert obs[..1][1..] == [] && obs[..1][0] == obs[0];
  }

  /** Counting the observations obs[..j + 2] from c is counting the first of them, then
      obs[1..][..j + 1]. */
  lemma TalliedAfterFirst(c: Context, obs: seq<Observation>, n: int, j: int)
    requires Shaped(c) && 1 <= n <= 2 && Admissible(obs, n) && 0 <= j < |obs| - 1
    ensures Admissible(obs[1..], n)
    ensures Tallied(c, obs[..j + 2], n) == Tallied(Accumulate(c, obs[0].p, obs[0].a, n), obs[1..][..j + 1], n)
  {
    assert Admissible(obs[1..], n);
    var s := obs[..j + 2];
    assert s[1..] == obs[1..][..j + 1] && s[0] == obs[0];
  }

  /** The verdicts and length of a run after its first step: the verdict of the first
      observation if it is a checkpoint, then those of the rest of the run unless the
      callback returned 0. */
  lemma VerdictsAfterFirst(lookup: (Context, int) -> Option<string>, c: Context,
                           obs: seq<Observation>, n: int) returns (c2: Context, cont: bool)
    requires Shaped(c) && 1 <= n <= 2 && Admissible(obs, n) && |obs| > 0
    ensures Admissible(obs[1..], n) && Shaped(c2)
    ensures var c1 := Accumulate(c, obs[0].p, obs[0].a, n);
      (c2, cont) == if obs[0].p > c1.chkp then Settle(c1, lookup(c1, n)) else (c1, true)
    ensures var c1 := Accumulate(c, obs[0].p, obs[0].a, n);
      var head := if obs[0].p > c1.chkp then [lookup(c1, n)] else [];
      var o := RunWith(lookup, c, obs, n);
      if cont then o.verdicts == head + RunWith(lookup, c2, obs[1..], n).verdicts &&
                   o.seen == RunWith(lookup, c2, obs[1..], n).seen + 1
      else o.verdicts == head && o.seen == 1
  {
    var c1 := StepBookkeeping(lookup, c, obs, n);
    var r := if obs[0].p > c1.chkp then Settle(c1, lookup(c1, n)) else (c1, true);
    c2, cont := r.0, r.1;
    if !(obs[0].p > c1.chkp) {
      assert [] + RunWith(lookup, c2, obs[1..], n).verdicts == RunWith(lookup, c2, obs[1..], n).verdicts;
    }
  }

  /** x is what the lookup says of the statistics counted from c up to some position before
      seen whose prime is above the checkpoint of c. */
  ghost predicate VerdictFrom(lookup: (Context, int) -> Option<string>, c: Context,
                              obs: seq<Observation>, n: int, seen: int, x: Option<string>)
    requires Shaped(c) && 1 <= n <= 2 && Admissible(obs, n) && seen <= |obs|
  {
    exists j | 0 <= j < seen :: obs[j].p > c.chkp && x == lookup(Tallied(c, obs[..j + 1], n), n)
  }

  /** A verdict about a position after the first observation, from a context with the
      statistics counted by then and a checkpoint no lower, is one about the same position
      from c. */
  lemma VerdictFromShift(lookup: (Context, int) -> Option<string>, c: Context, obs: seq<Observation>,
                         n: int, c2: Context, seen: int, x: Option<string>)
    requires Shaped(c) && 1 <= n <= 2 && Admissible(obs, n) && 0 < |obs| && 0 <= seen < |obs|
    requires ReadsStatistics(lookup, n)
    requires Shaped(c2) && Statistics(c2) == Statistics(Accumulate(c, obs[0].p, obs[0].a, n))
    requires c2.chkp >= c.chkp
    requires Admissible(obs[1..], n) && VerdictFrom(lookup, c2, obs[1..], n, seen, x)
    ensures VerdictFrom(lookup, c, obs, n, seen + 1, x)
  {
    var tail := obs[1..];
    var j :| 0 <= j < seen && tail[j].p > c2.chkp && x == lookup(Tallied(c2, tail[..j + 1], n), n);
    TalliedAfterFirst(c, obs, n, j);
    TalliedStatistics(c2, Accumulate(c, obs[0].p, obs[0].a, n), tail[..j + 1], n);
    assert obs[j + 1] == tail[j];
    assert obs[j + 1].p > c.chkp && x == lookup(Tallied(c, obs[..(j + 1) + 1], n), n);
  }

  /** Every checkpoint verdict of a run is what a lookup that only reads the statistics says
      of the statistics counted up to some position the run was given, one whose prime is
      above the checkpoint the run started from. */
  lemma {:induction false} RunVerdictFromPrefix(lookup: (Context, int) -> Option<string>, c: Context,
                                                obs: seq<Observation>, n: int, k: int)
    requires Shaped(c) && 1 <= n <= 2 && Admissible(obs, n) && c.chkp >= 0
    requires ReadsStatistics(lookup, n)
    requires 0 <= k < |RunWith(lookup, c, obs, n).verdicts|
    ensures VerdictFrom(lookup, c, obs, n, RunWith(lookup, c, obs, n).seen, RunWith(lookup, c, obs, n).verdicts[k])
    decreases |obs|
  {
    var c1 := Accumulate(c, obs[0].p, obs[0].a, n);
    var c2, cont := VerdictsAfterFirst(lookup, c, obs, n);
    var tail := obs[1..];
    if obs[0].p > c1.chkp && k == 0 {
      TalliedFirst(c, obs, n);
      assert obs[0].p > c.chkp && lookup(c1, n) == lookup(Tallied(c, obs[..0 + 1], n), n);
    } else {
      var shift := if obs[0].p > c1.chkp then 1 else 0;
      GrowIsThreeHalves(c.chkp);
      RunVerdictFromPrefix(lookup, c2, tail, n, k - shift);
      var o1 := RunWith(lookup, c2, tail, n);
      VerdictFromShift(lookup, c, obs, n, c2, o1.seen, o1.verdicts[k - shift]);
    }
  }

  /** Every lookup verdict of smalljac_identify_STgroup's run is the catalog lookup of the
      statistics of the primes given up to some prime above CHECK_START. */
  lemma VerdictFromPrefix(genus: int, obs: seq<Observation>, k: int)
    requires 1 <= genus <= 2 && Admissible(obs, genus) && 0 <= k < |Verdicts(genus, obs)|
    ensures exists j | 0 <= j < |obs| ::
      obs[j].p > CheckStart && Verdicts(genus, obs)[k] == Classify(Tallied(Initial(), obs[..j + 1], genus), genus)
  {
    ClassifyReadsStatistics(genus);
    RunVerdictFromPrefix(Classify, Initial(), obs, genus, k);
  }

  /** A lookup that names g wherever the run can look up finishes a streak: from a context
      whose streak of g is matchCount, primes above the next RequiredMatches - matchCount
      checkpoints make the run stop, no later than the last of them, with the streak
      complete and g as its group. */
  lemma {:induction false} RunConverges(lookup: (Context, int) -> Option<string>, c: Context,
                                        obs: seq<Observation>, n: int, g: string, h: nat, idx: seq<int>)
    requires Shaped(c) && 1 <= n <= 2 && Admissible(obs, n)
    requires NamesFrom(lookup, c, obs, n, g)
    requires c.chkp == CheckpointAfter(h)
    requires 0 <= c.matchCount < RequiredMatches && (c.matchCount > 0 ==> c.stGroup == g)
    requires |idx| == RequiredMatches - c.matchCount && ClimbsCheckpoints(obs, idx, h)
    ensures var o := RunWith(lookup, c, obs, n);
      o.stopped && o.seen <= idx[|idx| - 1] + 1 &&
      o.ctx.matchCount == RequiredMatches && o.ctx.stGroup == g
    decreases |obs|
  {
    ClimbsAfterFirst(obs, idx, h, c.chkp);
    CheckpointsIncrease(h);
    var c1 := Accumulate(c, obs[0].p, obs[0].a, n);
    var c2, cont := RunAfterFirst(lookup, c, obs, n);
    NamesAfterFirst(lookup, c, obs, n, g, c2);
    if obs[0].p > c1.chkp {
      assert c2.matchCount == c.matchCount + 1 && c2.stGroup == g;
      if cont {
        assert c2.chkp == CheckpointAfter(h + 1);
        var rest := seq(|idx| - 1, j requires 0 <= j < |idx| - 1 => idx[j + 1] - 1);
        RunConverges(lookup, c2, obs[1..], n, g, h + 1, rest);
        assert rest[|rest| - 1] == idx[|idx| - 1] - 1;
      }
    } else {
      var rest := seq(|idx|, j requires 0 <= j < |idx| => idx[j] - 1);
      RunConverges(lookup, c2, obs[1..], n, g, h, rest);
      assert rest[|rest| - 1] == idx[|idx| - 1] - 1;
    }
  }

  /** smalljac_identify_STgroup converges: take a lookup that only reads the statistics and
      names g at every position whose prime is above CHECK_START, given the statistics
      counted up to and including that position. If the stream has primes above 16384,
      24576 and 36864 at increasing positions, the driver names g, and the callback has
      stopped the run by the third of those primes. */
  lemma IdentifyWithConverges(lookup: (Context, int) -> Option<string>, genus: int,
                              obs: seq<Observation>, status: int, g: string, i1: int, i2: int, i3: int)
    requires 1 <= genus <= 2 && Admissible(obs, genus) && status >= 0
    requires ReadsStatistics(lookup, genus)
    requires forall j | 0 <= j < |obs| && obs[j].p > CheckStart ::
      lookup(Tallied(Initial(), obs[..j + 1], genus), genus) == Some(g)
    requires 0 <= i1 < i2 < i3 < |obs|
    requires obs[i1].p > 16384 && obs[i2].p > 24576 && obs[i3].p > 36864
    ensures IdentifyWith(lookup, genus, obs, status) == Some(g)
    ensures RunWith(lookup, Initial(), obs, genus).seen <= i3 + 1
  {
    forall j | 0 <= j < |obs| && obs[j].p > Initial().chkp
      ensures NamesAt(lookup, genus, g, Tallied(Initial(), obs[..j + 1], genus))
    {
      var x := Tallied(Initial(), obs[..j + 1], genus);
      assert lookup(x, genus) == Some(g);
    }
    FirstCheckpoints();
    var idx := [i1, i2, i3];
    assert ClimbsCheckpoints(obs, idx, 0);
    RunConverges(lookup, Initial(), obs, genus, g, 0, idx);
  }

  /** The same for the catalog lookup: when, at every position whose prime is above
      CHECK_START, the statistics counted so far look up to g, primes above 16384, 24576
      and 36864 at increasing positions make smalljac_identify_STgroup name g. */
  lemma IdentifyConverges(genus: int, obs: seq<Observation>, status: int, g: string,
                          i1: int, i2: int, i3: int)
    requires 1 <= genus <= 2 && Admissible(obs, genus) && status >= 0
    requires forall j | 0 <= j < |obs| && obs[j].p > CheckStart ::
      Classify(Tallied(Initial(), obs[..j + 1], genus), genus) == Some(g)
    requires 0 <= i1 < i2 < i3 < |obs|
    requires obs[i1].p > 16384 && obs[i2].p > 24576 && obs[i3].p > 36864
    ensures Identify(genus, obs, status) == Some(g)
  {
    ClassifyReadsStatistics(genus);
    IdentifyWithConverges(Classify, genus, obs, status, g, i1, i2, i3);
  }

  // ---------------------------------------------------------------------------------------
  // The identified group is a catalog group

  /** The names in the group column of the table of a genus. */
  ghost function GroupNames(genus: int): set<string>
    requires Supported(genus)
  {
    set i | 0 <= i < GroupCount(genus) :: Cell(genus, GroupColumn, i)
  }

  /** Every lookup names a catalog group or nothing. */
  lemma ClassifyNamesCatalogGroups(n: int)
    requires Supported(n)
    ensures forall c: Context :: Classify(c, n).Some? ==> Classify(c, n).value in GroupNames(n)
  {
    forall c: Context | Classify(c, n).Some?
      ensures Classify(c, n).value in GroupNames(n)
    {
      var i := if n > 1 then FirstRow(2, SigColumn, G2PrintedSig(G2SigValues(Z1Density(c), Z2Densities(c), A1Averages(c), A2Averages(c))))
               else FirstRow(1, SigColumn, G1PrintedSig(G1SigValues(Z1Density(c), A1Averages(c))));
      assert Classify(c, n).value == Cell(n, GroupColumn, i);
    }
  }

  /** When every lookup names a member of names or nothing, so does every verdict of a run. */
  lemma {:induction false} RunVerdictsIn(lookup: (Context, int) -> Option<string>, c: Context,
                                         obs: seq<Observation>, n: int, names: set<string>)
    requires Shaped(c) && 1 <= n <= 2 && Admissible(obs, n)
    requires forall d: Context :: lookup(d, n).Some? ==> lookup(d, n).value in names
    ensures forall j | 0 <= j < |RunWith(lookup, c, obs, n).verdicts| ::
      RunWith(lookup, c, obs, n).verdicts[j].Some? ==> RunWith(lookup, c, obs, n).verdicts[j].value in names
    decreases |obs|
  {
    if |obs| > 0 {
      var c1 := StepBookkeeping(lookup, c, obs, n);
      var v := RunWith(lookup, c, obs, n).verdicts;
      if obs[0].p > c1.chkp {
        var r := Settle(c1, lookup(c1, n));
        if r.1 {
          RunVerdictsIn(lookup, r.0, obs[1..], n, names);
        }
      } else {
        RunVerdictsIn(lookup, c1, obs[1..], n, names);
      }
    }
  }

  /** The group smalljac_identify_STgroup names is one of the catalog's groups, the one
      smalljac_STgroup returns for some index. */
  lemma IdentifyNamesCatalogGroup(genus: int, obs: seq<Observation>, status: int)
    requires 1 <= genus <= 2 && Admissible(obs, genus)
    requires Identify(genus, obs, status).Some?
    ensures exists i | 0 <= i < GroupCount(genus) :: STGroup(genus, i) == Identify(genus, obs, status)
  {
    IdentifyThreeInARow(genus, obs, status);
    ClassifyNamesCatalogGroups(genus);
    var names := GroupNames(genus);
    RunVerdictsIn(Classify, Initial(), obs, genus, names);
    var v := RunWith(Classify, Initial(), obs, genus).verdicts;
    assert forall j | 0 <= j < |v| :: v[j].Some? ==> v[j].value in names;
    var g := Identify(genus, obs, status).value;
    assert |v| >= 3;
    assert v[|v| - 1] == Some(g);
    assert v[|v| - 1].Some? ==> v[|v| - 1].value in GroupNames(genus);
    var i :| 0 <= i < GroupCount(genus) && Cell(genus, GroupColumn, i) == g;
    assert STGroup(genus, i) == Some(g);
  }
  // ---------------------------------------------------------------------------------------
  // Running totals

  /** Every observation has a prime p >= 1 and at least m coefficients. */
  predicate Traces(obs: seq<Observation>, m: int) {
    forall k | 0 <= k < |obs| :: obs[k].p >= 1 && |obs[k].a| >= m
  }

  function Power(x: real, e: nat): real {
    if e == 0 then 1.0 else x * Power(x, e - 1)
  }

  lemma SmallPowers(x: real)
    ensures Power(x, 1) == x && Power(x, 2) == x * x && Power(x, 3) == x * x * x
  {
    assert Power(x, 1) == x * Power(x, 0);
    assert Power(x, 2) == x * Power(x, 1);
    assert Power(x, 3) == x * Power(x, 2);
  }

  /** a[0]^2 / p, the square of the normalized trace. */
  function SquareTrace(o: Observation): real
    requires o.p >= 1 && |o.a| >= 1
  {
    (o.a[0] * o.a[0]) as real / o.p as real
  }

  /** a[1] / p, the normalized second coefficient. */
  function SecondCoefficient(o: Observation): real
    requires o.p >= 1 && |o.a| >= 2
  {
    o.a[1] as real / o.p as real
  }

  /** The number of observations with a[0] = 0. */
  function ZeroTraceCount(obs: seq<Observation>): nat
    requires Traces(obs, 1)
  {
    if |obs| == 0 then 0 else (if obs[0].a[0] == 0 then 1 else 0) + ZeroTraceCount(obs[1..])
  }

  /** The sum of a[0]. */
  function TraceSum(obs: seq<Observation>): int
    requires Traces(obs, 1)
  {
    if |obs| == 0 then 0 else obs[0].a[0] + TraceSum(obs[1..])
  }

  /** The sum of (a[0]^2 / p)^e. */
  function SquareTraceSum(obs: seq<Observation>, e: nat): real
    requires Traces(obs, 1)
  {
    if |obs| == 0 then 0.0 else Power(SquareTrace(obs[0]), e) + SquareTraceSum(obs[1..], e)
  }

  /** The sum of (a[1] / p)^e. */
  function SecondCoefficientSum(obs: seq<Observation>, e: nat): real
    requires Traces(obs, 2)
  {
    if |obs| == 0 then 0.0
    else Power(SecondCoefficient(obs[0]), e) + SecondCoefficientSum(obs[1..], e)
  }

  /** The number of observations with a[1] = b * p. */
  function SecondCoefficientCount(obs: seq<Observation>, b: int): nat
    requires Traces(obs, 2)
  {
    if |obs| == 0 then 0
    else (if obs[0].a[1] == b * obs[0].p then 1 else 0) + SecondCoefficientCount(obs[1..], b)
  }

  /** A nonzero multiple of p >= 1 is at least p away from 0. */
  lemma MultipleBounds(d: int, p: int)
    requires p >= 1
    ensures d >= 1 ==> d * p >= p
    ensures d <= -1 ==> d * p <= -p
  {
  }

  /** For p >= 1, p divides b * p with quotient b. */
  lemma MultipleDivides(b: int, p: int)
    requires p >= 1
    ensures (b * p) % p == 0 && (b * p) / p == b
  {
    var q, r := (b * p) / p, (b * p) % p;
    assert (b - q) * p == r;
    MultipleBounds(b - q, p);
  }

  /** The test `!(a[1] % p)` followed by `i = a[1] / p; if (i >= -2 && i <= 2)` selects the
      slot 2 + b exactly when a[1] = b * p for b = -2..2. */
  lemma SlotOfSecondCoefficient(a1: int, p: int, slot: int)
    requires p >= 1 && 0 <= slot < 5
    ensures (a1 % p == 0 && -2 <= a1 / p <= 2 && 2 + a1 / p == slot) <==> a1 == (slot - 2) * p
  {
    MultipleDivides(slot - 2, p);
  }

  /** What one call adds to the statistics: one prime, its zero-trace indicator, its trace,
      the powers of its normalized values, and its second-coefficient slot in genus 2. */
  lemma AccumulateAdds(c: Context, o: Observation, n: int)
    requires Shaped(c) && o.p >= 1 && 1 <= n <= 2 && |o.a| >= n
    ensures var r := Accumulate(c, o.p, o.a, n);
      r.z1cnt == c.z1cnt + (if o.a[0] == 0 then 1 else 0) &&
      r.a1tot == c.a1tot + o.a[0] &&
      r.a1sq[0] == c.a1sq[0] &&
      r.a1sq[1] == c.a1sq[1] + Power(SquareTrace(o), 1) &&
      r.a1sq[2] == c.a1sq[2] + Power(SquareTrace(o), 2) &&
      (n == 2 ==>
        r.a2[0] == c.a2[0] &&
        r.a2[1] == c.a2[1] + Power(SecondCoefficient(o), 1) &&
        r.a2[2] == c.a2[2] + Power(SecondCoefficient(o), 2) &&
        r.a2[3] == c.a2[3] + Power(SecondCoefficient(o), 3) &&
        forall slot | 0 <= slot < 5 ::
          r.z2cnts[slot] == c.z2cnts[slot] + if o.a[1] == (slot - 2) * o.p then 1 else 0) &&
      (n == 1 ==> r.a2 == c.a2 && r.z2cnts == c.z2cnts)
  {
    SmallPowers(SquareTrace(o));
    var c1 := CountTrace(c, o.p, o.a[0]);
    if n == 2 {
      SecondCoefficientAdds(c1, o);
    }
  }

  /** What the genus 2 part of one call adds: the powers of a[1]/p and its slot. */
  lemma SecondCoefficientAdds(c: Context, o: Observation)
    requires Shaped(c) && o.p >= 1 && |o.a| >= 2
    ensures var r := CountSecondCoefficient(c, o.p, o.a[1]);
      r.z1cnt == c.z1cnt && r.a1tot == c.a1tot && r.a1sq == c.a1sq &&
      r.a2[0] == c.a2[0] &&
      r.a2[1] == c.a2[1] + Power(SecondCoefficient(o), 1) &&
      r.a2[2] == c.a2[2] + Power(SecondCoefficient(o), 2) &&
      r.a2[3] == c.a2[3] + Power(SecondCoefficient(o), 3) &&
      forall slot | 0 <= slot < 5 ::
        r.z2cnts[slot] == c.z2cnts[slot] + if o.a[1] == (slot - 2) * o.p then 1 else 0
  {
    SmallPowers(SecondCoefficient(o));
    SlotOfSecondCoefficient(o.a[1], o.p, 0);
    SlotOfSecondCoefficient(o.a[1], o.p, 1);
    SlotOfSecondCoefficient(o.a[1], o.p, 2);
    SlotOfSecondCoefficient(o.a[1], o.p, 3);
    SlotOfSecondCoefficient(o.a[1], o.p, 4);
  }

  /** The trace statistics after a run are the ones before it plus the reference sums over
      the observations the callback was given; in genus 1 the a2 statistics stay as they
      were. */
  lemma {:induction false} RunTraceTotals(lookup: (Context, int) -> Option<string>, c: Context,
                                          obs: seq<Observation>, n: int)
    requires Shaped(c) && 1 <= n <= 2 && Admissible(obs, n)
    ensures var o := RunWith(lookup, c, obs, n);
      var s := obs[..o.seen];
      Traces(s, n) && Traces(s, 1) &&
      o.ctx.cnt == c.cnt + |s| &&
      o.ctx.z1cnt == c.z1cnt + ZeroTraceCount(s) &&
      o.ctx.a1tot == c.a1tot + TraceSum(s) &&
      o.ctx.a1sq[1] == c.a1sq[1] + SquareTraceSum(s, 1) &&
      o.ctx.a1sq[2] == c.a1sq[2] + SquareTraceSum(s, 2) &&
      (n == 1 ==> o.ctx.a2 == c.a2 && o.ctx.z2cnts == c.z2cnts)
    decreases |obs|
  {
    var o := RunWith(lookup, c, obs, n);
    var s := obs[..o.seen];
    if |obs| > 0 {
      AccumulateAdds(c, obs[0], n);
      var c2, cont := RunAfterFirst(lookup, c, obs, n);
      if cont {
        var o1 := RunWith(lookup, c2, obs[1..], n);
        RunTraceTotals(lookup, c2, obs[1..], n);
        assert s[1..] == obs[1..][..o1.seen];
      } else {
        assert s[1..] == [];
      }
    }
  }

  /** In genus 2 the statistics of the second coefficient after a run are the ones before it
      plus the reference sums over the observations the callback was given. */
  lemma {:induction false} RunSecondTotals(lookup: (Context, int) -> Option<string>, c: Context,
                                           obs: seq<Observation>)
    requires Shaped(c) && Admissible(obs, 2)
    ensures var o := RunWith(lookup, c, obs, 2);
      var s := obs[..o.seen];
      Traces(s, 2) &&
      o.ctx.a2[1] == c.a2[1] + SecondCoefficientSum(s, 1) &&
      o.ctx.a2[2] == c.a2[2] + SecondCoefficientSum(s, 2) &&
      o.ctx.a2[3] == c.a2[3] + SecondCoefficientSum(s, 3) &&
      forall slot | 0 <= slot < 5 ::
        o.ctx.z2cnts[slot] == c.z2cnts[slot] + SecondCoefficientCount(s, slot - 2)
    decreases |obs|
  {
    var o := RunWith(lookup, c, obs, 2);
    var s := obs[..o.seen];
    if |obs| > 0 {
      AccumulateAdds(c, obs[0], 2);
      var c2, cont := RunAfterFirst(lookup, c, obs, 2);
      if cont {
        var o1 := RunWith(lookup, c2, obs[1..], 2);
        RunSecondTotals(lookup, c2, obs[1..]);
        assert s[1..] == obs[1..][..o1.seen];
      } else {
        assert s[1..] == [];
      }
    }
  }

  /** From the zeroed context the statistics are the reference sums themselves. */
  lemma RunStatistics(lookup: (Context, int) -> Option<string>, genus: int, obs: seq<Observation>)
    requires 1 <= genus <= 2 && Admissible(obs, genus)
    ensures var o := RunWith(lookup, Initial(), obs, genus);
      var s := obs[..o.seen];
      Traces(s, genus) && Traces(s, 1) &&
      o.ctx.cnt == |s| && o.ctx.z1cnt == ZeroTraceCount(s) && o.ctx.a1tot == TraceSum(s) &&
      o.ctx.a1sq[1] == SquareTraceSum(s, 1) && o.ctx.a1sq[2] == SquareTraceSum(s, 2) &&
      (genus == 2 ==>
        o.ctx.a2[1] == SecondCoefficientSum(s, 1) && o.ctx.a2[2] == SecondCoefficientSum(s, 2) &&
        o.ctx.a2[3] == SecondCoefficientSum(s, 3) &&
        forall slot | 0 <= slot < 5 :: o.ctx.z2cnts[slot] == SecondCoefficientCount(s, slot - 2))
  {
    RunTraceTotals(lookup, Initial(), obs, genus);
    if genus == 2 {
      RunSecondTotals(lookup, Initial(), obs);
    }
  }
  // ---------------------------------------------------------------------------------------
  // Convergence in terms of the primes seen

  /** Counting observations adds the reference sums of the trace to the statistics. */
  lemma {:induction false} TalliedTraceTotals(c: Context, s: seq<Observation>, n: int)
    requires Shaped(c) && 1 <= n <= 2 && Admissible(s, n)
    ensures Traces(s, n) && Traces(s, 1)
    ensures var r := Tallied(c, s, n);
      r.z1cnt == c.z1cnt + ZeroTraceCount(s) &&
      r.a1sq[1] == c.a1sq[1] + SquareTraceSum(s, 1) &&
      r.a1sq[2] == c.a1sq[2] + SquareTraceSum(s, 2)
    decreases |s|
  {
    if |s| > 0 {
      assert Admissible(s[1..], n);
      AccumulateAdds(c, s[0], n);
      TalliedTraceTotals(Accumulate(c, s[0].p, s[0].a, n), s[1..], n);
    }
  }

  /** In genus 2, counting observations adds the reference sums of the second coefficient. */
  lemma {:induction false} TalliedSecondTotals(c: Context, s: seq<Observation>)
    requires Shaped(c) && Admissible(s, 2)
    ensures Traces(s, 2)
    ensures var r := Tallied(c, s, 2);
      r.a2[1] == c.a2[1] + SecondCoefficientSum(s, 1) &&
      r.a2[2] == c.a2[2] + SecondCoefficientSum(s, 2) &&
      r.a2[3] == c.a2[3] + SecondCoefficientSum(s, 3) &&
      forall slot | 0 <= slot < 5 :: r.z2cnts[slot] == c.z2cnts[slot] + SecondCoefficientCount(s, slot - 2)
    decreases |s|
  {
    if |s| > 0 {
      assert Admissible(s[1..], 2);
      AccumulateAdds(c, s[0], 2);
      TalliedSecondTotals(Accumulate(c, s[0].p, s[0].a, 2), s[1..]);
    }
  }

  /** Sums of squares are not negative. */
  lemma {:induction false} EvenSumsNonNegative(s: seq<Observation>)
    requires Traces(s, 1)
    ensures SquareTraceSum(s, 1) >= 0.0 && SquareTraceSum(s, 2) >= 0.0
    ensures Traces(s, 2) ==> SecondCoefficientSum(s, 2) >= 0.0
    decreases |s|
  {
    if |s| > 0 {
      var o := s[0];
      assert o.a[0] * o.a[0] >= 0;
      SmallPowers(SquareTrace(o));
      if Traces(s, 2) {
        SmallPowers(SecondCoefficient(o));
      }
      assert Traces(s[1..], 1);
      assert Traces(s, 2) ==> Traces(s[1..], 2);
      EvenSumsNonNegative(s[1..]);
    }
  }

  /** The density of a[0] = 0 among the observations s, from the reference count. */
  function SampleZ1(s: seq<Observation>): (z: real)
    requires |s| > 0 && Traces(s, 1)
    ensures z >= 0.0
  {
    Ratio(ZeroTraceCount(s), |s|)
  }

  /** The averages of (a[0]^2/p)^k for k = 1, 2 among the observations s, from the reference
      sums, in the layout of A1Averages; both are not negative. */
  function SampleA1(s: seq<Observation>): (m: seq<real>)
    requires |s| > 0 && Traces(s, 1)
    ensures |m| == 3 && m[1] >= 0.0 && m[2] >= 0.0
  {
    EvenSumsNonNegative(s);
    [0.0, Average(SquareTraceSum(s, 1), |s|), Average(SquareTraceSum(s, 2), |s|)]
  }

  /** The densities of a[1] = b * p for b = -2..2 among the observations s, from the
      reference counts, in the layout of Z2Densities. */
  function SampleZ2(s: seq<Observation>): (z: seq<real>)
    requires |s| > 0 && Traces(s, 2)
    ensures |z| == 5 && forall i | 0 <= i < 5 :: z[i] >= 0.0
  {
    [Ratio(SecondCoefficientCount(s, -2), |s|), Ratio(SecondCoefficientCount(s, -1), |s|),
     Ratio(SecondCoefficientCount(s, 0), |s|), Ratio(SecondCoefficientCount(s, 1), |s|),
     Ratio(SecondCoefficientCount(s, 2), |s|)]
  }

  /** The averages of (a[1]/p)^k for k = 1..3 among the observations s, from the reference
      sums, in the layout of A2Averages; the even one is not negative. */
  function SampleA2(s: seq<Observation>): (m: seq<real>)
    requires |s| > 0 && Traces(s, 1) && Traces(s, 2)
    ensures |m| == 4 && m[2] >= 0.0
  {
    EvenSumsNonNegative(s);
    [0.0, Average(SecondCoefficientSum(s, 1), |s|), Average(SecondCoefficientSum(s, 2), |s|),
     Average(SecondCoefficientSum(s, 3), |s|)]
  }

  /** The values the callback prints at a checkpoint after the observations s from the
      zeroed context, written with the reference sums: the zero densities scaled by the
      genus's ZSCALE, then the averages of (a[0]^2/p)^k for k = 1, 2 and, in genus 2, of
      (a[1]/p)^k for k = 1..3. */
  function SampleSigValues(s: seq<Observation>, genus: int): (v: seq<real>)
    requires 1 <= genus <= 2 && Traces(s, 1) && Traces(s, genus) && |s| > 0
    ensures |v| == if genus == 1 then 3 else 11
  {
    if genus == 1 then G1SigValues(SampleZ1(s), SampleA1(s))
    else G2SigValues(SampleZ1(s), SampleZ2(s), SampleA1(s), SampleA2(s))
  }

  /** The signature entries of row k of the table of a genus, in printing order. */
  function SigFields(genus: int, k: int): (f: seq<int>)
    requires Supported(genus) && 0 <= k < GroupCount(genus)
  {
    if genus == 1 then [G1SigTuple(k).z1, G1SigTuple(k).a1sq, G1SigTuple(k).a1four]
    else G2SigTuple(k).Fields()
  }

  /** Every value is less than one half away from the entry at the same position. */
  predicate WithinHalf(v: seq<real>, f: seq<int>) {
    |v| == |f| && forall i | 0 <= i < |v| :: -0.5 < v[i] - f[i] as real < 0.5
  }

  /** The trace statistics counted from the zeroed context are the density of a[0] = 0 and
      the averages of (a[0]^2/p)^k computed from the reference sums. */
  lemma TraceAverages(genus: int, s: seq<Observation>)
    requires 1 <= genus <= 2 && Admissible(s, genus) && |s| > 0
    ensures Traces(s, 1)
    ensures var t := Tallied(Initial(), s, genus);
      Z1Density(t) == SampleZ1(s) && A1Averages(t) == SampleA1(s)
  {
    TalliedTraceTotals(Initial(), s, genus);
  }

  /** In genus 2 the densities of a[1] = b * p counted from the zeroed context are those
      computed from the reference counts. */
  lemma SecondDensities(s: seq<Observation>)
    requires Admissible(s, 2) && |s| > 0
    ensures Traces(s, 2)
    ensures Z2Densities(Tallied(Initial(), s, 2)) == SampleZ2(s)
  {
    var t := Tallied(Initial(), s, 2);
    TalliedSecondTotals(Initial(), s);
    assert t.cnt == |s|;
    assert t.z2cnts[0] == SecondCoefficientCount(s, -2);
    assert t.z2cnts[1] == SecondCoefficientCount(s, -1);
    assert t.z2cnts[2] == SecondCoefficientCount(s, 0);
    assert t.z2cnts[3] == SecondCoefficientCount(s, 1);
    assert t.z2cnts[4] == SecondCoefficientCount(s, 2);
  }

  /** In genus 2 the averages of (a[1]/p)^k counted from the zeroed context are those
      computed from the reference sums. */
  lemma SecondAverages(s: seq<Observation>)
    requires Admissible(s, 2) && |s| > 0
    ensures Traces(s, 1) && Traces(s, 2)
    ensures A2Averages(Tallied(Initial(), s, 2)) == SampleA2(s)
  {
    var t := Tallied(Initial(), s, 2);
    TalliedTraceTotals(Initial(), s, 2);
    TalliedSecondTotals(Initial(), s);
    assert t.cnt == |s|;
    assert t.a2[1] == SecondCoefficientSum(s, 1) && t.a2[2] == SecondCoefficientSum(s, 2);
    assert t.a2[3] == SecondCoefficientSum(s, 3);
  }

  /** The catalog lookup of the statistics counted from the zeroed context names row k when
      the values printed from the reference sums are less than one half away from that
      row's signature. */
  lemma ClassifyNearRow(genus: int, s: seq<Observation>, k: int)
    requires 1 <= genus <= 2 && Admissible(s, genus) && |s| > 0 && 0 <= k < GroupCount(genus)
    requires Traces(s, 1) && Traces(s, genus)
    requires WithinHalf(SampleSigValues(s, genus), SigFields(genus, k))
    ensures Classify(Tallied(Initial(), s, genus), genus) == STGroup(genus, k)
  {
    if genus == 1 {
      ClassifyNearRowG1(s, k);
    } else {
      ClassifyNearRowG2(s, k);
    }
  }

  lemma ClassifyNearRowG1(s: seq<Observation>, k: int)
    requires Admissible(s, 1) && |s| > 0 && 0 <= k < G1Groups && Traces(s, 1)
    requires WithinHalf(SampleSigValues(s, 1), SigFields(1, k))
    ensures Classify(Tallied(Initial(), s, 1), 1) == Some(G1Group(k))
  {
    var t := Tallied(Initial(), s, 1);
    TraceAverages(1, s);
    assert t.cnt == |s|;
    LookupG1Near(SampleZ1(s), SampleA1(s), k);
  }

  lemma ClassifyNearRowG2(s: seq<Observation>, k: int)
    requires Admissible(s, 2) && |s| > 0 && 0 <= k < G2Groups && Traces(s, 1) && Traces(s, 2)
    requires WithinHalf(SampleSigValues(s, 2), SigFields(2, k))
    ensures Classify(Tallied(Initial(), s, 2), 2) == Some(G2Group(k))
  {
    var t := Tallied(Initial(), s, 2);
    TraceAverages(2, s);
    SecondDensities(s);
    SecondAverages(s);
    assert t.cnt == |s|;
    LookupG2Near(SampleZ1(s), SampleZ2(s), SampleA1(s), SampleA2(s), k);
  }

  /** LookupG1NearRow with the three distances taken from the printed values. */
  lemma LookupG1Near(z1: real, m1sq: seq<real>, k: int)
    requires 0 <= k < G1Groups && |m1sq| == 3
    requires z1 >= 0.0 && m1sq[1] >= 0.0 && m1sq[2] >= 0.0
    requires WithinHalf(G1SigValues(z1, m1sq), SigFields(1, k))
    ensures LookupG1(z1, m1sq) == Some(G1Group(k))
  {
    var v, f := G1SigValues(z1, m1sq), SigFields(1, k);
    assert v[0] - f[0] as real == G1ZScale as real * z1 - G1SigTuple(k).z1 as real;
    assert v[1] - f[1] as real == m1sq[1] - G1SigTuple(k).a1sq as real;
    assert v[2] - f[2] as real == m1sq[2] - G1SigTuple(k).a1four as real;
    LookupG1NearRow(k, z1, m1sq);
  }

  /** LookupG2NearRow with the eleven distances taken from the printed values. */
  lemma LookupG2Near(z1: real, z2: seq<real>, m1sq: seq<real>, m2: seq<real>, k: int)
    requires 0 <= k < G2Groups && |z2| == 5 && |m1sq| == 3 && |m2| == 4
    requires z1 >= 0.0 && (forall i | 0 <= i < 5 :: z2[i] >= 0.0)
    requires m1sq[1] >= 0.0 && m1sq[2] >= 0.0 && m2[2] >= 0.0
    requires WithinHalf(G2SigValues(z1, z2, m1sq, m2), SigFields(2, k))
    ensures LookupG2(z1, z2, m1sq, m2) == Some(G2Group(k))
  {
    assert SigFields(2, k) == G2SigTuple(k).Fields();
    LookupG2NearRow(k, z1, z2, m1sq, m2);
  }

  /** smalljac_identify_STgroup names the group of row k when, at every position whose
      prime is above CHECK_START, the values printed from the primes seen so far are less
      than one half away from row k's signature, and the stream has primes above 16384,
      24576 and 36864 at increasing positions. */
  lemma IdentifyConvergesNearRow(genus: int, obs: seq<Observation>, status: int, k: int,
                                 i1: int, i2: int, i3: int)
    requires 1 <= genus <= 2 && Admissible(obs, genus) && status >= 0 && 0 <= k < GroupCount(genus)
    requires Traces(obs, 1) && Traces(obs, genus)
    requires forall j | 0 <= j < |obs| && obs[j].p > CheckStart ::
      WithinHalf(SampleSigValues(obs[..j + 1], genus), SigFields(genus, k))
    requires 0 <= i1 < i2 < i3 < |obs|
    requires obs[i1].p > 16384 && obs[i2].p > 24576 && obs[i3].p > 36864
    ensures Identify(genus, obs, status) == STGroup(genus, k)
  {
    var g := Cell(genus, GroupColumn, k);
    forall j | 0 <= j < |obs| && obs[j].p > CheckStart
      ensures Classify(Tallied(Initial(), obs[..j + 1], genus), genus) == Some(g)
    {
      ClassifyNearRow(genus, obs[..j + 1], k);
    }
    IdentifyConverges(genus, obs, status, g, i1, i2, i3);
  }

  /** From the zeroed context matchCount stays within 0..RequiredMatches, and it reaches
      RequiredMatches exactly when the callback stopped the run. */
  lemma MatchCountInRange(lookup: (Context, int) -> Option<string>, genus: int,
                          obs: seq<Observation>)
    requires 1 <= genus <= 2 && Admissible(obs, genus)
    ensures var o := RunWith(lookup, Initial(), obs, genus);
      0 <= o.ctx.matchCount <= RequiredMatches &&
      (o.stopped <==> o.ctx.matchCount == RequiredMatches)
  {
    RunFromInitialKeepsStreak(lookup, genus, obs);
  }

  /** A genus other than 1 or 2 names no group: above 2 the driver refuses it, and below 1
      the callback returns 0 on the first prime without touching the context, so no
      checkpoint happens. */
  lemma UnsupportedGenusNamesNothing(genus: int, obs: seq<Observation>, status: int)
    requires !(1 <= genus <= 2) && Admissible(obs, genus)
    ensures Identify(genus, obs, status) == None
    ensures genus < 1 ==> Verdicts(genus, obs) == [] && RunWith(Classify, Initial(), obs, genus).ctx == Initial()
  {
    if genus < 1 && |obs| > 0 {
      assert StepWith(Classify, Initial(), obs, genus) == Outcome(Initial(), 1, true, []);
    }
  }

  // ---------------------------------------------------------------------------------------
  // Counts never exceed the number of primes

  /** At most cnt of the traces were 0, and the five slots of a[1] = b * p for b = -2..2,
      which exclude each other, hold at most cnt between them. */
  predicate CountsBounded(c: Context) {
    Shaped(c) && 0 <= c.z1cnt <= c.cnt &&
    (forall k | 0 <= k < 5 :: c.z2cnts[k] >= 0) &&
    c.z2cnts[0] + c.z2cnts[1] + c.z2cnts[2] + c.z2cnts[3] + c.z2cnts[4] <= c.cnt
  }

  /** One call counts one prime and adds at most one to z1cnt and to one slot of z2cnts. */
  lemma AccumulateKeepsCounts(c: Context, p: int, a: seq<int>, n: int)
    requires CountsBounded(c) && p >= 1 && 1 <= n <= 2 && |a| >= n
    ensures CountsBounded(Accumulate(c, p, a, n))
  {
  }

  /** The counts stay bounded by the number of primes along a whole run. */
  lemma {:induction false} RunKeepsCounts(lookup: (Context, int) -> Option<string>, c: Context,
                                          obs: seq<Observation>, n: int)
    requires CountsBounded(c) && 1 <= n <= 2 && Admissible(obs, n)
    ensures CountsBounded(RunWith(lookup, c, obs, n).ctx)
    decreases |obs|
  {
    if |obs| > 0 {
      var c1 := StepBookkeeping(lookup, c, obs, n);
      AccumulateKeepsCounts(c, obs[0].p, obs[0].a, n);
      if obs[0].p > c1.chkp {
        var r := Settle(c1, lookup(c1, n));
        if r.1 {
          RunKeepsCounts(lookup, r.0, obs[1..], n);
        }
      } else {
        RunKeepsCounts(lookup, c1, obs[1..], n);
      }
    }
  }

  /** From the zeroed context the counts stay bounded by the number of primes. */
  lemma IdentifyCountsBounded(lookup: (Context, int) -> Option<string>, genus: int,
                              obs: seq<Observation>)
    requires 1 <= genus <= 2 && Admissible(obs, genus)
    ensures CountsBounded(RunWith(lookup, Initial(), obs, genus).ctx)
  {
    RunKeepsCounts(lookup, Initial(), obs, genus);
  }

  // ---------------------------------------------------------------------------------------
  // The callback and the driver in place

  /** One step of a run, as the driver loop sees it: the callback's new context, and the rest
      of the run from there unless the callback returned 0. */
  lemma RunStep(lookup: (Context, int) -> Option<string>, c: Context, obs: seq<Observation>,
                k: int, n: int)
    requires Shaped(c) && Admissible(obs, n) && 0 <= k < |obs|
    ensures (1 <= n <= 2 ==> obs[k].p >= 1 && |obs[k].a| >= n) && Admissible(obs[k..], n)
    ensures Admissible(obs[k + 1..], n)
    ensures var r := CallbackWith(lookup, c, obs[k].p, obs[k].a, n);
      RunWith(lookup, c, obs[k..], n).ctx ==
      if r.1 then RunWith(lookup, r.0, obs[k + 1..], n).ctx else r.0
  {
    assert Admissible(obs[k..], n);
    assert obs[k..][0] == obs[k] && obs[k..][1..] == obs[k + 1..];
  }

  /** struct g2_sigtab_ctx, updated in place by the callback. */
  class IdentifyContext {
    var z1cnt: int
    var z2cnts: array<int>
    var cnt: int
    var chkp: int
    var a1sq: array<real>
    var a2: array<real>
    var a1tot: int
    var matchCount: int
    var stGroup: string

    ghost predicate Valid()
      reads this
    {
      z2cnts.Length == 5 && a1sq.Length == 3 && a2.Length == 4 && a1sq != a2 && cnt >= 0
    }

    /** The context as a value. */
    function State(): Context
      reads this, z2cnts, a1sq, a2
    {
      Context(z1cnt, z2cnts[..], cnt, chkp, a1sq[..], a2[..], a1tot, matchCount, stGroup)
    }

    /** memset (&ctx, 0, sizeof(ctx)); ctx.chkp = CHECK_START; */
    constructor ()
      ensures Valid() && State() == Initial()
      ensures fresh(z2cnts) && fresh(a1sq) && fresh(a2)
    {
      z1cnt, cnt, chkp, a1tot, matchCount, stGroup := 0, 0, CheckStart, 0, 0, "";
      z2cnts := new int[5](_ => 0);
      a1sq := new real[3](_ => 0.0);
      a2 := new real[4](_ => 0.0);
      new;
      assert z2cnts[..] == [0, 0, 0, 0, 0];
      assert a1sq[..] == [0.0, 0.0, 0.0];
      assert a2[..] == [0.0, 0.0, 0.0, 0.0];
    }

    /** The statistics part of the callback: counts the prime and adds its values. */
    method Tally(p: int, a: seq<int>, n: int)
      requires Valid() && p >= 1 && 1 <= n <= 2 && |a| >= n
      modifies this, z2cnts, a1sq, a2
      ensures Valid() && z2cnts == old(z2cnts) && a1sq == old(a1sq) && a2 == old(a2)
      ensures State() == Accumulate(old(State()), p, a, n)
    {
      TallyTrace(p, a[0]);
      if n > 1 {
        TallySecondCoefficient(p, a[1]);
      }
    }

    method TallyTrace(p: int, a0: int)
      requires Valid() && p >= 1
      modifies this, a1sq
      ensures Valid() && z2cnts == old(z2cnts) && a1sq == old(a1sq) && a2 == old(a2)
      ensures State() == CountTrace(old(State()), p, a0)
    {
      ghost var c := State();
      ghost var r := CountTrace(c, p, a0);
      cnt := cnt + 1;
      a1tot := a1tot + a0;
      var x := (a0 * a0) as real / p as real;
      a1sq[1] := a1sq[1] + x;
      a1sq[2] := a1sq[2] + x * x;
      if a0 == 0 {
        z1cnt := z1cnt + 1;
      }
      assert a1sq[..] == r.a1sq;
      assert z2cnts[..] == r.z2cnts && a2[..] == r.a2;
      assert z1cnt == r.z1cnt && cnt == r.cnt && a1tot == r.a1tot;
      assert chkp == r.chkp && matchCount == r.matchCount && stGroup == r.stGroup;
    }

    method TallySecondCoefficient(p: int, a1: int)
      requires Valid() && p >= 1
      modifies a2, z2cnts
      ensures State() == CountSecondCoefficient(old(State()), p, a1)
    {
      ghost var c := State();
      ghost var r := CountSecondCoefficient(c, p, a1);
      var x := a1 as real / p as real;
      a2[1] := a2[1] + x;
      a2[2] := a2[2] + x * x;
      a2[3] := a2[3] + x * x * x;
      assert a2[..] == r.a2;
      if a1 % p == 0 {
        var i := a1 / p;
        if -2 <= i <= 2 {
          z2cnts[2 + i] := z2cnts[2 + i] + 1;
        }
      }
      assert z2cnts[..] == r.z2cnts;
      assert a1sq[..] == r.a1sq;
    }

    /** The densities of a[1] = b * p for b = -2..2, as the loop of the callback computes them. */
    method SecondDensities() returns (z2: seq<real>)
      requires Valid() && cnt > 0
      ensures z2 == Z2Densities(State())
    {
      var d := new real[5];
      for i := 0 to 5
        modifies d
        invariant forall k | 0 <= k < i :: d[k] == z2cnts[k] as real / cnt as real
      {
        d[i] := z2cnts[i] as real / cnt as real;
      }
      z2 := d[..];
    }

    /** The lookup at a checkpoint: the averages of the statistics, looked up in the catalog
        of the genus. */
    method Look(n: int) returns (found: bool, group: string)
      requires Valid() && 1 <= n <= 2 && cnt > 0
      ensures found <==> Classify(State(), n).Some?
      ensures found ==> group == Classify(State(), n).value
    {
      var z1 := z1cnt as real / cnt as real;
      var m1sq := [0.0, a1sq[1] / cnt as real, a1sq[2] / cnt as real];
      assert z1 == Z1Density(State()) && m1sq == A1Averages(State());
      if n > 1 {
        var m2 := [0.0, a2[1] / cnt as real, a2[2] / cnt as real, a2[3] / cnt as real];
        assert m2 == A2Averages(State());
        var z2 := SecondDensities();
        found, group := LookupG2STGroup(z1, z2, m1sq, m2);
      } else {
        found, group := LookupG1STGroup(z1, m1sq);
      }
    }

    /** The checkpoint part of the callback: the lookup, then the bookkeeping of the streak
        and the next checkpoint. */
    method Checkpoint(n: int) returns (cont: bool)
      requires Valid() && 1 <= n <= 2 && cnt > 0
      modifies this
      ensures Valid() && z2cnts == old(z2cnts) && a1sq == old(a1sq) && a2 == old(a2)
      ensures (State(), cont) == Settle(old(State()), Classify(old(State()), n))
    {
      var found, group := Look(n);
      if found {
        if group == stGroup {
          matchCount := matchCount + 1;
          if matchCount == RequiredMatches {
            return false;
          }
        } else {
          stGroup := group;
          matchCount := 1;
        }
      } else {
        matchCount := 0;
      }
      chkp := Grow(chkp);
      return true;
    }

    /** smalljac_identify_STgroup_callback: updates the context in place and returns whether
        to go on. */
    method Observe(p: int, a: seq<int>, n: int) returns (cont: bool)
      requires Valid() && (1 <= n <= 2 ==> p >= 1 && |a| >= n)
      modifies this, z2cnts, a1sq, a2
      ensures Valid() && z2cnts == old(z2cnts) && a1sq == old(a1sq) && a2 == old(a2)
      ensures (State(), cont) == Callback(old(State()), p, a, n)
    {
      if n < 1 || n > 2 {
        return false;
      }
      Tally(p, a, n);
      if p > chkp {
        cont := Checkpoint(n);
      } else {
        cont := true;
      }
    }
  }

  /** smalljac_identify_STgroup: runs the callback over the observations smalljac_Lpolys
      reports, in order, until it returns 0, then reports the group if it was found
      REQUIRED_MATCHES times in a row and smalljac_Lpolys reported no error. */
  method IdentifySTGroup(genus: int, obs: seq<Observation>, status: int) returns (found: bool, group: string)
    requires Admissible(obs, genus)
    ensures found <==> Identify(genus, obs, status).Some?
    ensures found ==> group == Identify(genus, obs, status).value
  {
    if genus > 2 {
      return false, "";
    }
    ghost var final := RunWith(Classify, Initial(), obs, genus).ctx;
    var ctx := new IdentifyContext();
    var k := 0;
    var cont := true;
    while k < |obs| && cont
      invariant 0 <= k <= |obs| && ctx.Valid()
      invariant fresh(ctx.z2cnts) && fresh(ctx.a1sq) && fresh(ctx.a2)
      invariant cont ==> final == RunWith(Classify, ctx.State(), obs[k..], genus).ctx
      invariant !cont ==> final == ctx.State()
      decreases |obs| - k
    {
      RunStep(Classify, ctx.State(), obs, k, genus);
      cont := ctx.Observe(obs[k].p, obs[k].a, genus);
      k := k + 1;
    }
    if status < 0 {
      return false, "";
    }
    if ctx.matchCount >= RequiredMatches {
      return true, ctx.stGroup;
    }
    return false, "";
  }
}



