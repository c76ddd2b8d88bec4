# Sato-Tate group identification in smalljac, modelled in Dafny

smalljac identifies the Sato-Tate group of a genus 1 or genus 2 curve from the
L-polynomial coefficients at many good primes. This project models the file
`smalljac/STgroups.c`, which has two parts:

- **The reference catalog** `g1sigtab` (3 groups) and `g2sigtab` (52 groups). Each row holds
  a group name, its signature string, its identity component, its component group, the
  number of components, the tags `z1` (and `z2[5]`), and 21 reference moments of a1 (and
  of a2).
- **The queries and the classifier.** The catalog is queried by index
  (`smalljac_STgroup`), by name (`smalljac_STgroup_info`) and by printed signature
  (`smalljac_lookup_g1_STgroup`, `smalljac_lookup_g2_STgroup`). The streaming classifier is
  `smalljac_identify_STgroup` with its callback:
  - for every good prime p the callback accumulates counts and power sums of a[0]²/p and
    a[1]/p in a `struct g2_sigtab_ctx`;
  - whenever p passes the current checkpoint it prints the averages with `"%.f"` and looks
    the resulting string up in the catalog;
  - it stops once the same group has been found at three consecutive checkpoints.

The project has five modules, one per file:

- **`Format`** (`format.dfy`): the decimal text of integers and the rounding of `"%.f"`.
  - `"%.f"` is modelled as round-half-to-even on exact reals, including the `"-0"` that
    `"%.f"` prints for a small negative value.
  - The module proves the injectivity facts that let two printed signatures be compared
    field by field.
- **`Catalog`** (`catalog.dfy`): both tables, stored column by column.
  - Every row keeps the literal signature string of the source. It also keeps the integer
    tuple that the string spells.
- **`CatalogFacts`** (`catalog_facts.dfy`): facts about the data, proved row by row.
  - Printing each tuple reproduces the literal string.
  - The density part of every signature is exactly `ZSCALE·z/components`.
  - Signatures are pairwise distinct, and so are names.
  - The moment part agrees with the moment arrays in every row except three, named
    exactly:
    - N(U(1)) at line 34;
    - F at line 97;
    - F_{a,b} at line 101.
- **`Lookup`** (`lookup.dfy`): the three queries.
  - Each search is a method proved against a first-matching-row function.
  - The signature lookups are characterised: a lookup succeeds exactly when no printed
    value is `"-0"` and the rounded values are some row's signature. It then names that
    row.
  - Statistics less than one half away from a row's signature entries identify that row.
    In genus 1 this needs the three statistics to be non-negative. In genus 2 it needs
    the densities and the even moments E[a1^2], E[a1^4] and E[a2^2] to be non-negative.
    Under these hypotheses no value prints as `"-0"`.
- **`Identify`** (`identify.dfy`): the classifier, in two forms.
  - **As functions.** The callback and the run are stated as functions on a `Context`
    value that mirrors `struct g2_sigtab_ctx`.
  - **Imperatively.** The class `IdentifyContext` holds the same fields, counters and
    arrays, updated in place by its `Observe` method. The method `IdentifySTGroup` drives
    it over a sequence of observations. Each method is proved equal to the function it
    implements.
  - **Properties proved about the run:**
    - `matchCount` is the length of the streak of equal verdicts;
    - a group is named exactly when the last three checkpoint verdicts name it, and no
      earlier three consecutive verdicts agree;
    - the named group is a catalog group;
    - checkpoints follow 16384, 24576, 36864, …, so a group is only ever named after a
      prime above 36864;
    - every checkpoint verdict is the catalog lookup of the statistics counted from the
      primes up to some prime above CHECK_START;
    - conversely, suppose the catalog lookup names the same group at every prime above
      CHECK_START, using the statistics counted up to that prime. Then primes above 16384,
      24576 and 36864, in that order, are enough for that group to be named. This holds in
      particular when the values printed at every such prime are less than one half away
      from that group's signature;
    - the counters equal reference sums over the primes seen, and the zero counts never
      exceed the number of primes.

The foreign calls `smalljac_Lpolys`, `smalljac_curve_genus` and `smalljac_curve_max_p`
become parameters:
- a sequence of observations `(p, a)`, one per good prime, in the order smalljac_Lpolys
  reports them;
- the genus;
- the status that smalljac_Lpolys returns, where a negative value is an error.

The code assigns `CHECK_RATIO*ctx->chkp` to an `int`, which truncates, so the model grows a
checkpoint to `(3·chkp)/2`, rounded down. That is exactly 1.5 times whenever the checkpoint is
even, as it is for the first 14 growths from 2^14, and half a unit less whenever it is odd.

## Model

| member | source | states |
|---|---|---|
| Format.Round | smalljac/STgroups.c:184 | `"%.f"` turns a value into an integer at most one half away from it, and into the even one of the two when the value lies exactly half-way |
| Format.RoundNear | smalljac/STgroups.c:184 | a value less than one half away from an integer v rounds to v (it still prints as `"-0"` when v = 0 and the value is negative) |
| Format.NatValueOfText | smalljac/STgroups.c:184 | the decimal text of a natural number is digits only, and reading the digits back gives the number |
| Format.IntTextInjective | smalljac/STgroups.c:184 | two integers with the same decimal text are equal |
| Format.Printed | smalljac/STgroups.c:184 | the text `"%.f"` prints for a value: `"-0"` for a negative value that rounds to 0, and otherwise the decimal text of the rounded value |
| Format.MinusZeroIsNoIntText | smalljac/STgroups.c:184 | `"-0"` is the text of no integer, so a value printed as `"-0"` matches no signature field |
| Format.PrintedIsIntText | smalljac/STgroups.c:184 | the printed text of a value equals the text of the integer v exactly when the value rounds to v and is not a negative value rounding to 0 |
| Format.FieldInjective | smalljac/STgroups.c:28-36 | a signature field followed by a comma determines its value and the rest of the signature |
| Format.LastFieldInjective | smalljac/STgroups.c:28-36 | the last field before `]` determines its value |
| Format.PrintedFieldMatches | smalljac/STgroups.c:171-172 | a printed field equals a signature field exactly when the value prints as that integer and the remainders are equal |
| Format.LastPrintedFieldMatches | smalljac/STgroups.c:171-172 | the last printed field equals the last signature field exactly when the value prints as that integer |
| Catalog.G1SigText | smalljac/STgroups.c:23 | the text of a genus 1 signature tuple `(G1_ZSCALE*dens(a1=0),E[a1^2],E[a1^4])`: its three integers in decimal, comma-separated inside brackets |
| Catalog.G2SigText | smalljac/STgroups.c:44 | the text of a genus 2 signature 11-tuple, in the same bracketed, comma-separated form |
| Catalog.G1SigTextInjective | smalljac/STgroups.c:33-35 | two genus 1 signature tuples that print the same text are equal |
| Catalog.G2SigTextInjective | smalljac/STgroups.c:55-106 | two genus 2 signature tuples that print the same text are equal |
| Catalog.G1Group | smalljac/STgroups.c:33-35 | the `group` column of g1sigtab: U(1), N(U(1)), SU(2) in row order |
| Catalog.G1Sig | smalljac/STgroups.c:33-35 | the `sig` column of g1sigtab: the literal signature strings |
| Catalog.G1SigTuple | smalljac/STgroups.c:33-35 | the integer triple each genus 1 signature string spells |
| Catalog.G1IdentityComponent | smalljac/STgroups.c:33-35 | the `identity_component` column of g1sigtab |
| Catalog.G1ComponentGroup | smalljac/STgroups.c:33-35 | the `component_group` column of g1sigtab |
| Catalog.G1Components | smalljac/STgroups.c:33-35 | the `components` column of g1sigtab |
| Catalog.G1Z1 | smalljac/STgroups.c:33-35 | the `z1` column of g1sigtab |
| Catalog.G1A1Moments | smalljac/STgroups.c:33-35 | the 21 entries of `a1moments` in each genus 1 row |
| Catalog.G2Tag | smalljac/STgroups.c:55-106 | the deprecated `tag` column of g2sigtab |
| Catalog.G2Group | smalljac/STgroups.c:55-106 | the `group` column of g2sigtab, the 52 names in row order |
| Catalog.G2Sig | smalljac/STgroups.c:55-106 | the `sig` column of g2sigtab: the literal signature strings |
| Catalog.G2SigTuple | smalljac/STgroups.c:55-106 | the integer 11-tuple each genus 2 signature string spells |
| Catalog.G2IdentityComponent | smalljac/STgroups.c:55-106 | the `identity_component` column of g2sigtab |
| Catalog.G2ComponentGroup | smalljac/STgroups.c:55-106 | the `component_group` column of g2sigtab |
| Catalog.G2Components | smalljac/STgroups.c:55-106 | the `components` column of g2sigtab |
| Catalog.G2Z1 | smalljac/STgroups.c:55-106 | the `z1` column of g2sigtab |
| Catalog.G2Z2 | smalljac/STgroups.c:55-106 | the five `z2` tags of each genus 2 row |
| Catalog.G2A1Moments | smalljac/STgroups.c:55-106 | the 21 entries of `a1moments` in each genus 2 row |
| Catalog.G2A2Moments | smalljac/STgroups.c:55-106 | the 21 entries of `a2moments` in each genus 2 row |
| CatalogFacts.G1RowsWellFormed | smalljac/STgroups.c:33-35 | every genus 1 row: the literal signature is the printed tuple, 21 moments, at least one component, a name, and the density entry times components equals G1_ZSCALE times z1 |
| CatalogFacts.G1MomentsAgreeExceptNU1 | smalljac/STgroups.c:33-35 | the moment entries of a genus 1 signature equal a1moments[2] and a1moments[4] exactly in the rows other than N(U(1)) |
| CatalogFacts.G1Distinct | smalljac/STgroups.c:33-35 | the genus 1 signature tuples are pairwise distinct, and so are the names |
| CatalogFacts.G2SigTextExact | smalljac/STgroups.c:55-106 | in every genus 2 row the literal signature string is the printed signature tuple |
| CatalogFacts.G2Shape | smalljac/STgroups.c:55-106 | every genus 2 row has five z2 tags, 21 moments of a1 and of a2, at least one component and a name |
| CatalogFacts.G2DensityExactAll | smalljac/STgroups.c:55-106 | in every genus 2 row each density entry times components equals G2_ZSCALE times the matching z1 or z2 tag |
| CatalogFacts.G2MomentsAgreeExceptF | smalljac/STgroups.c:55-106 | the moment entries of a genus 2 signature equal a1moments[2], a1moments[4], a2moments[1..3] exactly in the rows other than F and F_{a,b} |
| CatalogFacts.G2SignedMomentsPositive | smalljac/STgroups.c:55-106 | the E[a2] and E[a2^3] entries of every genus 2 signature, the only ones that can be negative, are at least 1 |
| CatalogFacts.G2TuplesDistinct | smalljac/STgroups.c:55-106 | the genus 2 signature tuples are pairwise distinct |
| CatalogFacts.G2NamesDistinct | smalljac/STgroups.c:55-106 | the genus 2 group names are pairwise distinct |
| Lookup.FirstRowFrom | smalljac/STgroups.c:135 | the search from a row stops at the first row at or after it whose cell equals the text, and at the row count when no row does |
| Lookup.SearchColumn | smalljac/STgroups.c:185 | the `for`/`break` strcmp loop ends at that first matching row |
| Lookup.G1SigsDistinct | smalljac/STgroups.c:33-35 | different genus 1 rows have different signature strings |
| Lookup.G2SigsDistinct | smalljac/STgroups.c:55-106 | different genus 2 rows have different signature strings |
| Lookup.G2SigTextsDistinct | smalljac/STgroups.c:171-172 | different genus 2 tuples print different signature strings |
| Lookup.CellsDistinct | smalljac/STgroups.c:55-106 | within a table, different rows differ in the name column and in the signature column |
| Lookup.FirstRowOfCell | smalljac/STgroups.c:173-175 | searching a column for row i's own name or signature stops at row i |
| Lookup.STGroup | smalljac/STgroups.c:109-124 | a name is returned exactly when the genus is 1 or 2 and 0 ≤ index < the row count |
| Lookup.STGroupInverse | smalljac/STgroups.c:109-124 | an index names a group exactly when searching the names for that group stops at that index |
| Lookup.STGroupAsWritten | smalljac/STgroups.c:111-123 | the code as written reads past the end exactly when index equals the row count; whatever else it copies is what STGroup returns |
| Lookup.STGroupAsWrittenReadsPastEnd | smalljac/STgroups.c:117 | index 3 in genus 1 and index 52 in genus 2 pass the test `index > SIZE` though no such row exists |
| Lookup.STGroupAsWrittenAgrees | smalljac/STgroups.c:111-123 | on every other input the code as written and the corrected STGroup agree |
| Lookup.IdentityComponent | smalljac/STgroups.c:137-148 | the identity component smalljac_STgroup_info copies out for row i of the genus's table |
| Lookup.ComponentGroup | smalljac/STgroups.c:138-149 | the component group smalljac_STgroup_info copies out for row i |
| Lookup.Components | smalljac/STgroups.c:139-150 | the number of components smalljac_STgroup_info stores for row i |
| Lookup.ZWritten | smalljac/STgroups.c:140-156 | for 1 ≤ n, the entries written to z[] number 1 (n = 1) or 6 (n = 2) |
| Lookup.MomentsWritten | smalljac/STgroups.c:142-157 | for 1 ≤ n, the entries written to moments[] number n·m |
| Lookup.CopyInto | smalljac/STgroups.c:142 | memcpy into an array: its first entries become the copied ones and the rest keep their old values |
| Lookup.WriteRow | smalljac/STgroups.c:140-157 | a row's tags are written at the start of z[] and its moments at the start of moments[], each skipped when the array is null, and the rest of both arrays is unchanged |
| Lookup.STGroupInfo | smalljac/STgroups.c:126-164 | success exactly when n ≤ genus, 0 ≤ m ≤ MAX+1, the genus is 1 or 2 and the name is in the table; then it reports that row's structural data and writes the tags and first m moments into z[] and moments[] (a null array is skipped) and nothing else; on failure nothing is written |
| Lookup.G1SigValues | smalljac/STgroups.c:184 | the three values the genus 1 sprintf prints, in order: G1_ZSCALE·z1, m1sq[1], m1sq[2] |
| Lookup.G2SigValues | smalljac/STgroups.c:171-172 | the eleven values the genus 2 sprintf prints, in order: G2_ZSCALE·z1, G2_ZSCALE·z2[0..4], m1sq[1], m1sq[2], m2[1], m2[2], m2[3] |
| Lookup.G1PrintedSig | smalljac/STgroups.c:184 | the text the genus 1 sprintf writes: the three statistics printed with `"%.f"`, comma-separated inside brackets |
| Lookup.G2PrintedSig | smalljac/STgroups.c:171-172 | the text the genus 2 sprintf writes: the eleven statistics printed with `"%.f"`, comma-separated inside brackets |
| Lookup.G1PrintedSigMatches | smalljac/STgroups.c:184 | the printed genus 1 statistics equal a signature exactly when no value prints as `"-0"` and the rounded values are that signature's tuple |
| Lookup.G2PrintedSigMatches | smalljac/STgroups.c:171-172 | the printed genus 2 statistics equal a signature exactly when no value prints as `"-0"` and the rounded values are that signature's tuple |
| Lookup.LookupG1 | smalljac/STgroups.c:179-189 | smalljac_lookup_g1_STgroup as a function: the name of the first genus 1 row whose signature string is the printed statistics, or none when the scan reaches the end |
| Lookup.LookupG2 | smalljac/STgroups.c:166-177 | smalljac_lookup_g2_STgroup as a function: the name of the first genus 2 row whose signature string is the printed statistics, or none |
| Lookup.LookupG1Meaning | smalljac/STgroups.c:179-189 | the genus 1 lookup succeeds exactly when no value prints as `"-0"` and the rounded statistics are some row's signature, and then it names that row |
| Lookup.G2SigCellMatches | smalljac/STgroups.c:173 | row i's signature equals the printed genus 2 statistics exactly when no value prints as `"-0"` and the rounded values are row i's tuple |
| Lookup.LookupG2Meaning | smalljac/STgroups.c:166-177 | the genus 2 lookup succeeds exactly when no value prints as `"-0"` and the rounded statistics are some row's signature, and then it names that row |
| Lookup.LookupG1STGroup | smalljac/STgroups.c:184-188 | the genus 1 lookup loop reports a group exactly when LookupG1 does, and the same group |
| Lookup.LookupG2STGroup | smalljac/STgroups.c:171-176 | the genus 2 lookup loop reports a group exactly when LookupG2 does, and the same group |
| Lookup.LookupG1NearRow | smalljac/STgroups.c:179-189 | non-negative genus 1 statistics less than one half away from a row's signature entries name that row |
| Lookup.LookupG2NearRow | smalljac/STgroups.c:166-177 | genus 2 statistics less than one half away from a row's signature entries, with non-negative densities and even moments, name that row |
| Identify.Context | smalljac/STgroups.c:192-201 | struct g2_sigtab_ctx: z1cnt, z2cnts[5], cnt, chkp, a1sq[3], a2[4], a1tot, match_count and the group found |
| Identify.Truncate | smalljac/STgroups.c:250 | the conversion of a non-negative double to int gives the largest integer not above it |
| Identify.Grow | smalljac/STgroups.c:250 | the next checkpoint: CHECK_RATIO times chkp, truncated to an int |
| Identify.CheckpointAfter | smalljac/STgroups.c:250 | the checkpoint after k growths from CHECK_START |
| Identify.GrowIsThreeHalves | smalljac/STgroups.c:250 | the next checkpoint is (3·chkp)/2 rounded down, and it exceeds chkp once chkp ≥ 2 |
| Identify.FirstCheckpoints | smalljac/STgroups.c:13-14 | the checkpoints after CHECK_START = 16384 are 24576 and 36864 |
| Identify.CheckpointsIncrease | smalljac/STgroups.c:263 | checkpoints stay at least CHECK_START and grow strictly from one to the next |
| Identify.Initial | smalljac/STgroups.c:262-263 | the context after the memset and `ctx.chkp = CHECK_START`: all counters, sums and the streak zero, no group, chkp = 16384 |
| Identify.CountTrace | smalljac/STgroups.c:214-218 | one prime's genus 1 bookkeeping: cnt + 1, a[0] added to a1tot, a[0]²/p and its square added to a1sq[1] and a1sq[2], z1cnt + 1 when a[0] = 0 |
| Identify.CountSecondCoefficient | smalljac/STgroups.c:219-226 | one prime's genus 2 bookkeeping: a[1]/p and its square and cube added to a2[1..3], and slot 2 + a[1]/p counted when p divides a[1] and the quotient is in -2..2 |
| Identify.Accumulate | smalljac/STgroups.c:214-226 | one call counts one more prime and leaves the checkpoint, the streak and its group alone |
| Identify.AccumulateAdds | smalljac/STgroups.c:214-226 | one call adds 1 to z1cnt iff a[0] = 0, adds a[0] to a1tot and (a[0]²/p)^k to a1sq[k]; in genus 2 it adds (a[1]/p)^k to a2[k] and 1 to slot b + 2 exactly when a[1] = b·p for b in -2..2; in genus 1 a2 and z2cnts do not change |
| Identify.SecondCoefficientAdds | smalljac/STgroups.c:219-226 | the genus 2 part of a call adds (a[1]/p)^k to a2[k] for k = 1..3 and 1 to slot b + 2 exactly when a[1] = b·p, and leaves the genus 1 statistics alone |
| Identify.SlotOfSecondCoefficient | smalljac/STgroups.c:222-224 | the test `!(a[1]%p)` followed by the range check on a[1]/p selects slot s exactly when a[1] = (s - 2)·p |
| Identify.Ratio | smalljac/STgroups.c:230 | the density `(double)count/cnt`, not negative for a non-negative count |
| Identify.Average | smalljac/STgroups.c:231-233 | the average `sum/cnt`, not negative for a non-negative sum |
| Identify.Z1Density | smalljac/STgroups.c:230 | z1 = z1cnt/cnt |
| Identify.Z2Densities | smalljac/STgroups.c:234 | z2[i] = z2cnts[i]/cnt for i = 0..4 |
| Identify.A1Averages | smalljac/STgroups.c:231 | m1sq[1] = a1sq[1]/cnt and m1sq[2] = a1sq[2]/cnt; entry 0 is 0 |
| Identify.A2Averages | smalljac/STgroups.c:233 | m2[k] = a2[k]/cnt for k = 1..3; entry 0 is 0 |
| Identify.Classify | smalljac/STgroups.c:228-238 | the checkpoint lookup: the densities z1cnt/cnt and z2cnts[i]/cnt and the averages a1sq[k]/cnt and a2[k]/cnt handed to smalljac_lookup_g2_STgroup in genus 2, or z1 and m1sq to smalljac_lookup_g1_STgroup in genus 1 |
| Identify.Settle | smalljac/STgroups.c:239-250 | a checkpoint changes only chkp, match_count and the group; it stops exactly when the same group is found and the streak reaches REQUIRED_MATCHES, and otherwise grows chkp |
| Identify.CallbackWith | smalljac/STgroups.c:204-253 | the callback for a given lookup: a genus other than 1 or 2 stops and changes nothing; otherwise the prime is accumulated, and a prime above chkp settles the lookup's verdict; the result keeps the context well shaped |
| Identify.Callback | smalljac/STgroups.c:204-253 | smalljac_identify_STgroup_callback: CallbackWith the catalog lookup Classify |
| Identify.RunWith | smalljac/STgroups.c:264 | smalljac_Lpolys feeding the primes to the callback in order until it returns 0: the final context, how many primes were fed (all of them unless the callback stopped), and the checkpoint verdicts in order |
| Identify.StepWith | smalljac/STgroups.c:264 | one callback on the first prime, then the rest of the run unless it returned 0; the verdict list gains the lookup result when that prime was a checkpoint |
| Identify.StepBookkeeping | smalljac/STgroups.c:214-251 | one step of a run: the statistics are accumulated, and a prime above the checkpoint settles the lookup's verdict before the rest of the run |
| Identify.StreakAppend | smalljac/STgroups.c:239-249 | one more verdict resets the streak (no group), extends it (same group) or restarts it at 1 (new group) |
| Identify.StreakThree | smalljac/STgroups.c:242 | a streak of at least three is three equal found groups at the end |
| Identify.SettleKeepsStreak | smalljac/STgroups.c:239-249 | a checkpoint keeps match_count equal to the streak of the verdicts, and continues exactly when the streak stays below REQUIRED_MATCHES |
| Identify.RunKeepsStreak | smalljac/STgroups.c:239-249 | along a run match_count is the streak of the verdicts, the streak never exceeds REQUIRED_MATCHES, the run stops exactly when it reaches it, and no earlier triple occurs |
| Identify.RunFromInitialKeepsStreak | smalljac/STgroups.c:239-249 | from the zeroed context match_count is the streak of the verdicts, at most REQUIRED_MATCHES, reached exactly when the run stopped, with no earlier triple |
| Identify.MatchCountInRange | smalljac/STgroups.c:239-249 | from the zeroed context match_count stays within 0..REQUIRED_MATCHES and equals REQUIRED_MATCHES exactly when the callback stopped the run |
| Identify.IdentifyWith | smalljac/STgroups.c:255-268 | smalljac_identify_STgroup for a given lookup: none for a genus above 2 or a negative status, the context's group when match_count reached REQUIRED_MATCHES, and none otherwise |
| Identify.Identify | smalljac/STgroups.c:255-268 | smalljac_identify_STgroup: IdentifyWith the catalog lookup Classify |
| Identify.IdentifyWithThreeInARow | smalljac/STgroups.c:255-268 | for any lookup, the driver names a group exactly when no error is reported and the last three checkpoint verdicts are that same group, and no three consecutive earlier verdicts agree |
| Identify.IdentifyThreeInARow | smalljac/STgroups.c:255-268 | the same three-in-a-row characterisation for the catalog lookup |
| Identify.UnsupportedGenusNamesNothing | smalljac/STgroups.c:212 | a genus other than 1 or 2 names no group; below 1 the callback stops on the first prime without touching the context |
| Identify.RunCheckpoints | smalljac/STgroups.c:227 | a run that made at least k checkpoint lookups was given some prime above the checkpoint reached after k - 1 growths |
| Identify.IdentifyNeedsLargePrimes | smalljac/STgroups.c:227-250 | a group is named only when some prime exceeds 36864, the third checkpoint |
| Identify.RunReachesCheckpoints | smalljac/STgroups.c:227-250 | the converse of RunCheckpoints: a run given primes at increasing positions above the checkpoints reached after h, h + 1, … growths makes a lookup for each of them unless the callback stops it first |
| Identify.Tallied | smalljac/STgroups.c:214-226 | the statistics the callback has counted after a sequence of primes; cnt grows by their number |
| Identify.TalliedStatistics | smalljac/STgroups.c:214-226 | counting the same primes into two contexts with equal statistics gives equal statistics, whatever the checkpoints and streaks |
| Identify.ClassifyStatistics | smalljac/STgroups.c:228-238 | the checkpoint lookup reads only the counters and sums, not chkp, match_count or the group found |
| Identify.RunVerdictFromPrefix | smalljac/STgroups.c:227-238 | for a lookup that reads only the statistics, every verdict of a run is the lookup of the statistics counted up to some prime the run was given that is above the starting checkpoint |
| Identify.VerdictFromPrefix | smalljac/STgroups.c:227-264 | every checkpoint verdict of smalljac_identify_STgroup is the catalog lookup of the statistics counted up to some prime above CHECK_START |
| Identify.RunConverges | smalljac/STgroups.c:239-250 | take a lookup that names g at every prime above the starting checkpoint, given the statistics counted up to that prime. Primes above the next REQUIRED_MATCHES - match_count checkpoints then complete the streak: the run stops by the last of them with match_count = REQUIRED_MATCHES and group g |
| Identify.IdentifyWithConverges | smalljac/STgroups.c:255-268 | take a lookup that reads only the statistics and names g at every prime above CHECK_START, given the statistics counted up to that prime. With no error and primes above 16384, 24576 and 36864 at increasing positions, the driver names g and the callback stops the run by the third of those primes |
| Identify.IdentifyConverges | smalljac/STgroups.c:255-268 | the same for the catalog lookup: if Classify of the statistics counted up to every prime above CHECK_START names g, primes above 16384, 24576 and 36864 at increasing positions make smalljac_identify_STgroup name g |
| Identify.TalliedTraceTotals | smalljac/STgroups.c:214-218 | counting primes adds their zero-trace count to z1cnt and the sums of (a[0]²/p)^k to a1sq[k] |
| Identify.TalliedSecondTotals | smalljac/STgroups.c:219-226 | in genus 2, counting primes adds the sums of (a[1]/p)^k to a2[k] and the counts of a[1] = b·p to z2cnts[b + 2] |
| Identify.EvenSumsNonNegative | smalljac/STgroups.c:216-221 | the sums of (a[0]²/p)^k and of (a[1]/p)² are not negative |
| Identify.SampleZ1 | smalljac/STgroups.c:230 | the zero-trace density of the primes seen, from the reference count, not negative |
| Identify.SampleA1 | smalljac/STgroups.c:231 | the averages of (a[0]²/p)^k of the primes seen, from the reference sums, not negative |
| Identify.SampleZ2 | smalljac/STgroups.c:234 | the densities of a[1] = b·p among the primes seen, from the reference counts, not negative |
| Identify.SampleA2 | smalljac/STgroups.c:233 | the averages of (a[1]/p)^k of the primes seen, from the reference sums; the second is not negative |
| Identify.SampleSigValues | smalljac/STgroups.c:171-184 | the 3 or 11 values the sprintf of the lookup prints for the primes seen, from the reference sums |
| Identify.TraceAverages | smalljac/STgroups.c:230-231 | from the zeroed context the density z1 and the averages m1sq are those of the primes seen |
| Identify.SecondDensities | smalljac/STgroups.c:234 | from the zeroed context the densities z2 are those of the primes seen |
| Identify.SecondAverages | smalljac/STgroups.c:233 | from the zeroed context the averages m2 are those of the primes seen |
| Identify.ClassifyNearRow | smalljac/STgroups.c:228-238 | when the values printed for the primes seen are less than one half away from row k's signature, the checkpoint lookup names row k's group |
| Identify.ClassifyNearRowG1 | smalljac/STgroups.c:230-237 | the genus 1 case of ClassifyNearRow |
| Identify.ClassifyNearRowG2 | smalljac/STgroups.c:230-235 | the genus 2 case of ClassifyNearRow |
| Identify.IdentifyConvergesNearRow | smalljac/STgroups.c:255-268 | when the values printed at every prime above CHECK_START are less than one half away from row k's signature, primes above 16384, 24576 and 36864 at increasing positions make smalljac_identify_STgroup name row k's group |
| Identify.SmallPrimesDecideNothing | smalljac/STgroups.c:263-266 | when no prime exceeds CHECK_START no lookup happens and no group is named |
| Identify.ClassifyNamesCatalogGroups | smalljac/STgroups.c:228-238 | every checkpoint lookup names a group of the catalog or nothing |
| Identify.RunVerdictsIn | smalljac/STgroups.c:235-246 | when every lookup names a member of a set of names, so does every verdict of a run |
| Identify.IdentifyNamesCatalogGroup | smalljac/STgroups.c:266 | the named group is the one smalljac_STgroup returns for some index |
| Identify.RunTraceTotals | smalljac/STgroups.c:214-218 | after a run cnt, z1cnt, a1tot and a1sq[1..2] are their old values plus the count, zero-trace count, trace sum and sums of (a[0]²/p)^k over the primes seen; in genus 1 a2 and z2cnts are unchanged |
| Identify.RunSecondTotals | smalljac/STgroups.c:219-226 | in genus 2, after a run a2[1..3] and z2cnts are their old values plus the sums of (a[1]/p)^k and the counts of a[1] = b·p over the primes seen |
| Identify.RunStatistics | smalljac/STgroups.c:230-234 | from the zeroed context the statistics the lookups average are exactly those reference sums |
| Identify.AccumulateKeepsCounts | smalljac/STgroups.c:214-226 | one call keeps z1cnt ≤ cnt and the sum of the z2 slots ≤ cnt |
| Identify.RunKeepsCounts | smalljac/STgroups.c:214-226 | z1cnt ≤ cnt and the sum of the z2 slots ≤ cnt hold along a whole run |
| Identify.IdentifyCountsBounded | smalljac/STgroups.c:262-264 | from the zeroed context the counts never exceed the number of primes seen |
| Identify.RunStep | smalljac/STgroups.c:264 | a run is one callback followed by the rest of the run from the new context, unless the callback returned 0 |
| Identify.IdentifyContext.constructor | smalljac/STgroups.c:262-263 | the new context is all zeros with chkp = CHECK_START |
| Identify.IdentifyContext.TallyTrace | smalljac/STgroups.c:214-218 | updates cnt, a1tot, a1sq and z1cnt in place to CountTrace of the old state |
| Identify.IdentifyContext.TallySecondCoefficient | smalljac/STgroups.c:219-226 | updates a2 and z2cnts in place to CountSecondCoefficient of the old state |
| Identify.IdentifyContext.Tally | smalljac/STgroups.c:214-226 | the new state is Accumulate of the old state |
| Identify.IdentifyContext.SecondDensities | smalljac/STgroups.c:234 | the loop computes the five densities z2cnts[i]/cnt |
| Identify.IdentifyContext.Look | smalljac/STgroups.c:230-238 | reports a group exactly when Classify of the current state names one, and that group |
| Identify.IdentifyContext.Checkpoint | smalljac/STgroups.c:239-250 | the new state and the return value are Settle of the old state and its lookup |
| Identify.IdentifyContext.Observe | smalljac/STgroups.c:204-253 | the new state and the return value are Callback of the old state |
| Identify.IdentifySTGroup | smalljac/STgroups.c:255-268 | reports a group exactly when Identify names one, and that group |

## Left out

- The printf diagnostics at lines 121, 131-132, 161, 212, 260 and 265 are not modelled. They only write messages.
- Doubles are modelled as exact reals. The double-precision rounding of the running sums and averages (lines 216-221, 230-234) is out of scope. The `"%.f"` conversion is modelled as round-half-to-even on the exact value.
- C integer widths are not modelled. The possible overflows of `a[0]*a[0]`, `a1tot`, the counters and `chkp` (after about 30 growths) need a 32- or 64-bit model that is not given here.
- The 16-character `char` buffers filled with strcpy, and the 64-character `sig` buffer that sprintf fills at lines 168-171 and 181-184, are modelled as strings without a length limit. The buffer overflow that a printed text of more than 63 characters would cause is not modelled.
- The output arguments identity_component, component_group and components of smalljac_STgroup_info become return values. The model does not skip them when a null pointer is passed; the z[] and moments[] arrays may still be null.
- Entry 0 of m1sq[] and m2[] is left uninitialized by the source. It is 0.0 here, where the lookups never read it.
- smalljac_Lpolys, smalljac_curve_genus and smalljac_curve_max_p (lines 260-264) are not part of this model. They become inputs of `Identify.IdentifySTGroup`:
  - the observation sequence, which stands for the primes from 7 up to maxp, each with p ≥ 1;
  - the genus;
  - the status smalljac_Lpolys returns.
- The search over primes up to maxp and the choice of good primes are therefore not modelled.
- The deprecated tag column of g2sigtab is kept in the catalog, but no query reads it: nothing in the source does.

## Findings

| source | as written | input that shows it | evidently intended | confidence | as-written member | corrected member |
|---|---|---|---|---|---|---|
| smalljac/STgroups.c:113 | `if ( index < 0 \|\| index > SMALLJAC_G1_ST_GROUPS ) return 0;` accepts index == SIZE and then copies from one row past the table (likewise line 117 for genus 2) | genus 1, index 3; genus 2, index 52 | refuse every index outside 0 ≤ index < SIZE | not executed | Lookup.STGroupAsWrittenReadsPastEnd | Lookup.STGroup |
