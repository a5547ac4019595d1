/** The three record shapes of the PAX library (index.ts:1-20). All of them are
    plain values: the library builds them once and never updates a field. */
module SoloTypes {

  /** The PAX factor a class was given for one competition year. */
  datatype SoloModifier = SoloModifier(year: int, modifier: real)

  /** A competition class with its modifiers, in the order the table lists them. */
  datatype SoloClass = SoloClass(abbreviation: string, name: string, modifiers: seq<SoloModifier>)

  /** The flattened, single-year view of a class that the season query returns. */
  datatype SoloClassSeason = SoloClassSeason(abbreviation: string, name: string, year: int, modifier: real)

  /** Reference meaning of "the class has data for this year": some entry carries it. */
  ghost predicate HasYear(c: SoloClass, year: int) {
    exists k :: 0 <= k < |c.modifiers| && c.modifiers[k].year == year
  }

  /** `k` is the position of the first entry of `mods` for `year`. */
  ghost predicate IsFirstEntry(mods: seq<SoloModifier>, year: int, k: int) {
    && 0 <= k < |mods|
    && mods[k].year == year
    && forall j :: 0 <= j < k ==> mods[j].year != year
  }

  /** `v` is the view of class `c` for `year`: abbreviation and name copied, the
      requested year, and the modifier of the first entry for that year. */
  ghost predicate Projects(v: SoloClassSeason, c: SoloClass, year: int) {
    && v.abbreviation == c.abbreviation
    && v.name == c.name
    && v.year == year
    && exists k :: IsFirstEntry(c.modifiers, year, k) && c.modifiers[k].modifier == v.modifier
  }

  /** No two classes of `classes` share an abbreviation. */
  ghost predicate DistinctAbbreviations(classes: seq<SoloClass>) {
    forall i, j :: 0 <= i < j < |classes| ==> classes[i].abbreviation != classes[j].abbreviation
  }

  /** The shape every class of the shipped table has: a non-empty abbreviation,
      at least one entry, every modifier in (0, 1], and entries listed by
      strictly increasing year. */
  ghost predicate WellFormedClass(c: SoloClass) {
    && |c.abbreviation| > 0
    && |c.modifiers| > 0
    && (forall k :: 0 <= k < |c.modifiers| ==> 0.0 < c.modifiers[k].modifier <= 1.0)
    && (forall k :: 0 < k < |c.modifiers| ==> c.modifiers[k - 1].year < c.modifiers[k].year)
  }

  /** A registry whose abbreviations identify its classes and whose classes are well formed. */
  ghost predicate WellFormedRegistry(classes: seq<SoloClass>) {
    && DistinctAbbreviations(classes)
    && forall c :: c in classes ==> WellFormedClass(c)
  }

  /** Entries listed by strictly increasing year carry pairwise different years,
      so such a list has at most one entry for any year. */
  lemma {:induction false} IncreasingYearsAreDistinct(mods: seq<SoloModifier>, j: int, k: int)
    requires forall n :: 0 < n < |mods| ==> mods[n - 1].year < mods[n].year
    requires 0 <= j < k < |mods|
    ensures mods[j].year < mods[k].year
    decreases k - j
  {
    if j + 1 < k {
      IncreasingYearsAreDistinct(mods, j + 1, k);
    }
  }
}
