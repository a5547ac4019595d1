/** The season query `getClassesForSeason` (index.ts:41-55): keep the classes
    that have an entry for the year, in registry order, and flatten each into a
    `SoloClassSeason` carrying the modifier of its first entry for that year.

    The filter callback at index.ts:43-45 has a braced body without `return`,
    so it yields `undefined` and the query as written returns nothing for any
    year. `ClassesForSeasonOf` models the predicate its authors wrote inside
    that body (index.ts:44); `ClassesForSeasonAsWritten` models the code as it
    stands, and the lemmas at the end of the module set the two side by side. */
module Season {
  import opened SoloTypes
  import opened JsArray

  /** How a JavaScript call ends: it throws an error or returns a value. */
  datatype Outcome<T> = Throws | Returns(value: T)

  /** The `findIndex` callback of index.ts:44 and index.ts:52: the entry is for `year`. */
  function IsForYear(year: int): SoloModifier -> bool {
    (m: SoloModifier) => m.year == year
  }

  /** The filter callback as intended (index.ts:44): the class has an entry for `year`. */
  function HasEntryFor(year: int): SoloClass -> bool {
    (c: SoloClass) => FindIndex(c.modifiers, IsForYear(year)) >= 0
  }

  /** The `findIndex` test of index.ts:44 decides exactly whether the class has data for `year`. */
  lemma HasEntryForIsHasYear(c: SoloClass, year: int)
    ensures HasEntryFor(year)(c) <==> HasYear(c, year)
  {
    var r := FindIndex(c.modifiers, IsForYear(year));
    if r >= 0 {
      assert c.modifiers[r].year == year;
    }
  }

  /** The `map` callback (index.ts:47-53) for a class the filter kept: abbreviation
      and name copied, the requested year, and the modifier of the first entry for
      it. Its precondition is what makes the index on index.ts:52 lie in bounds. */
  function ToSeason(c: SoloClass, year: int): (v: SoloClassSeason)
    requires HasEntryFor(year)(c)
    ensures Projects(v, c, year)
  {
    var k := FindIndex(c.modifiers, IsForYear(year));
    assert IsFirstEntry(c.modifiers, year, k);
    SoloClassSeason(c.abbreviation, c.name, year, c.modifiers[k].modifier)
  }

  /** `filteredList.map(...)` (index.ts:47-54) over classes that all have data for `year`. */
  function MapToSeasons(kept: seq<SoloClass>, year: int): (r: seq<SoloClassSeason>)
    requires forall c :: c in kept ==> HasEntryFor(year)(c)
    ensures |r| == |kept|
    ensures forall i :: 0 <= i < |r| ==> Projects(r[i], kept[i], year)
  {
    seq(|kept|, i requires 0 <= i < |kept| => ToSeason(kept[i], year))
  }

  /** `getClassesForSeason(year)` over a registry `classes`, with the filter
      callback of index.ts:44 as intended. The result is the record-by-record
      projection of the classes that have data for `year`, kept in registry order. */
  function ClassesForSeasonOf(classes: seq<SoloClass>, year: int): (r: seq<SoloClassSeason>)
    ensures exists kept ::
      && IsSubsequence(kept, classes)
      && (forall c :: c in kept <==> c in classes && HasYear(c, year))
      && (forall c :: multiset(kept)[c] == if HasYear(c, year) then multiset(classes)[c] else 0)
      && |kept| == |r|
      && (forall i :: 0 <= i < |r| ==> Projects(r[i], kept[i], year))
  {
    var kept := Filter(classes, HasEntryFor(year));
    KeptClassesHaveData(classes, year);
    MapToSeasons(kept, year)
  }

  /** The intended filter keeps exactly the classes with data for `year`. */
  lemma KeptClassesHaveData(classes: seq<SoloClass>, year: int)
    ensures forall c :: c in Filter(classes, HasEntryFor(year)) <==> c in classes && HasYear(c, year)
  {
    forall c {
      HasEntryForIsHasYear(c, year);
    }
  }

  /** Every record carries the requested year and comes from a registry class
      with data for that year, whose abbreviation and name it copies and whose
      first entry for the year gives its modifier. */
  lemma RecordsComeFromClasses(classes: seq<SoloClass>, year: int)
    ensures forall v :: v in ClassesForSeasonOf(classes, year) ==>
      && v.year == year
      && exists c :: c in classes && HasYear(c, year) && Projects(v, c, year)
  {
    var r := ClassesForSeasonOf(classes, year);
    var kept := Filter(classes, HasEntryFor(year));
    KeptClassesHaveData(classes, year);
    forall v | v in r ensures v.year == year && exists c :: c in classes && HasYear(c, year) && Projects(v, c, year) {
      var i :| 0 <= i < |r| && r[i] == v;
      assert kept[i] in kept;
    }
  }

  /** A registry class appears in the result exactly when it has an entry for the year. */
  lemma ClassAppearsIffItHasData(classes: seq<SoloClass>, year: int, c: SoloClass)
    requires c in classes
    ensures HasYear(c, year) <==> exists v :: v in ClassesForSeasonOf(classes, year) && Projects(v, c, year)
  {
    var r := ClassesForSeasonOf(classes, year);
    var kept := Filter(classes, HasEntryFor(year));
    KeptClassesHaveData(classes, year);
    if HasYear(c, year) {
      var i :| 0 <= i < |kept| && kept[i] == c;
      assert r[i] in r && Projects(r[i], c, year);
    }
  }

  /** The result is empty exactly when no registry class has data for the year. */
  lemma EmptyIffNoData(classes: seq<SoloClass>, year: int)
    ensures ClassesForSeasonOf(classes, year) == [] <==> forall c :: c in classes ==> !HasYear(c, year)
  {
    var r := ClassesForSeasonOf(classes, year);
    if r == [] {
      forall c | c in classes ensures !HasYear(c, year) {
        ClassAppearsIffItHasData(classes, year, c);
      }
    } else {
      RecordsComeFromClasses(classes, year);
      assert r[0] in r;
    }
  }

  /** A subsequence of a registry with distinct abbreviations has distinct abbreviations. */
  lemma {:induction false} SubsequenceKeepsDistinct(a: seq<SoloClass>, b: seq<SoloClass>)
    requires IsSubsequence(a, b) && DistinctAbbreviations(b)
    ensures DistinctAbbreviations(a)
    decreases |b|
  {
    if |a| > 0 {
      assert DistinctAbbreviations(b[1..]) by {
        forall i, j | 0 <= i < j < |b[1..]| ensures b[1..][i].abbreviation != b[1..][j].abbreviation {
          assert b[1..][i] == b[i + 1] && b[1..][j] == b[j + 1];
        }
      }
      if a[0] == b[0] && IsSubsequence(a[1..], b[1..]) {
        SubsequenceKeepsDistinct(a[1..], b[1..]);
        forall i, j | 0 <= i < j < |a| ensures a[i].abbreviation != a[j].abbreviation {
          if i == 0 {
            assert a[j] == a[1..][j - 1];
            SubsequenceElements(a[1..], b[1..], a[j]);
            var m :| 0 <= m < |b[1..]| && b[1..][m] == a[j];
            assert b[0].abbreviation != b[m + 1].abbreviation;
          } else {
            assert a[i] == a[1..][i - 1] && a[j] == a[1..][j - 1];
          }
        }
      } else {
        SubsequenceKeepsDistinct(a, b[1..]);
      }
    }
  }

  /** Over a registry whose abbreviations are distinct, the result has at most
      one record per class: its abbreviations are distinct too. */
  lemma OneRecordPerClass(classes: seq<SoloClass>, year: int)
    requires DistinctAbbreviations(classes)
    ensures var r := ClassesForSeasonOf(classes, year);
      forall i, j :: 0 <= i < j < |r| ==> r[i].abbreviation != r[j].abbreviation
  {
    var r := ClassesForSeasonOf(classes, year);
    var kept := Filter(classes, HasEntryFor(year));
    KeptClassesHaveData(classes, year);
    SubsequenceKeepsDistinct(kept, classes);
    forall i, j | 0 <= i < j < |r| ensures r[i].abbreviation != r[j].abbreviation {
      assert r[i].abbreviation == kept[i].abbreviation && r[j].abbreviation == kept[j].abbreviation;
    }
  }

  /** When a class lists the same year twice, the first entry decides: a class
      with 0.900 then 0.800 for 2016 is reported with 0.900. */
  lemma FirstDuplicateWins()
    ensures ClassesForSeasonOf([SoloClass("X", "Example", [SoloModifier(2016, 0.9), SoloModifier(2016, 0.8)])], 2016)
         == [SoloClassSeason("X", "Example", 2016, 0.9)]
  {
    var c := SoloClass("X", "Example", [SoloModifier(2016, 0.9), SoloModifier(2016, 0.8)]);
    assert FindIndex(c.modifiers, IsForYear(2016)) == 0;
    assert Filter([c], HasEntryFor(2016)) == [c];
  }

  /** Over a registry with distinct abbreviations, the class at `i` is reported
      for `year` only if it has data for it: no other class can stand in for it. */
  lemma AbsentWithoutData(classes: seq<SoloClass>, year: int, i: int)
    requires DistinctAbbreviations(classes)
    requires 0 <= i < |classes| && !HasYear(classes[i], year)
    ensures forall v :: v in ClassesForSeasonOf(classes, year) ==> v.abbreviation != classes[i].abbreviation
  {
    RecordsComeFromClasses(classes, year);
    forall v | v in ClassesForSeasonOf(classes, year) ensures v.abbreviation != classes[i].abbreviation {
      var c :| c in classes && HasYear(c, year) && Projects(v, c, year);
      var j :| 0 <= j < |classes| && classes[j] == c;
      assert j != i;
    }
  }

  /** The class at `i` with data for `year` is listed with the modifier of its
      first entry for that year. */
  lemma PresentWithData(classes: seq<SoloClass>, year: int, i: int, k: int)
    requires 0 <= i < |classes| && IsFirstEntry(classes[i].modifiers, year, k)
    ensures SoloClassSeason(classes[i].abbreviation, classes[i].name, year, classes[i].modifiers[k].modifier)
         in ClassesForSeasonOf(classes, year)
  {
    var c := classes[i];
    ClassAppearsIffItHasData(classes, year, c);
    var v :| v in ClassesForSeasonOf(classes, year) && Projects(v, c, year);
    var first :| IsFirstEntry(c.modifiers, year, first) && c.modifiers[first].modifier == v.modifier;
    assert first == k;
  }

  /** A first registry class with data for `year` opens the list. */
  lemma FirstClassWithDataLeads(classes: seq<SoloClass>, year: int, k: int)
    requires |classes| > 0 && IsFirstEntry(classes[0].modifiers, year, k)
    ensures |ClassesForSeasonOf(classes, year)| > 0
    ensures ClassesForSeasonOf(classes, year)[0]
         == SoloClassSeason(classes[0].abbreviation, classes[0].name, year, classes[0].modifiers[k].modifier)
  {
    var c := classes[0];
    HasEntryForIsHasYear(c, year);
    assert Filter(classes, HasEntryFor(year))[0] == c;
    var v := ClassesForSeasonOf(classes, year)[0];
    assert Projects(v, c, year);
    var first :| IsFirstEntry(c.modifiers, year, first) && c.modifiers[first].modifier == v.modifier;
    assert first == k;
  }

  /** When a class lists each year at most once, as every class of the shipped
      table does (RegistryWellFormed), the first-match rule of index.ts:52 never
      has to choose: the class is listed with the modifier of its entry for the year. */
  lemma ListedWithItsEntry(classes: seq<SoloClass>, year: int, i: int, k: int)
    requires 0 <= i < |classes| && WellFormedClass(classes[i])
    requires 0 <= k < |classes[i].modifiers| && classes[i].modifiers[k].year == year
    ensures SoloClassSeason(classes[i].abbreviation, classes[i].name, year, classes[i].modifiers[k].modifier)
         in ClassesForSeasonOf(classes, year)
  {
    forall j | 0 <= j < k ensures classes[i].modifiers[j].year != year {
      IncreasingYearsAreDistinct(classes[i].modifiers, j, k);
    }
    PresentWithData(classes, year, i, k);
  }

  // The query as index.ts:42-55 literally has it.

  /** The filter callback exactly as index.ts:43-45 writes it: the braced body
      evaluates the `findIndex` comparison, drops it, and returns `undefined`
      whatever the class. */
  function AsWrittenFilterCallback(year: int): SoloClass -> JsValue {
    (c: SoloClass) => var found := FindIndex(c.modifiers, IsForYear(year)) >= 0; Undefined
  }

  /** `filter` reads its callback's result as a truth value (index.ts:43). */
  function AsWrittenKeep(year: int): SoloClass -> bool {
    (c: SoloClass) => Truthy(AsWrittenFilterCallback(year)(c))
  }

  /** As written, the filter of index.ts:43-45 keeps no class of any registry. */
  lemma AsWrittenKeepsNothing(classes: seq<SoloClass>, year: int)
    ensures Filter(classes, AsWrittenKeep(year)) == []
  {
    forall c ensures !AsWrittenKeep(year)(c) {
      assert AsWrittenFilterCallback(year)(c) == Undefined;
    }
    FilterRejectingAll(classes, AsWrittenKeep(year));
  }

  /** `getClassesForSeason(year)` as written. The map of index.ts:47-54 would
      throw on a kept class without data for the year, since reading
      `.modifier` of `modifiers[-1]` fails; otherwise it flattens each class.
      Since the filter keeps nothing, the query returns an empty list, without
      throwing, for every registry and every year. */
  function ClassesForSeasonAsWritten(classes: seq<SoloClass>, year: int): (r: Outcome<seq<SoloClassSeason>>)
    ensures r == Returns([])
  {
    var kept := Filter(classes, AsWrittenKeep(year));
    AsWrittenKeepsNothing(classes, year);
    if forall c :: c in kept ==> HasEntryFor(year)(c) then Returns(MapToSeasons(kept, year)) else Throws
  }
}
