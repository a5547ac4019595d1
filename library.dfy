/** The library object (index.ts:22-112): the season query of module Season
    applied to the constant table of module Registry, with the facts about
    particular seasons that follow from the table. The two calculators are
    module PaxCalculator. */
module Library {
  import opened SoloTypes
  import opened Season
  import Registry

  /** `getClassesForSeason(year)` on the library's own table. */
  function ClassesForSeason(year: int): seq<SoloClassSeason> {
    ClassesForSeasonOf(Registry.AllClasses, year)
  }

  /** The table has data for 2016 to 2018 only: any other year, 2019 or 9999
      say, yields an empty list. */
  lemma NothingOutsideTheTableSeasons(year: int)
    requires year < Registry.FirstSeason || year > Registry.LastSeason
    ensures ClassesForSeason(year) == []
  {
    Registry.RegistrySeasons();
    EmptyIffNoData(Registry.AllClasses, year);
  }

  /** For the first season, 2016, the list opens with Super Street at 0.835
      (index.ts:60). */
  lemma SuperStreetOpens2016()
    ensures |ClassesForSeason(Registry.FirstSeason)| > 0
    ensures ClassesForSeason(Registry.FirstSeason)[0] == SoloClassSeason("SS", "Super Street", 2016, 0.835)
  {
    Registry.CitedRows();
    FirstRowLeads(Registry.FirstSeason, 0);
  }

  /** The first row of the table leads the list of any season it has an entry for. */
  lemma FirstRowLeads(year: int, k: int)
    requires IsFirstEntry(Registry.AllClasses[0].modifiers, year, k)
    ensures |ClassesForSeason(year)| > 0
    ensures var c := Registry.AllClasses[0];
      ClassesForSeason(year)[0] == SoloClassSeason(c.abbreviation, c.name, year, c.modifiers[k].modifier)
  {
    Registry.RegistryWellFormed();
    FirstClassWithDataLeads(Registry.AllClasses, year, k);
  }

  /** Solo Spec Coupe and Street Touring Hot Hatch have only 2018 entries
      (index.ts:70, index.ts:77), so neither is listed for 2016. */
  lemma NoSpecCoupeOrHotHatchIn2016()
    ensures forall v :: v in ClassesForSeason(2016) ==> v.abbreviation != "SSC" && v.abbreviation != "STH"
  {
    Registry.RegistryWellFormed();
    Registry.CitedRows();
    AbsentWithoutData(Registry.AllClasses, 2016, 10);
    AbsentWithoutData(Registry.AllClasses, 2016, 17);
  }

  /** Street Touring FWD stops after 2017 (index.ts:71), so it is not listed for 2018. */
  lemma NoStreetTouringFwdIn2018()
    ensures forall v :: v in ClassesForSeason(2018) ==> v.abbreviation != "STF"
  {
    Registry.RegistryWellFormed();
    Registry.CitedRows();
    AbsentWithoutData(Registry.AllClasses, 2018, 11);
  }

  /** Solo Spec Coupe is listed for 2018 with its 0.806 modifier (index.ts:70). */
  lemma SpecCoupeIn2018()
    ensures SoloClassSeason("SSC", "Solo Spec Coupe", 2018, 0.806) in ClassesForSeason(2018)
  {
    Registry.CitedRows();
    PresentWithData(Registry.AllClasses, 2018, 10, 0);
  }

  /** The discrepancy on the shipped table: for 2016 the code as written lists
      nothing, while the intended query lists Super Street at 0.835. */
  lemma AsWrittenLosesSuperStreet2016()
    ensures ClassesForSeasonAsWritten(Registry.AllClasses, 2016) == Returns([])
    ensures SoloClassSeason("SS", "Super Street", 2016, 0.835) in ClassesForSeason(2016)
  {
    SuperStreetOpens2016();
  }
}
