/** The constant class table of the library (index.ts:57-111) and the facts
    about it that the season query and its callers rely on. The table is one
    sequence; it is written here as the concatenation of its category blocks,
    in the order the source lists them, which keeps each fact about it small. */
module Registry {
  import opened SoloTypes

  /** Street classes (index.ts:60-70). */
  const Street: seq<SoloClass> := [
      SoloClass("SS", "Super Street", [SoloModifier(2016, 0.835), SoloModifier(2017, 0.826), SoloModifier(2018, 0.817)]),
      SoloClass("AS", "A Street", [SoloModifier(2016, 0.833), SoloModifier(2017, 0.819), SoloModifier(2018, 0.814)]),
      SoloClass("BS", "B Street", [SoloModifier(2016, 0.826), SoloModifier(2017, 0.813), SoloModifier(2018, 0.808)]),
      SoloClass("CS", "C Street", [SoloModifier(2016, 0.819), SoloModifier(2017, 0.810), SoloModifier(2018, 0.805)]),
      SoloClass("DS", "D Street", [SoloModifier(2016, 0.811), SoloModifier(2017, 0.801), SoloModifier(2018, 0.794)]),
      SoloClass("ES", "E Street", [SoloModifier(2016, 0.807), SoloModifier(2017, 0.794), SoloModifier(2018, 0.787)]),
      SoloClass("FS", "F Street", [SoloModifier(2016, 0.814), SoloModifier(2017, 0.804), SoloModifier(2018, 0.797)]),
      SoloClass("GS", "G Street", [SoloModifier(2016, 0.806), SoloModifier(2017, 0.793), SoloModifier(2018, 0.786)]),
      SoloClass("HS", "H Street", [SoloModifier(2016, 0.798), SoloModifier(2017, 0.786), SoloModifier(2018, 0.781)]),
      SoloClass("HCS", "Heritage Classic Street", [SoloModifier(2016, 0.817), SoloModifier(2017, 0.809), SoloModifier(2018, 0.791)]),
      SoloClass("SSC", "Solo Spec Coupe", [SoloModifier(2018, 0.806)])
  ]

  /** Street Touring classes (index.ts:71-77). */
  const StreetTouring: seq<SoloClass> := [
      SoloClass("STF", "Stret Touring FWD", [SoloModifier(2016, 0.809), SoloModifier(2017, 0.800)]),
      SoloClass("STS", "Street Touring Sport", [SoloModifier(2016, 0.832), SoloModifier(2017, 0.818), SoloModifier(2018, 0.810)]),
      SoloClass("STX", "Street Touring Xtreme", [SoloModifier(2016, 0.836), SoloModifier(2017, 0.822), SoloModifier(2018, 0.813)]),
      SoloClass("STR", "Street Touring Roadster", [SoloModifier(2016, 0.841), SoloModifier(2017, 0.830), SoloModifier(2018, 0.823)]),
      SoloClass("STU", "Street Touring Ultra", [SoloModifier(2016, 0.845), SoloModifier(2017, 0.831), SoloModifier(2018, 0.824)]),
      SoloClass("STP", "Street Touring Pony", [SoloModifier(2016, 0.837), SoloModifier(2017, 0.820), SoloModifier(2018, 0.815)]),
      SoloClass("STH", "Street Touring Hot Hatch", [SoloModifier(2018, 0.811)])
  ]

  /** Street Prepared classes (index.ts:78-84). */
  const StreetPrepared: seq<SoloClass> := [
      SoloClass("SSP", "Super Street Prepared", [SoloModifier(2016, 0.872), SoloModifier(2017, 0.862), SoloModifier(2018, 0.852)]),
      SoloClass("ASP", "A Street Prepared", [SoloModifier(2016, 0.865), SoloModifier(2017, 0.856), SoloModifier(2018, 0.848)]),
      SoloClass("BSP", "B Street Prepared", [SoloModifier(2016, 0.863), SoloModifier(2017, 0.853), SoloModifier(2018, 0.846)]),
      SoloClass("CSP", "C Street Prepared", [SoloModifier(2016, 0.867), SoloModifier(2017, 0.860), SoloModifier(2018, 0.857)]),
      SoloClass("DSP", "D Street Prepared", [SoloModifier(2016, 0.855), SoloModifier(2017, 0.842), SoloModifier(2018, 0.835)]),
      SoloClass("ESP", "E Street Prepared", [SoloModifier(2016, 0.852), SoloModifier(2017, 0.837), SoloModifier(2018, 0.828)]),
      SoloClass("FSP", "F Street Prepared", [SoloModifier(2016, 0.840), SoloModifier(2017, 0.829), SoloModifier(2018, 0.819)])
  ]

  /** Super Street R and Classic American Muscle classes (index.ts:85-88). */
  const StreetRAndMuscle: seq<SoloClass> := [
      SoloClass("SSR", "Super Street R", [SoloModifier(2016, 0.860), SoloModifier(2017, 0.847), SoloModifier(2018, 0.838)]),
      SoloClass("CAM-C", "Classic American Muscle Contemporary", [SoloModifier(2016, 0.839), SoloModifier(2017, 0.823), SoloModifier(2018, 0.816)]),
      SoloClass("CAM-T", "Classic American Muscle Traditional", [SoloModifier(2016, 0.834), SoloModifier(2017, 0.817), SoloModifier(2018, 0.807)]),
      SoloClass("CAM-S", "Classic American Muscle Sports", [SoloModifier(2016, 0.848), SoloModifier(2017, 0.838), SoloModifier(2018, 0.831)])
  ]

  /** Prepared classes (index.ts:89-95). */
  const Prepared: seq<SoloClass> := [
      SoloClass("XP", "X Prepared", [SoloModifier(2016, 0.907), SoloModifier(2017, 0.892), SoloModifier(2018, 0.884)]),
      SoloClass("BP", "B Prepared", [SoloModifier(2016, 0.883), SoloModifier(2017, 0.869), SoloModifier(2018, 0.860)]),
      SoloClass("CP", "C Prepared", [SoloModifier(2016, 0.864), SoloModifier(2017, 0.854), SoloModifier(2018, 0.847)]),
      SoloClass("DP", "D Prepared", [SoloModifier(2016, 0.879), SoloModifier(2017, 0.865), SoloModifier(2018, 0.858)]),
      SoloClass("EP", "E Prepared", [SoloModifier(2016, 0.871), SoloModifier(2017, 0.859), SoloModifier(2018, 0.850)]),
      SoloClass("FP", "F Prepared", [SoloModifier(2016, 0.880), SoloModifier(2017, 0.873), SoloModifier(2018, 0.863)]),
      SoloClass("HCR", "Heritage Classic Race", [SoloModifier(2016, 0.838), SoloModifier(2017, 0.825), SoloModifier(2018, 0.812)])
  ]

  /** Street Modified classes (index.ts:96-98). */
  const StreetModified: seq<SoloClass> := [
      SoloClass("SMF", "Street Modified FWD", [SoloModifier(2016, 0.861), SoloModifier(2017, 0.848), SoloModifier(2018, 0.839)]),
      SoloClass("SM", "Street Modified", [SoloModifier(2016, 0.870), SoloModifier(2017, 0.861), SoloModifier(2018, 0.853)]),
      SoloClass("SSM", "Super Street Modified", [SoloModifier(2016, 0.882), SoloModifier(2017, 0.875), SoloModifier(2018, 0.871)])
  ]

  /** Modified classes (index.ts:99-106). */
  const Modified: seq<SoloClass> := [
      SoloClass("AM", "A Modified", [SoloModifier(2016, 1.000), SoloModifier(2017, 1.000), SoloModifier(2018, 1.000)]),
      SoloClass("BM", "B Modified", [SoloModifier(2016, 0.966), SoloModifier(2017, 0.956), SoloModifier(2018, 0.956)]),
      SoloClass("CM", "C Modified", [SoloModifier(2016, 0.916), SoloModifier(2017, 0.901), SoloModifier(2018, 0.890)]),
      SoloClass("DM", "D Modified", [SoloModifier(2016, 0.919), SoloModifier(2017, 0.906), SoloModifier(2018, 0.895)]),
      SoloClass("EM", "E Modified", [SoloModifier(2016, 0.920), SoloModifier(2017, 0.905), SoloModifier(2018, 0.894)]),
      SoloClass("FM", "F Modified", [SoloModifier(2016, 0.926), SoloModifier(2017, 0.916), SoloModifier(2018, 0.904)]),
      SoloClass("FSAE", "Formula SAE", [SoloModifier(2016, 0.982), SoloModifier(2017, 0.966), SoloModifier(2018, 0.958)]),
      SoloClass("KM", "Kart Modified", [SoloModifier(2016, 0.954), SoloModifier(2017, 0.939), SoloModifier(2018, 0.928)])
  ]

  /** Junior Kart classes (index.ts:107-109). */
  const Junior: seq<SoloClass> := [
      SoloClass("JA", "Junior A", [SoloModifier(2016, 0.878), SoloModifier(2017, 0.864), SoloModifier(2018, 0.855)]),
      SoloClass("JB", "Junior B", [SoloModifier(2016, 0.842), SoloModifier(2017, 0.834), SoloModifier(2018, 0.825)]),
      SoloClass("JC", "Junior C", [SoloModifier(2016, 0.734), SoloModifier(2017, 0.726), SoloModifier(2018, 0.718)])
  ]

  /** Every class the library knows, in definition order (index.ts:59-110). */
  const AllClasses: seq<SoloClass> :=
    Street + StreetTouring + StreetPrepared + StreetRAndMuscle + Prepared + StreetModified + Modified + Junior

  /** The first and last competition years the table has data for. */
  const FirstSeason := 2016
  const LastSeason := 2018

  /** Every entry of `c` is for a year from `FirstSeason` to `LastSeason`. */
  ghost predicate InSeasons(c: SoloClass) {
    forall k :: 0 <= k < |c.modifiers| ==> FirstSeason <= c.modifiers[k].year <= LastSeason
  }

  /** No class of `a` shares an abbreviation with a class of `b`. */
  ghost predicate Apart(a: seq<SoloClass>, b: seq<SoloClass>) {
    forall i, j :: 0 <= i < |a| && 0 <= j < |b| ==> a[i].abbreviation != b[j].abbreviation
  }

  /** Distinct abbreviations survive concatenation with a block that shares none. */
  lemma DistinctConcat(a: seq<SoloClass>, b: seq<SoloClass>)
    requires DistinctAbbreviations(a) && DistinctAbbreviations(b) && Apart(a, b)
    ensures DistinctAbbreviations(a + b)
  {
    var s := a + b;
    forall i, j | 0 <= i < j < |s| ensures s[i].abbreviation != s[j].abbreviation {
      if j < |a| {
        assert s[i] == a[i] && s[j] == a[j];
      } else if i < |a| {
        assert s[i] == a[i] && s[j] == b[j - |a|];
      } else {
        assert s[i] == b[i - |a|] && s[j] == b[j - |a|];
      }
    }
  }

  /** A block apart from two others is apart from their concatenation. */
  lemma ApartConcat(a: seq<SoloClass>, b: seq<SoloClass>, c: seq<SoloClass>)
    requires Apart(a, c) && Apart(b, c)
    ensures Apart(a + b, c)
  {
    forall i, j | 0 <= i < |a + b| && 0 <= j < |c| ensures (a + b)[i].abbreviation != c[j].abbreviation {
      if i < |a| {
        assert (a + b)[i] == a[i];
      } else {
        assert (a + b)[i] == b[i - |a|];
      }
    }
  }

  // The facts below are finite checks over a handful of literal rows each,
  // which the verifier settles by evaluation: one lemma per block, and one per
  // pair of blocks for the abbreviations.

  lemma StreetWellFormed() ensures forall i :: 0 <= i < |Street| ==> WellFormedClass(Street[i]) {}
  lemma StreetTouringWellFormed() ensures forall i :: 0 <= i < |StreetTouring| ==> WellFormedClass(StreetTouring[i]) {}
  lemma StreetPreparedWellFormed() ensures forall i :: 0 <= i < |StreetPrepared| ==> WellFormedClass(StreetPrepared[i]) {}
  lemma StreetRAndMuscleWellFormed() ensures forall i :: 0 <= i < |StreetRAndMuscle| ==> WellFormedClass(StreetRAndMuscle[i]) {}
  lemma PreparedWellFormed() ensures forall i :: 0 <= i < |Prepared| ==> WellFormedClass(Prepared[i]) {}
  lemma StreetModifiedWellFormed() ensures forall i :: 0 <= i < |StreetModified| ==> WellFormedClass(StreetModified[i]) {}
  lemma ModifiedWellFormed() ensures forall i :: 0 <= i < |Modified| ==> WellFormedClass(Modified[i]) {}
  lemma JuniorWellFormed() ensures forall i :: 0 <= i < |Junior| ==> WellFormedClass(Junior[i]) {}

  lemma StreetInSeasons() ensures forall i :: 0 <= i < |Street| ==> InSeasons(Street[i]) {}
  lemma StreetTouringInSeasons() ensures forall i :: 0 <= i < |StreetTouring| ==> InSeasons(StreetTouring[i]) {}
  lemma StreetPreparedInSeasons() ensures forall i :: 0 <= i < |StreetPrepared| ==> InSeasons(StreetPrepared[i]) {}
  lemma StreetRAndMuscleInSeasons() ensures forall i :: 0 <= i < |StreetRAndMuscle| ==> InSeasons(StreetRAndMuscle[i]) {}
  lemma PreparedInSeasons() ensures forall i :: 0 <= i < |Prepared| ==> InSeasons(Prepared[i]) {}
  lemma StreetModifiedInSeasons() ensures forall i :: 0 <= i < |StreetModified| ==> InSeasons(StreetModified[i]) {}
  lemma ModifiedInSeasons() ensures forall i :: 0 <= i < |Modified| ==> InSeasons(Modified[i]) {}
  lemma JuniorInSeasons() ensures forall i :: 0 <= i < |Junior| ==> InSeasons(Junior[i]) {}

  lemma StreetDistinct() ensures DistinctAbbreviations(Street) {}
  lemma StreetTouringDistinct() ensures DistinctAbbreviations(StreetTouring) {}
  lemma StreetPreparedDistinct() ensures DistinctAbbreviations(StreetPrepared) {}
  lemma StreetRAndMuscleDistinct() ensures DistinctAbbreviations(StreetRAndMuscle) {}
  lemma PreparedDistinct() ensures DistinctAbbreviations(Prepared) {}
  lemma StreetModifiedDistinct() ensures DistinctAbbreviations(StreetModified) {}
  lemma ModifiedDistinct() ensures DistinctAbbreviations(Modified) {}
  lemma JuniorDistinct() ensures DistinctAbbreviations(Junior) {}

  lemma StreetTouringApartFromStreet() ensures Apart(Street, StreetTouring) {}
  lemma StreetPreparedApartFromStreet() ensures Apart(Street, StreetPrepared) {}
  lemma StreetPreparedApartFromStreetTouring() ensures Apart(StreetTouring, StreetPrepared) {}
  lemma StreetRAndMuscleApartFromStreet() ensures Apart(Street, StreetRAndMuscle) {}
  lemma StreetRAndMuscleApartFromStreetTouring() ensures Apart(StreetTouring, StreetRAndMuscle) {}
  lemma StreetRAndMuscleApartFromStreetPrepared() ensures Apart(StreetPrepared, StreetRAndMuscle) {}
  lemma PreparedApartFromStreet() ensures Apart(Street, Prepared) {}
  lemma PreparedApartFromStreetTouring() ensures Apart(StreetTouring, Prepared) {}
  lemma PreparedApartFromStreetPrepared() ensures Apart(StreetPrepared, Prepared) {}
  lemma PreparedApartFromStreetRAndMuscle() ensures Apart(StreetRAndMuscle, Prepared) {}
  lemma StreetModifiedApartFromStreet() ensures Apart(Street, StreetModified) {}
  lemma StreetModifiedApartFromStreetTouring() ensures Apart(StreetTouring, StreetModified) {}
  lemma StreetModifiedApartFromStreetPrepared() ensures Apart(StreetPrepared, StreetModified) {}
  lemma StreetModifiedApartFromStreetRAndMuscle() ensures Apart(StreetRAndMuscle, StreetModified) {}
  lemma StreetModifiedApartFromPrepared() ensures Apart(Prepared, StreetModified) {}
  lemma ModifiedApartFromStreet() ensures Apart(Street, Modified) {}
  lemma ModifiedApartFromStreetTouring() ensures Apart(StreetTouring, Modified) {}
  lemma ModifiedApartFromStreetPrepared() ensures Apart(StreetPrepared, Modified) {}
  lemma ModifiedApartFromStreetRAndMuscle() ensures Apart(StreetRAndMuscle, Modified) {}
  lemma ModifiedApartFromPrepared() ensures Apart(Prepared, Modified) {}
  lemma ModifiedApartFromStreetModified() ensures Apart(StreetModified, Modified) {}
  lemma JuniorApartFromStreet() ensures Apart(Street, Junior) {}
  lemma JuniorApartFromStreetTouring() ensures Apart(StreetTouring, Junior) {}
  lemma JuniorApartFromStreetPrepared() ensures Apart(StreetPrepared, Junior) {}
  lemma JuniorApartFromStreetRAndMuscle() ensures Apart(StreetRAndMuscle, Junior) {}
  lemma JuniorApartFromPrepared() ensures Apart(Prepared, Junior) {}
  lemma JuniorApartFromStreetModified() ensures Apart(StreetModified, Junior) {}
  lemma JuniorApartFromModified() ensures Apart(Modified, Junior) {}

  lemma StreetPreparedApartFromEarlier()
    ensures Apart(Street + StreetTouring, StreetPrepared)
  {
    StreetPreparedApartFromStreet();
    StreetPreparedApartFromStreetTouring();
    ApartConcat(Street, StreetTouring, StreetPrepared);
  }

  lemma StreetRAndMuscleApartFromEarlier()
    ensures Apart(Street + StreetTouring + StreetPrepared, StreetRAndMuscle)
  {
    StreetRAndMuscleApartFromStreet();
    StreetRAndMuscleApartFromStreetTouring();
    StreetRAndMuscleApartFromStreetPrepared();
    ApartConcat(Street, StreetTouring, StreetRAndMuscle);
    ApartConcat(Street + StreetTouring, StreetPrepared, StreetRAndMuscle);
  }

  lemma PreparedApartFromEarlier()
    ensures Apart(Street + StreetTouring + StreetPrepared + StreetRAndMuscle, Prepared)
  {
    PreparedApartFromStreet();
    PreparedApartFromStreetTouring();
    PreparedApartFromStreetPrepared();
    PreparedApartFromStreetRAndMuscle();
    ApartConcat(Street, StreetTouring, Prepared);
    ApartConcat(Street + StreetTouring, StreetPrepared, Prepared);
    ApartConcat(Street + StreetTouring + StreetPrepared, StreetRAndMuscle, Prepared);
  }

  lemma StreetModifiedApartFromEarlier()
    ensures Apart(Street + StreetTouring + StreetPrepared + StreetRAndMuscle + Prepared, StreetModified)
  {
    StreetModifiedApartFromStreet();
    StreetModifiedApartFromStreetTouring();
    StreetModifiedApartFromStreetPrepared();
    StreetModifiedApartFromStreetRAndMuscle();
    StreetModifiedApartFromPrepared();
    ApartConcat(Street, StreetTouring, StreetModified);
    ApartConcat(Street + StreetTouring, StreetPrepared, StreetModified);
    ApartConcat(Street + StreetTouring + StreetPrepared, StreetRAndMuscle, StreetModified);
    ApartConcat(Street + StreetTouring + StreetPrepared + StreetRAndMuscle, Prepared, StreetModified);
  }

  lemma ModifiedApartFromEarlier()
    ensures Apart(Street + StreetTouring + StreetPrepared + StreetRAndMuscle + Prepared + StreetModified, Modified)
  {
    ModifiedApartFromStreet();
    ModifiedApartFromStreetTouring();
    ModifiedApartFromStreetPrepared();
    ModifiedApartFromStreetRAndMuscle();
    ModifiedApartFromPrepared();
    ModifiedApartFromStreetModified();
    ApartConcat(Street, StreetTouring, Modified);
    ApartConcat(Street + StreetTouring, StreetPrepared, Modified);
    ApartConcat(Street + StreetTouring + StreetPrepared, StreetRAndMuscle, Modified);
    ApartConcat(Street + StreetTouring + StreetPrepared + StreetRAndMuscle, Prepared, Modified);
    ApartConcat(Street + StreetTouring + StreetPrepared + StreetRAndMuscle + Prepared, StreetModified, Modified);
  }

  lemma JuniorApartFromEarlier()
    ensures Apart(Street + StreetTouring + StreetPrepared + StreetRAndMuscle + Prepared + StreetModified + Modified, Junior)
  {
    JuniorApartFromStreet();
    JuniorApartFromStreetTouring();
    JuniorApartFromStreetPrepared();
    JuniorApartFromStreetRAndMuscle();
    JuniorApartFromPrepared();
    JuniorApartFromStreetModified();
    JuniorApartFromModified();
    ApartConcat(Street, StreetTouring, Junior);
    ApartConcat(Street + StreetTouring, StreetPrepared, Junior);
    ApartConcat(Street + StreetTouring + StreetPrepared, StreetRAndMuscle, Junior);
    ApartConcat(Street + StreetTouring + StreetPrepared + StreetRAndMuscle, Prepared, Junior);
    ApartConcat(Street + StreetTouring + StreetPrepared + StreetRAndMuscle + Prepared, StreetModified, Junior);
    ApartConcat(Street + StreetTouring + StreetPrepared + StreetRAndMuscle + Prepared + StreetModified, Modified, Junior);
  }

  /** The shipped table is a well-formed registry: its 50 abbreviations are
      pairwise distinct, and every class has entries, all modifiers in (0, 1],
      listed by strictly increasing year. */
  lemma RegistryWellFormed()
    ensures |AllClasses| == 50
    ensures WellFormedRegistry(AllClasses)
  {
    RegistryDistinct();
    RegistryClassesWellFormed();
  }

  /** No two rows of the table share an abbreviation. */
  lemma RegistryDistinct()
    ensures DistinctAbbreviations(AllClasses)
  {
    StreetDistinct();
    StreetTouringDistinct();
    StreetPreparedDistinct();
    StreetRAndMuscleDistinct();
    PreparedDistinct();
    StreetModifiedDistinct();
    ModifiedDistinct();
    JuniorDistinct();
    StreetTouringApartFromStreet();
    DistinctConcat(Street, StreetTouring);
    StreetPreparedApartFromEarlier();
    DistinctConcat(Street + StreetTouring, StreetPrepared);
    StreetRAndMuscleApartFromEarlier();
    DistinctConcat(Street + StreetTouring + StreetPrepared, StreetRAndMuscle);
    PreparedApartFromEarlier();
    DistinctConcat(Street + StreetTouring + StreetPrepared + StreetRAndMuscle, Prepared);
    StreetModifiedApartFromEarlier();
    DistinctConcat(Street + StreetTouring + StreetPrepared + StreetRAndMuscle + Prepared, StreetModified);
    ModifiedApartFromEarlier();
    DistinctConcat(Street + StreetTouring + StreetPrepared + StreetRAndMuscle + Prepared + StreetModified, Modified);
    JuniorApartFromEarlier();
    DistinctConcat(Street + StreetTouring + StreetPrepared + StreetRAndMuscle + Prepared + StreetModified + Modified, Junior);
  }

  /** Every row of the table is a well-formed class. */
  lemma RegistryClassesWellFormed()
    ensures forall c :: c in AllClasses ==> WellFormedClass(c)
  {
    StreetWellFormed();
    StreetTouringWellFormed();
    StreetPreparedWellFormed();
    StreetRAndMuscleWellFormed();
    PreparedWellFormed();
    StreetModifiedWellFormed();
    ModifiedWellFormed();
    JuniorWellFormed();
  }

  /** The table only has data for the seasons 2016 to 2018. */
  lemma RegistrySeasons()
    ensures forall c :: c in AllClasses ==> InSeasons(c)
  {
    StreetInSeasons();
    StreetTouringInSeasons();
    StreetPreparedInSeasons();
    StreetRAndMuscleInSeasons();
    PreparedInSeasons();
    StreetModifiedInSeasons();
    ModifiedInSeasons();
    JuniorInSeasons();
  }

  /** The rows that the season facts of module Library single out, at their
      positions in the table (index.ts:60, 70, 71, 77). */
  lemma CitedRows()
    ensures AllClasses[0] == SoloClass("SS", "Super Street", [SoloModifier(2016, 0.835), SoloModifier(2017, 0.826), SoloModifier(2018, 0.817)])
    ensures AllClasses[10] == SoloClass("SSC", "Solo Spec Coupe", [SoloModifier(2018, 0.806)])
    ensures AllClasses[11] == SoloClass("STF", "Stret Touring FWD", [SoloModifier(2016, 0.809), SoloModifier(2017, 0.800)])
    ensures AllClasses[17] == SoloClass("STH", "Street Touring Hot Hatch", [SoloModifier(2018, 0.811)])
  {
    assert AllClasses[0] == Street[0];
    assert AllClasses[10] == Street[10];
    assert AllClasses[11] == StreetTouring[0];
    assert AllClasses[17] == StreetTouring[6];
  }

  /** `AM` carries the modifier 1.000 in every season it lists (index.ts:99),
      and no modifier of the table exceeds it. */
  lemma AModifiedIsTheMaximum()
    ensures exists c :: && c in AllClasses && c.abbreviation == "AM" && |c.modifiers| == 3
                        && forall k :: 0 <= k < |c.modifiers| ==> c.modifiers[k].modifier == 1.0
    ensures forall c, k :: c in AllClasses && 0 <= k < |c.modifiers| ==> c.modifiers[k].modifier <= 1.0
  {
    RegistryClassesWellFormed();
    var am := AllClasses[39];
    assert am == Modified[0];
    assert am.abbreviation == "AM" && |am.modifiers| == 3;
    assert forall k :: 0 <= k < |am.modifiers| ==> am.modifiers[k].modifier == 1.0;
  }
}
