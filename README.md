# SCCA Solo PAX library, modelled in Dafny

This project models the PAX library for SCCA Solo (autocross) competition classes, from `index.ts`.

In Solo, each competition class has a PAX modifier for each season. A driver's raw time multiplied by the class modifier gives the PAX ("indexed") time. Drivers of different classes are compared on that time. The library offers four things, and the model covers each:

- **The record shapes** `SoloModifier`, `SoloClass` and `SoloClassSeason`. They are datatypes in module `SoloTypes`, because the library builds them once and never updates a field.
- **The two calculators** `calculatePaxTime` and `calculateTimeToBeat`. They are functions over exact `real`s in module `PaxCalculator`.
- **The season query** `getClassesForSeason`, modelled in module `Season`:
  - it keeps the classes that have an entry for the year, in registry order;
  - it flattens each kept class into a `SoloClassSeason` record;
  - the record takes the modifier of the class's first entry for that year.
  - The JavaScript `findIndex` and `filter` it relies on are modelled in module `JsArray`, together with the way `filter` reads its callback's result as a truth value.
- **The constant table of 50 classes** built by `_initializeData`. It is the constant `Registry.AllClasses`, a sequence of `SoloClass` values in source order. It is written as eight category blocks (Street, Street Touring, Street Prepared, Street R and Muscle, Prepared, Street Modified, Modified, Junior) whose concatenation is that sequence. Finite facts about the table are proved block by block, then lifted to the whole table.

`Library.ClassesForSeason(year)` is the season query applied to that table. Module `Library` also proves the facts that follow for particular seasons.

The season query as written has a defect (see "## Findings"). The filter callback has a braced body and no `return`, so it returns `undefined` and keeps nothing. The model keeps both versions:
- `Season.ClassesForSeasonOf` is the query with the predicate its authors wrote inside that body. The rest of the model uses it.
- `Season.ClassesForSeasonAsWritten` is the code as it stands. It returns an empty list for every year.

## Model

| member | source | states |
|---|---|---|
| PaxCalculator.TimeToBeatRoundTrip | index.ts:35-39 | For a non-zero comparison modifier, the PAX time of the time to beat in the comparison class equals the reference PAX time exactly. |
| PaxCalculator.TimeToBeatIsThreshold | index.ts:35-39 | For a positive comparison modifier, a candidate raw time has a strictly better PAX time than the reference if and only if it is below the time to beat. |
| PaxCalculator.PaxTimeKeepsOrder | index.ts:31-33 | With a positive modifier, PAX times order two runs exactly as their raw times do, in both directions. |
| PaxCalculator.PaxTimeNeverExceedsRaw | index.ts:31-33 | A modifier in (0, 1] gives a PAX time between 0 and the raw time, for a non-negative raw time. |
| PaxCalculator.TimeToBeatSameClass | index.ts:37-39 | Comparing a class against itself gives back the raw time. |
| PaxCalculator.WorkedExamples | index.ts:31-39 | 60 s at 0.835 is 50.1 s on PAX. The time a 0.826 class must beat against 50.1 s at 0.835 lies strictly between 50.64 s and 50.65 s. |
| JsArray.FindIndex | index.ts:44 | The result is -1 or an index in range. When it is an index, that element satisfies the predicate. No element before it does, and when it is -1 none does. |
| JsArray.Filter | index.ts:43-45 | The result holds exactly the accepted elements of the input, each as many times as in the input, as a subsequence that keeps the input's order. |
| JsArray.FilterRejectingAll | index.ts:43-45 | A callback that accepts nothing leaves an empty list. |
| SoloTypes.IncreasingYearsAreDistinct | index.ts:59-110 | In an entry list whose years strictly increase from one entry to the next, any earlier entry has a smaller year than any later one, so no year occurs twice. |
| Season.HasEntryForIsHasYear | index.ts:44 | The `findIndex(...) >= 0` test holds of a class exactly when one of its entries is for the year. |
| Season.ToSeason | index.ts:47-53 | For a class with an entry for the year, the record copies the abbreviation and name and carries the requested year. Its modifier is that of the class's first entry for the year. The precondition keeps the index at index.ts:52 in bounds. |
| Season.MapToSeasons | index.ts:47-54 | The mapped list has one record per kept class, and each record is the projection of the class at the same position. |
| Season.ClassesForSeasonOf | index.ts:42-55 | There is a subsequence of the registry holding exactly the classes with data for the year, in registry order, each as many times as the registry lists it. The result has its length, and each record projects the class at its position, with the first-entry modifier. |
| Season.RecordsComeFromClasses | index.ts:47-51 | Every returned record carries the requested year. It comes from a registry class with data for that year, whose abbreviation, name and first-entry modifier it copies. |
| Season.ClassAppearsIffItHasData | index.ts:43-45 | A registry class has an entry for the year if and only if a record projecting it is in the result. |
| Season.EmptyIffNoData | index.ts:42-55 | The result is empty if and only if no registry class has an entry for the year. |
| Season.OneRecordPerClass | index.ts:43-54 | Over a registry with distinct abbreviations, the result's abbreviations are pairwise distinct, so there is one record per class. |
| Season.FirstDuplicateWins | index.ts:52 | A class listing 2016 twice, at 0.900 and then 0.800, is reported for 2016 with 0.900. The first entry decides and later duplicates are ignored. |
| Season.AbsentWithoutData | index.ts:43-45 | Over a registry with distinct abbreviations, no record carries the abbreviation of a class that has no entry for the year. |
| Season.PresentWithData | index.ts:47-53 | A class whose first entry for the year is at position k is listed with that entry's modifier. |
| Season.FirstClassWithDataLeads | index.ts:43-54 | If the first registry class has an entry for the year, the result is non-empty and opens with that class's record. |
| Season.ListedWithItsEntry | index.ts:52 | A well-formed class, whose years strictly increase, is listed with the modifier of its entry for the year. |
| Season.AsWrittenKeepsNothing | index.ts:43-45 | With the callback as written, `filter` keeps no class of any registry. |
| Season.ClassesForSeasonAsWritten | index.ts:42-55 | The query as written returns an empty list, without throwing, for every registry and every year. |
| Registry.RegistryWellFormed | index.ts:59-110 | The table has 50 classes and is well formed: abbreviations are pairwise distinct, and every class has a non-empty abbreviation and at least one entry. Every modifier lies in (0, 1], and entry years strictly increase within each class. |
| Registry.RegistryDistinct | index.ts:59-110 | No two of the 50 rows share an abbreviation. |
| Registry.RegistryClassesWellFormed | index.ts:59-110 | Every row has a non-empty abbreviation and at least one entry. Its modifiers all lie in (0, 1], and its entry years strictly increase. |
| Registry.RegistrySeasons | index.ts:59-110 | Every entry of the table is for a year from 2016 to 2018. |
| Registry.CitedRows | index.ts:60-77 | Rows 0, 10, 11 and 17 of the table are Super Street, Solo Spec Coupe, Street Touring FWD and Street Touring Hot Hatch, with the entries the source gives them. |
| Registry.AModifiedIsTheMaximum | index.ts:59-110 | `AM` has three entries, each at 1.000, and no modifier of the table exceeds 1.000, so `AM` carries the largest modifier. |
| Library.NothingOutsideTheTableSeasons | index.ts:42-110 | For any year before 2016 or after 2018, for example 2019, the season query on the table returns an empty list. |
| Library.FirstRowLeads | index.ts:42-60 | For any year the first row has an entry for, the list on the table opens with that row's record. |
| Library.SuperStreetOpens2016 | index.ts:60 | For 2016, the list opens with Super Street at 0.835. |
| Library.NoSpecCoupeOrHotHatchIn2016 | index.ts:70-77 | Neither `SSC` nor `STH` is listed for 2016, since both have only 2018 entries. |
| Library.NoStreetTouringFwdIn2018 | index.ts:71 | `STF` is not listed for 2018, since it has entries only for 2016 and 2017. |
| Library.SpecCoupeIn2018 | index.ts:70 | `SSC` is listed for 2018 with 0.806. |
| Library.AsWrittenLosesSuperStreet2016 | index.ts:43-60 | For 2016 on the shipped table, the code as written returns an empty list, while the intended query lists Super Street at 0.835. |

## Left out

- PaxCalculator.CalculatePaxTime: carries no `ensures` of its own. It is the product of the raw time and the modifier, and its properties are stated by the lemmas `PaxTimeKeepsOrder`, `PaxTimeNeverExceedsRaw`, `TimeToBeatRoundTrip` and `WorkedExamples`.
- PaxCalculator.CalculateTimeToBeat: carries no `ensures` of its own; its properties are the round trip, threshold and same-class lemmas. It requires a non-zero comparison modifier. The source does not guard that case, and JavaScript would produce `Infinity` or `NaN` there; the model does not reproduce those values.
- Years are integers, while the source takes any JavaScript number. A non-integer year such as 2016.5 cannot be passed to the model; in the source it matches no entry and gives an empty list.
- Floating point: times and modifiers are exact `real`s. IEEE-754 rounding of JavaScript numbers is not modelled, so the round trip and the worked values hold exactly here but only up to rounding in the source.
- Season.AsWrittenFilterCallback: carries no `ensures` of its own. It is the braced callback of index.ts:43-45, which returns `undefined` for every class; `Season.AsWrittenKeepsNothing` states what it does to the filter.
- Library.ClassesForSeason: carries no `ensures` of its own. It is the season query on the shipped table, and the `Library` lemmas state its values.
- The constructor and field initialisation (index.ts:23-28, 58-59) are not modelled as steps. The table is the constant `Registry.AllClasses`, since it is assigned once and only read afterwards. Because every operation is a pure function, the query cannot change the table and returns the same list on every call.
- `index.d.ts` is not part of this model. It declares types only.
- Display names are carried through unchanged and carry no behaviour, including the spelling "Stret Touring FWD" at index.ts:71.
- A malformed table (duplicate abbreviations, empty entry lists, out-of-range modifiers) is not rejected at construction. The model proves instead that the shipped table is well formed (`Registry.RegistryWellFormed`).
- JavaScript values returned by callbacks are reduced to `undefined` and booleans, the only two the library produces.

## Findings

| source | as written | input that shows it | evidently intended | confidence | as-written member | corrected member |
|---|---|---|---|---|---|---|
| index.ts:43-45 | The filter callback has a braced body without `return`. It evaluates the `findIndex` test, discards it and returns `undefined`, which `filter` treats as false, so every class is dropped and the query returns an empty list. | `getClassesForSeason(2016)` on the shipped table returns `[]`, although Super Street has a 2016 entry at 0.835 (`Library.AsWrittenLosesSuperStreet2016`). | Keep exactly the classes with an entry for the year, that is, return the `findIndex(...) >= 0` test (`Season.ClassAppearsIffItHasData`). | not executed | Season.ClassesForSeasonAsWritten | Season.ClassesForSeasonOf |
