# NYC high-school directory: data import and sort/filter settings

This project models two parts of the NYC high-school directory app.

The first is the **data importer**. Four converters turn the optional text
of a JSON field into a stored attribute value:

- `stringToString` trims the text and drops its line breaks;
- `stringToBool` reads "n", "no" and "0" as false and any other text as true;
- `stringToInt` parses a 16-bit integer and falls back to 0;
- `stringToFloat` and `stringToDouble` parse a number and fall back to 0.0.

`HSDataImporter` uses them to populate new `HighSchool`, `Address` and
`SATResult` objects from parsed records. It inserts those objects into a
managed-object context one record at a time.

The second is the **sort and filter settings** `SortByFilterBy`, with these
parts:

- the two sort descriptors of each sort order: borough, then school name;
- the one-line description shown above the list;
- the fetch predicate: a borough match in upper case, and/or a school with
  a SAT result whose math plus critical-reading average exceeds the
  minimum.

The project has five modules:

- `Optional` (option.dfy): Swift's `Optional` and dictionary lookup.
- `Conversions` (conversions.dfy): the four converters. They are specified
  through trimming, newline removal, ASCII lower-casing, decimal literals in
  the 16-bit range, and an IEEE value type.
- `Entities` (entities.dfy): the three managed entities. Their attributes
  are read by name (key-value coding), as maps per value kind. An unset
  attribute reads as the store's default: nil, 0, 0.0 or false.
- `Importer` (importer.dfy):
  - a schema per populate function: each attribute and the JSON key it is
    read from;
  - the `HSDataImporter` class over a `Context` class, whose sequences
    record the inserted objects in order;
  - the insert methods and the per-record import loops, proved against
    functions that give the objects produced for a list of records.
- `SortingAndFiltering` (sorting.dfy):
  - sort descriptors, with the ordering they induce (`Precedes`);
  - the settings datatype with its defaults;
  - `Description` and `Predicate`;
  - `Admits`, the meaning of the predicate on a school.

`stringToBool(nil)` returns false (ParseUtil.swift:41-42), while any
non-nil text other than "n", "0" or "no", including "", reads as true
(`Conversions.StringToBool`, `Conversions.StringToBoolExamples`).

## Model

| member | source | states |
|---|---|---|
| Optional.Lookup | NYCSchools/Util/ParseUtil.swift:138-160 | `schoolData[key]` is a value exactly when the key is present, and then it is the stored value |
| Conversions.IsNewline | NYCSchools/Util/ParseUtil.swift:28 | the characters `Character.isNewline` accepts: LF, VT, FF, CR, NEL, LINE SEPARATOR and PARAGRAPH SEPARATOR |
| Conversions.IsWhitespaceOrNewline | NYCSchools/Util/ParseUtil.swift:27 | the members of `CharacterSet.whitespacesAndNewlines`: the newlines, TAB, SPACE, NO-BREAK SPACE, OGHAM SPACE MARK, U+2000 to U+200B, NARROW NO-BREAK SPACE, MEDIUM MATHEMATICAL SPACE and IDEOGRAPHIC SPACE |
| Conversions.Trim | NYCSchools/Util/ParseUtil.swift:27 | the result has no leading or trailing whitespace or newline; it is empty exactly when the input is all whitespace; already-trimmed input is unchanged |
| Conversions.TrimSplits | NYCSchools/Util/ParseUtil.swift:27 | the result is a slice of the input with only whitespace and newlines before and after it |
| Conversions.TrimOfPadded | NYCSchools/Util/ParseUtil.swift:27 | a core with no whitespace or newline at either end, padded on both sides with whitespace and newlines, trims back to exactly that core |
| Conversions.RemoveNewlines | NYCSchools/Util/ParseUtil.swift:27-29 | the result is no longer than the input; what it keeps is stated by the lemmas below |
| Conversions.RemoveNewlinesOfChar | NYCSchools/Util/ParseUtil.swift:27-29 | a single character is dropped exactly when it is a newline, and kept otherwise |
| Conversions.RemoveNewlinesAppend | NYCSchools/Util/ParseUtil.swift:27-29 | filtering a concatenation concatenates the filtered parts; with the one-character case this fixes the result on every input |
| Conversions.RemoveNewlinesCleans | NYCSchools/Util/ParseUtil.swift:27-29 | the result has no newline, and text without a newline is returned unchanged |
| Conversions.RemoveNewlinesKeepsEnds | NYCSchools/Util/ParseUtil.swift:27-29 | a first or last character that is not a newline stays first or last |
| Conversions.SkipBlanksForward | NYCSchools/Util/ParseUtil.swift:27 | the scan from an index stops at the first character that is neither whitespace nor a newline, or at the end, having passed only such characters |
| Conversions.SkipBlanksBackward | NYCSchools/Util/ParseUtil.swift:27 | the backward scan from an index stops just after the last character that is neither whitespace nor a newline, or at 0, having passed only such characters |
| Conversions.TrimLeading | NYCSchools/Util/ParseUtil.swift:27 | the result is a suffix of the input; everything dropped is whitespace or newline, and the result does not start with either |
| Conversions.TrimTrailing | NYCSchools/Util/ParseUtil.swift:27 | the result is a prefix of the input; everything dropped is whitespace or newline, and the result does not end with either |
| Conversions.StringToString | NYCSchools/Util/ParseUtil.swift:23-30 | nil exactly for nil or empty input; any other result has no newline and no surrounding whitespace |
| Conversions.StringToStringOfPadded | NYCSchools/Util/ParseUtil.swift:23-30 | text that is a non-empty trimmed core between two runs of whitespace converts to the core with its newlines removed |
| Conversions.StringToStringOfBlank | NYCSchools/Util/ParseUtil.swift:25-29 | non-empty all-whitespace text becomes the empty string, not nil |
| Conversions.StringToStringKeepsClean | NYCSchools/Util/ParseUtil.swift:23-30 | non-empty text that is already trimmed and newline-free is returned unchanged |
| Conversions.StringToStringIdempotent | NYCSchools/Util/ParseUtil.swift:23-30 | converting twice equals converting once, except that a blank input's empty result becomes nil the second time |
| Conversions.StringToStringJoinsLines | NYCSchoolsTests/JSONParseTests.swift:80-88 | "foo\n bar" becomes "foo bar" |
| Conversions.StringToStringTrimsEnds | NYCSchoolsTests/JSONParseTests.swift:85-90 | " foo bar  " and "foo bar" both become "foo bar" |
| Conversions.StringToStringEmptyAndBlank | NYCSchools/Util/ParseUtil.swift:25-29 | "" becomes nil, while " \n " becomes "" |
| Conversions.TrimLeadingSkips | NYCSchools/Util/ParseUtil.swift:27 | leading whitespace before a non-blank character is removed and nothing else |
| Conversions.TrimTrailingSkips | NYCSchools/Util/ParseUtil.swift:27 | trailing whitespace after a non-blank character is removed and nothing else |
| Conversions.RemoveNewlinesDropsOne | NYCSchools/Util/ParseUtil.swift:27-29 | one newline between newline-free parts is dropped and the parts are joined |
| Conversions.Lowercased | NYCSchools/Util/ParseUtil.swift:35 | same length, each character lower-cased |
| Conversions.StringToBool | NYCSchools/Util/ParseUtil.swift:32-43 | nil gives false; the empty string gives true |
| Conversions.StringToBoolFalseIff | NYCSchools/Util/ParseUtil.swift:34-38 | text converts to false exactly when it is "n", "0" or "no" in any letter case |
| Conversions.StringToBoolExamples | NYCSchoolsTests/JSONParseTests.swift:93-108 | nil, "N", "no" and "0" are false; "", "ahe" and "yes" are true |
| Conversions.ParseInt16 | NYCSchools/Util/ParseUtil.swift:85 | `Int16(text)` succeeds exactly on an optionally signed decimal literal whose value is in the 16-bit range, and gives that value |
| Conversions.StringToInt | NYCSchools/Util/ParseUtil.swift:82-94 | the result is a 16-bit value; a non-zero result is the value of the input literal; an in-range literal gives its value |
| Conversions.NatDigits | NYCSchools/Util/SortingAndFiltering.swift:61 | the decimal digits of a natural number have no leading zero |
| Conversions.Decimal | NYCSchools/Util/SortingAndFiltering.swift:61 | the decimal text of an integer is non-empty, and all digits when the integer is not negative |
| Conversions.DigitsValueOfNatDigits | NYCSchools/Util/SortingAndFiltering.swift:61 | the digits of `n` read back as `n` |
| Conversions.DecimalRoundTrip | NYCSchools/Util/SortingAndFiltering.swift:61 | the decimal text of any integer is a decimal literal that reads back as that integer |
| Conversions.DecimalInjective | NYCSchools/Util/SortingAndFiltering.swift:61 | different integers have different decimal texts |
| Conversions.StringToIntRoundTrip | NYCSchools/Util/ParseUtil.swift:82-94 | every 16-bit integer survives printing and `stringToInt` |
| Conversions.StringToIntOutOfRange | NYCSchools/Util/ParseUtil.swift:85-88 | the text of an integer outside the 16-bit range converts to the default 0 |
| Conversions.StringToIntExamples | NYCSchoolsTests/JSONParseTests.swift:128-134 | nil, "" and "foo" give 0; "828" gives 828; "32768" overflows to 0; "-32768" is accepted |
| Conversions.StringToFloatingPoint | NYCSchools/Util/ParseUtil.swift:54-80 | never NaN; nil gives 0.0; a non-zero result is what the parser returned; a parsed non-NaN value is kept |
| Entities.Text | NYCSchools/Util/ParseUtil.swift:138-152 | an unset text attribute reads as nil |
| Entities.Integer | NYCSchools/Util/ParseUtil.swift:158-160 | an unset integer attribute reads as 0 |
| Entities.Real | NYCSchools/Util/ParseUtil.swift:155-156 | an unset floating-point attribute reads as 0.0 |
| Entities.Flag | NYCSchools/Util/ParseUtil.swift:197-206 | an unset boolean attribute reads as false |
| Importer.Assign | NYCSchools/Util/ParseUtil.swift:137-217 | one block of `entity.setValue(converter(schoolData[key]), forKey: attribute)` lines over the attributes of one value kind |
| Importer.Populate | NYCSchools/Util/ParseUtil.swift:137-217 | a populate function: one such block per value kind, with the kind's converter and the chosen floating-point parser |
| Importer.AssignSetsAndKeeps | NYCSchools/Util/ParseUtil.swift:137-217 | a block of assignments sets each listed attribute from its key through the converter, and keeps every other attribute |
| Importer.AssignKeeps | NYCSchools/Util/ParseUtil.swift:137-217 | an attribute outside the list keeps its value |
| Importer.AssignSets | NYCSchools/Util/ParseUtil.swift:137-217 | a listed attribute gets the converted value of its key |
| Importer.PopulateSetsSchemaAttributes | NYCSchools/Util/ParseUtil.swift:137-217 | each attribute of a populate function is the kind's converter applied to the record's value under that attribute's key |
| Importer.PopulateMeetsSchema | NYCSchools/Util/ParseUtil.swift:137-217 | a populate function sets every attribute its table lists to the converted value of that attribute's key, and leaves every other attribute of every kind as it was |
| Importer.PopulatedText | NYCSchools/Util/ParseUtil.swift:138-152 | one text attribute is `stringToString` of its key's value |
| Importer.PopulatedInteger | NYCSchools/Util/ParseUtil.swift:158-160 | one integer attribute is `stringToInt` of its key's value |
| Importer.PopulatedFlag | NYCSchools/Util/ParseUtil.swift:197-206 | one boolean attribute is `stringToBool` of its key's value |
| Importer.PopulateKeepsOtherAttributes | NYCSchools/Util/ParseUtil.swift:137-217 | attributes a populate function does not list are left as they were |
| Importer.PopulatedTextIsClean | NYCSchools/Util/ParseUtil.swift:138-152 | every text attribute populated is nil, or free of newlines and surrounding whitespace |
| Importer.PopulateFromEmptyRecord | NYCSchools/Util/ParseUtil.swift:137-217 | an empty record gives every listed attribute its default: nil, 0, 0.0 or false |
| Importer.AssignIdempotent | NYCSchools/Util/ParseUtil.swift:137-217 | repeating a block of assignments changes nothing |
| Importer.PopulateIdempotent | NYCSchools/Util/ParseUtil.swift:137-217 | populating twice from the same record equals populating once |
| Importer.AssignReadsOnlyItsKeys | NYCSchools/Util/ParseUtil.swift:137-217 | a block of assignments depends only on the record's values under its listed keys |
| Importer.PopulateReadsOnlySchemaKeys | NYCSchools/Util/ParseUtil.swift:137-217 | records that agree on a populate function's keys populate the same attributes |
| Importer.TransferAndSpecializedKeys | NYCSchools/Util/ParseUtil.swift:201-202 | both `transfer` and `specialized` are read from the "specialized" key |
| Importer.TransferMirrorsSpecialized | NYCSchools/Util/ParseUtil.swift:201-202 | after `populateHighSchool`, `transfer` is `stringToBool` of "specialized" and always equals `specialized` |
| Importer.Context.constructor | NYCSchools/Util/ParseUtil.swift:105-108 | a new context holds no objects |
| Importer.HSDataImporter.constructor | NYCSchools/Util/ParseUtil.swift:105-108 | the importer keeps its context; `includeChildEntities` defaults to false |
| Importer.HSDataImporter.PopulateAddress | NYCSchools/Util/ParseUtil.swift:137-161 | `populateAddress`: the address table with the `Double` parser |
| Importer.HSDataImporter.PopulateAddressFields | NYCSchools/Util/ParseUtil.swift:137-161 | each of the 15 text, 3 `Int16` and 2 `Double` attributes of the address table is set from its key, and every other attribute is unchanged |
| Importer.HSDataImporter.PopulateHighSchool | NYCSchools/Util/ParseUtil.swift:163-207 | populating a school sets attributes only; its address and SAT results are untouched |
| Importer.HSDataImporter.PopulateHighSchoolFields | NYCSchools/Util/ParseUtil.swift:163-207 | each text, `Int16`, `Float` and boolean attribute of the school table is set from its key, and every other attribute is unchanged |
| Importer.HSDataImporter.PopulateSAT | NYCSchools/Util/ParseUtil.swift:209-217 | `populateSAT`: the SAT table with the `Float` parser |
| Importer.HSDataImporter.PopulateSATFields | NYCSchools/Util/ParseUtil.swift:209-217 | each attribute of the SAT table is set from its key, and every other attribute is unchanged |
| Importer.HSDataImporter.ImportedAddress | NYCSchools/Util/ParseUtil.swift:249-254 | the address `insertAddress` creates: a new object, populated |
| Importer.HSDataImporter.ImportedAddressFields | NYCSchools/Util/ParseUtil.swift:249-254 | the new address holds the converted values of its table's keys and no other attribute |
| Importer.HSDataImporter.ImportedSATResult | NYCSchools/Util/ParseUtil.swift:256-262 | the SAT result `insertSATResult` creates: a new object, populated |
| Importer.HSDataImporter.ImportedSATResultFields | NYCSchools/Util/ParseUtil.swift:256-262 | the new SAT result holds the converted values of its table's keys and no other attribute |
| Importer.HSDataImporter.ImportedSchool | NYCSchools/Util/ParseUtil.swift:221-230 | the inserted school has an address exactly when child entities are included; that address is populated from the same record; the school has no SAT results |
| Importer.HSDataImporter.ImportedSchools | NYCSchools/Util/ParseUtil.swift:110-121 | one school per record |
| Importer.HSDataImporter.ImportedAddresses | NYCSchools/Util/ParseUtil.swift:110-121 | one address per record |
| Importer.HSDataImporter.ImportedSATResults | NYCSchools/Util/ParseUtil.swift:123-134 | one SAT result per record |
| Importer.HSDataImporter.ChildAddresses | NYCSchools/Util/ParseUtil.swift:225-227 | one address per record when child entities are included, none otherwise |
| Importer.HSDataImporter.InsertAddress | NYCSchools/Util/ParseUtil.swift:249-254 | a new populated address is appended to the given context, or to `moc` when none is given; no other object list changes |
| Importer.HSDataImporter.InsertHS | NYCSchools/Util/ParseUtil.swift:221-230 | the school for the record is appended to the schools; its address is appended to the addresses when child entities are included; SAT results are unchanged |
| Importer.HSDataImporter.InsertSATResult | NYCSchools/Util/ParseUtil.swift:256-262 | the SAT result for the record is appended; schools and addresses are unchanged |
| Importer.HSDataImporter.ImportSchools | NYCSchools/Util/ParseUtil.swift:110-121 | the context gains exactly the schools for the records, in record order, and their addresses when child entities are included |
| Importer.HSDataImporter.ImportSATResults | NYCSchools/Util/ParseUtil.swift:123-134 | the context gains exactly the SAT results for the records, in record order, and nothing else |
| Importer.ImportedSchoolsInOrder | NYCSchools/Util/ParseUtil.swift:114-120 | the i-th imported school comes from the i-th record |
| Importer.ImportedAddressesInOrder | NYCSchools/Util/ParseUtil.swift:114-120 | the i-th imported address comes from the i-th record |
| Importer.ImportedSATResultsInOrder | NYCSchools/Util/ParseUtil.swift:127-133 | the i-th imported SAT result comes from the i-th record |
| Importer.ImportedSATResultsAppend | NYCSchools/Util/ParseUtil.swift:127-133 | importing two lists one after the other gives the results of importing their concatenation |
| Importer.SATResultAttributes | NYCSchools/Util/ParseUtil.swift:209-217 | `populateSAT` sets exactly dbn, school name and the four count and score attributes, and no floating-point or boolean attribute |
| Importer.ImportedSATExample | NYCSchoolsTests/JSONParseTests.swift:208-218 | a record carrying the values `testSAT` asserts gives dbn "01M458", name "FORSYTH SATELLITE ACADEMY", 7 takers, and averages 414, 401 and 359 |
| SortingAndFiltering.SortOrder.SortDescriptors | NYCSchools/Util/SortingAndFiltering.swift:41-51 | two descriptors, borough then school name, both ascending exactly for `asc` |
| SortingAndFiltering.Reversed | NYCSchools/Util/SortingAndFiltering.swift:41-51 | the same keys, each direction flipped |
| SortingAndFiltering.KeyValue | NYCSchools/Util/SortingAndFiltering.swift:48-49 | the value a sort key names: the address's borough for "address.borough", nil when the school has no address, otherwise the school's text attribute |
| SortingAndFiltering.Precedes | NYCSchools/Util/SortingAndFiltering.swift:47-50 | the order a descriptor list induces: the first key on which two schools differ decides, in that key's direction |
| SortingAndFiltering.StringLessIrreflexive | NYCSchools/Util/SortingAndFiltering.swift:48-49 | no string sorts before itself |
| SortingAndFiltering.StringLessTransitive | NYCSchools/Util/SortingAndFiltering.swift:48-49 | string order is transitive |
| SortingAndFiltering.StringLessTotal | NYCSchools/Util/SortingAndFiltering.swift:48-49 | of two different strings, one sorts first |
| SortingAndFiltering.ValueLessTransitive | NYCSchools/Util/SortingAndFiltering.swift:48-49 | the order on optional strings, nil first, is transitive |
| SortingAndFiltering.ValueLessAsymmetric | NYCSchools/Util/SortingAndFiltering.swift:48-49 | the order on optional strings is asymmetric and never relates equal values |
| SortingAndFiltering.ReversedSwaps | NYCSchools/Util/SortingAndFiltering.swift:41-51 | flipping every direction swaps which of two schools comes first |
| SortingAndFiltering.DescendingReversesAscending | NYCSchools/Util/SortingAndFiltering.swift:41-51 | `desc` lists a school first exactly when `asc` lists it second |
| SortingAndFiltering.PrecedesIrreflexive | NYCSchools/Util/SortingAndFiltering.swift:47-50 | no school is listed before itself |
| SortingAndFiltering.PrecedesTransitive | NYCSchools/Util/SortingAndFiltering.swift:47-50 | the listing order is transitive |
| SortingAndFiltering.PrecedesTotal | NYCSchools/Util/SortingAndFiltering.swift:47-50 | two schools that differ on a sort key are ordered one way or the other |
| SortingAndFiltering.SortByFilterBy.Description | NYCSchools/Util/SortingAndFiltering.swift:58-73 | the text starts with "Borough: " followed by the borough, or "All" when none is set, and ends with ", order: asc" or ", order: desc" according to the order |
| SortingAndFiltering.SATClauseIff | NYCSchools/Util/SortingAndFiltering.swift:60-69 | after the borough, ", SAT >= " follows exactly when the minimum is positive, and is then followed by the minimum's decimal text |
| SortingAndFiltering.SortByFilterBy.Predicate | NYCSchools/Util/SortingAndFiltering.swift:75-92 | the predicate is nil exactly when no borough is set and the SAT minimum is not positive |
| SortingAndFiltering.SortByFilterBy.Admits | NYCSchools/Util/SortingAndFiltering.swift:75-92 | a school is fetched when there is no predicate or the predicate holds of it |
| SortingAndFiltering.Predicate.Evaluate | NYCSchools/Util/SortingAndFiltering.swift:78-88 | a borough match compares the address's borough; the SAT subquery counts results above the minimum; a compound predicate needs both parts |
| SortingAndFiltering.DefaultSettings | NYCSchools/Util/SortingAndFiltering.swift:10-21 | default settings read "Borough: All, order: asc", filter nothing, and sort both keys ascending as the default fetch request does |
| SortingAndFiltering.TailDeterminesSettings | NYCSchools/Util/SortingAndFiltering.swift:60-69 | the part of the description after the borough determines the order and the SAT minimum |
| SortingAndFiltering.DescriptionDeterminesSettings | NYCSchools/Util/SortingAndFiltering.swift:58-73 | for comma-free borough names, equal descriptions mean equal order, borough label and SAT minimum (any minimum up to 0 reads as none) |
| SortingAndFiltering.BoroughChoicesHaveNoComma | NYCSchools/Util/SortingAndFiltering.swift:36 | no offered borough name contains a comma |
| SortingAndFiltering.ChosenSettingsDescribedApart | NYCSchools/Util/SortingAndFiltering.swift:36-73 | settings whose borough is unset or an offered choice are told apart by their descriptions |
| SortingAndFiltering.AllReadsLikeNoBorough | NYCSchools/Util/SortingAndFiltering.swift:59-79 | choosing "All" is described like choosing no borough, yet it filters for a borough named "ALL" |
| SortingAndFiltering.Uppercased | NYCSchools/Util/SortingAndFiltering.swift:77 | same length, each character upper-cased |
| SortingAndFiltering.CombinedSAT | NYCSchools/Util/SortingAndFiltering.swift:82 | a SAT result's math average plus its critical-reading average |
| SortingAndFiltering.CountAbove | NYCSchools/Util/SortingAndFiltering.swift:82-83 | the subquery count is at most the number of SAT results |
| SortingAndFiltering.CountAbovePositive | NYCSchools/Util/SortingAndFiltering.swift:82-83 | the subquery count is positive exactly when some SAT result's math plus critical-reading average exceeds the minimum |
| SortingAndFiltering.AdmitsIff | NYCSchools/Util/SortingAndFiltering.swift:75-92 | a school is fetched exactly when it is in the upper-cased borough (if one is set) and has a SAT result above the minimum (if the minimum is positive) |
| SortingAndFiltering.RaisingMinimumNarrows | NYCSchools/Util/SortingAndFiltering.swift:81-83 | raising the SAT minimum never admits more schools |
| SortingAndFiltering.AtMinimumNotAdmitted | NYCSchools/Util/SortingAndFiltering.swift:81-83 | a school whose only SAT result sums to exactly the minimum is not fetched, although the description reads "SAT >= minimum" |
| SortingAndFiltering.WritingScoreIgnored | NYCSchools/Util/SortingAndFiltering.swift:82 | the writing average plays no part in the SAT filter |

## Left out

- Strings are sequences of Unicode code points, not Swift's grapheme clusters. So `count`, `isNewline` and the trimming set act on single code points.
- Conversions.Lowercased: `lowercased()` is modelled on ASCII letters only; other scripts keep their case in the model.
- SortingAndFiltering.Uppercased: `uppercased()` is modelled on ASCII letters only; other scripts keep their case in the model.
- Conversions.StringToFloatingPoint: the library parsers `Float(_:)` and `Double(_:)` and their rounding are not modelled. They are parameters that return NaN, an infinity or a finite real.
- The `Float` versus `Double` precision of stored attributes is left out. Each attribute keeps its parser's value.
- `log` and the OSLog messages on the default paths are left out, because they have no effect on results.
- `stringToTime` is not part of this model. It is unused by the importer and depends on the device locale.
- JSON decoding (`JSONSerialization` and the forced casts to an array of string dictionaries) is left out. The import loops take the already-decoded records. Malformed JSON, which crashes the app, is not modelled.
- `batchInsertHS`, `batchInsertSATResults` and the `batchLoad` path of the import loops are left out. They run a Core Data batch insert request that sets attributes only, with the same populate functions.
- Managed objects are values, not shared references. The model does not capture aliasing of the same object seen through two references. It also does not capture relationships to objects other than those `insertHS` creates.
- The importer never sets the `satResults` relationship of a school. The model keeps it as given, and the filter reads it.
- Saving the context and the persistent store are left out.
- Importer.Context: its sequences are the model's log of insertions. A managed-object context keeps its inserted objects as an unordered set, so "in record order" describes the order of the `insert` calls, not an order the app can read back.
- SortingAndFiltering.StringLess: `NSSortDescriptor` compares strings with `compare:`, which works on UTF-16 code units. The model compares code points, so it may differ from the app on text outside the Basic Multilingual Plane.
- `minCombinedSAT` is a 64-bit `Int` in the source; the model uses an unbounded integer. No code in the app sets it above its default 0, so the bound never matters.
- SortingAndFiltering.CombinedSAT: the predicate's arithmetic on 16-bit attributes is done in the store's integer type. The model adds the two scores as unbounded integers, which is the same for valid SAT averages.
- `fetchedResultsController` (section name key path and cache) and the view controllers that build the settings are left out. They are user-interface code.
