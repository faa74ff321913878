/**
  The record importer: `HSDataImporter` turns parsed JSON records (string to
  string dictionaries) into new managed objects in an object context.  Each
  populate function sets a fixed list of attributes, each from its own JSON
  key through the converter for the attribute's kind; those lists are the
  schemas below.
*/
module Importer {
  import opened Optional
  import opened Conversions
  import opened Entities

  /** A parsed JSON record: field name to raw text. */
  type Record = map<string, string>

  /** The library parser for one floating-point type. */
  type FloatParser = string -> Option<Ieee>

  /** The attributes one populate function sets: attribute name to the JSON
      key it is read from, per kind. */
  datatype Schema = Schema(
    text: map<string, string>,
    integers: map<string, string>,
    reals: map<string, string>,
    flags: map<string, string>)
  {
    /** Every JSON key the schema reads. */
    function Keys(): set<string> {
      text.Values + integers.Values + reals.Values + flags.Values
    }
  }

  /** `populateAddress`. */
  const AddressSchema: Schema := Schema(
    text := map[
      "bbl" := "bbl", "bin" := "bin", "zip" := "zip", "bus" := "bus", "nta" := "nta",
      "boro" := "boro", "city" := "city", "subway" := "subway", "borough" := "borough",
      "location" := "location", "stateCode" := "state_code", "campusName" := "campus_name",
      "neighborhood" := "neighborhood", "buildingCode" := "building_code",
      "primaryAddressLine1" := "primary_address_line_1"],
    integers := map[
      "censusTract" := "census_tract", "communityBoard" := "community_board",
      "councilDistrict" := "council_district"],
    reals := map["latitude" := "latitude", "longitude" := "longitude"],
    flags := map[])

  /** `populateHighSchool`.  Both `transfer` and `specialized` are read from
      the "specialized" key. */
  const HighSchoolSchema: Schema := Schema(
    text := map[
      "dbn" := "dbn", "website" := "website", "endTime" := "end_time",
      "startTime" := "start_time", "faxNumber" := "fax_number", "grades2018" := "grades2018",
      "schoolName" := "school_name", "finalGrades" := "finalgrades",
      "schoolEmail" := "school_email", "ellPrograms" := "ell_programs",
      "phoneNumber" := "phone_number", "schoolSports" := "school_sports",
      "additionalInfo" := "addtl_info1", "geoEligibility" := "geoeligibility",
      "psalSportsBoys" := "psal_sports_boys", "psalSportsCoed" := "psal_sports_coed",
      "languageClasses" := "language_classes", "psalSportsGirls" := "psal_sports_girls",
      "overviewParagraph" := "overview_paragraph",
      "diplomaEndorsements" := "diplomaendorsements",
      "advancedPlacementCourses" := "advancedplacement_courses",
      "extracurricularActivities" := "extracurricular_activities"],
    integers := map["totalStudents" := "total_students"],
    reals := map[
      "pctStuSafe" := "pct_stu_safe", "attendanceRate" := "attendance_rate",
      "graduationRate" := "graduation_rate", "collegeCareerRate" := "college_career_rate",
      "pctStuEnoughVariety" := "pct_stu_enough_variety"],
    flags := map[
      "boys" := "boys", "pbat" := "pbat", "girls" := "girls", "ptech" := "ptech",
      "transfer" := "specialized", "specialized" := "specialized",
      "sharedSpace" := "shared_space", "international" := "international",
      "school10thSeats" := "school_10th_seats",
      "schoolAccessibilityDescription" := "school_accessibility_description"])

  /** `populateSAT`. */
  const SATResultSchema: Schema := Schema(
    text := map["dbn" := "dbn", "schoolName" := "school_name"],
    integers := map[
      "numOfSatTestTakers" := "num_of_sat_test_takers",
      "satCriticalReadingAvgScore" := "sat_critical_reading_avg_score",
      "satMathAvgScore" := "sat_math_avg_score",
      "satWritingAvgScore" := "sat_writing_avg_score"],
    reals := map[],
    flags := map[])

  /** Sets each attribute named in `keys` to the conversion of its JSON key's
      value in `data`, leaving every other attribute as it was. */
  function Assign<T>(current: map<string, T>, keys: map<string, string>,
                     convert: Option<string> -> T, data: Record): map<string, T>
  {
    current + map a | a in keys :: convert(Lookup(data, keys[a]))
  }

  /** What `Assign` sets and what it keeps. */
  lemma AssignSetsAndKeeps<T>(current: map<string, T>, keys: map<string, string>,
                              convert: Option<string> -> T, data: Record)
    ensures forall a :: a in Assign(current, keys, convert, data) <==> a in current || a in keys
    ensures forall a :: a in keys ==> Assign(current, keys, convert, data)[a] == convert(Lookup(data, keys[a]))
    ensures forall a :: a in current && a !in keys ==> Assign(current, keys, convert, data)[a] == current[a]
  {
  }

  /** Converts an integer attribute. */
  function IntegerValue(s: Option<string>): Int16 {
    StringToInt(s)
  }

  /** One populate function: every attribute of `schema` set from its key
      with the converter of its kind; attributes outside the schema keep
      their values. */
  function Populate(schema: Schema, parseReal: FloatParser, data: Record,
                    current: Attributes): Attributes
  {
    Attributes(
      Assign(current.text, schema.text, StringToString, data),
      Assign(current.integers, schema.integers, IntegerValue, data),
      Assign(current.reals, schema.reals, (s: Option<string>) => StringToFloatingPoint(parseReal, s), data),
      Assign(current.flags, schema.flags, StringToBool, data))
  }

  /** After populating, each attribute of the schema holds its key's value
      converted by the converter of its kind. */
  lemma PopulateSetsSchemaAttributes(schema: Schema, parseReal: FloatParser, data: Record,
                                     current: Attributes)
    ensures var r := Populate(schema, parseReal, data, current);
      && (forall a :: a in schema.text ==> Text(r, a) == StringToString(Lookup(data, schema.text[a])))
      && (forall a :: a in schema.integers ==> Integer(r, a) == StringToInt(Lookup(data, schema.integers[a])))
      && (forall a :: a in schema.reals ==>
            Real(r, a) == StringToFloatingPoint(parseReal, Lookup(data, schema.reals[a])))
      && (forall a :: a in schema.flags ==> Flag(r, a) == StringToBool(Lookup(data, schema.flags[a])))
  {
    AssignSetsAndKeeps(current.text, schema.text, StringToString, data);
    AssignSetsAndKeeps(current.integers, schema.integers, IntegerValue, data);
    AssignSetsAndKeeps(current.reals, schema.reals, (s: Option<string>) => StringToFloatingPoint(parseReal, s), data);
    AssignSetsAndKeeps(current.flags, schema.flags, StringToBool, data);
  }

  /** `Assign` leaves an attribute outside `keys` as it was, set or unset. */
  lemma AssignKeeps<T>(current: map<string, T>, keys: map<string, string>,
                       convert: Option<string> -> T, data: Record, a: string)
    requires a !in keys
    ensures a in Assign(current, keys, convert, data) <==> a in current
    ensures a in current ==> Assign(current, keys, convert, data)[a] == current[a]
  {
  }

  /** `Assign` sets an attribute named in `keys` from its key. */
  lemma AssignSets<T>(current: map<string, T>, keys: map<string, string>,
                      convert: Option<string> -> T, data: Record, a: string)
    requires a in keys
    ensures a in Assign(current, keys, convert, data)
    ensures Assign(current, keys, convert, data)[a] == convert(Lookup(data, keys[a]))
  {
  }

  /** One text attribute of the schema after populating. */
  lemma PopulatedText(schema: Schema, parseReal: FloatParser, data: Record, current: Attributes, a: string)
    requires a in schema.text
    ensures Text(Populate(schema, parseReal, data, current), a) == StringToString(Lookup(data, schema.text[a]))
  {
    AssignSets(current.text, schema.text, StringToString, data, a);
  }

  /** One integer attribute of the schema after populating. */
  lemma PopulatedInteger(schema: Schema, parseReal: FloatParser, data: Record, current: Attributes, a: string)
    requires a in schema.integers
    ensures Integer(Populate(schema, parseReal, data, current), a) == StringToInt(Lookup(data, schema.integers[a]))
  {
    AssignSets(current.integers, schema.integers, IntegerValue, data, a);
  }

  /** One flag of the schema after populating. */
  lemma PopulatedFlag(schema: Schema, parseReal: FloatParser, data: Record, current: Attributes, a: string)
    requires a in schema.flags
    ensures Flag(Populate(schema, parseReal, data, current), a) == StringToBool(Lookup(data, schema.flags[a]))
  {
    AssignSets(current.flags, schema.flags, StringToBool, data, a);
  }

  /** Populating touches no attribute outside the schema. */
  lemma PopulateKeepsOtherAttributes(schema: Schema, parseReal: FloatParser, data: Record,
                                     current: Attributes)
    ensures var r := Populate(schema, parseReal, data, current);
      && (forall a :: a !in schema.text ==> Text(r, a) == Text(current, a))
      && (forall a :: a !in schema.integers ==> Integer(r, a) == Integer(current, a))
      && (forall a :: a !in schema.reals ==> Real(r, a) == Real(current, a))
      && (forall a :: a !in schema.flags ==> Flag(r, a) == Flag(current, a))
  {
    var r := Populate(schema, parseReal, data, current);
    forall a | a !in schema.text
      ensures Text(r, a) == Text(current, a)
    {
      AssignKeeps(current.text, schema.text, StringToString, data, a);
    }
    forall a | a !in schema.integers
      ensures Integer(r, a) == Integer(current, a)
    {
      AssignKeeps(current.integers, schema.integers, IntegerValue, data, a);
    }
    forall a | a !in schema.reals
      ensures Real(r, a) == Real(current, a)
    {
      AssignKeeps(current.reals, schema.reals, (s: Option<string>) => StringToFloatingPoint(parseReal, s), data, a);
    }
    forall a | a !in schema.flags
      ensures Flag(r, a) == Flag(current, a)
    {
      AssignKeeps(current.flags, schema.flags, StringToBool, data, a);
    }
  }

  /** `r` is `current` populated from `data` by `schema`: each attribute the
      schema lists holds its key's value converted by its kind's converter,
      and every other attribute is as in `current`. */
  ghost predicate PopulatedFrom(schema: Schema, parseReal: FloatParser, data: Record,
                          current: Attributes, r: Attributes)
  {
    && (forall a :: a in schema.text ==> Text(r, a) == StringToString(Lookup(data, schema.text[a])))
    && (forall a :: a in schema.integers ==> Integer(r, a) == StringToInt(Lookup(data, schema.integers[a])))
    && (forall a :: a in schema.reals ==>
          Real(r, a) == StringToFloatingPoint(parseReal, Lookup(data, schema.reals[a])))
    && (forall a :: a in schema.flags ==> Flag(r, a) == StringToBool(Lookup(data, schema.flags[a])))
    && (forall a :: a !in schema.text ==> Text(r, a) == Text(current, a))
    && (forall a :: a !in schema.integers ==> Integer(r, a) == Integer(current, a))
    && (forall a :: a !in schema.reals ==> Real(r, a) == Real(current, a))
    && (forall a :: a !in schema.flags ==> Flag(r, a) == Flag(current, a))
  }

  /** `Populate` does what a populate function does. */
  lemma PopulateMeetsSchema(schema: Schema, parseReal: FloatParser, data: Record, current: Attributes)
    ensures PopulatedFrom(schema, parseReal, data, current, Populate(schema, parseReal, data, current))
  {
    PopulateSetsSchemaAttributes(schema, parseReal, data, current);
    PopulateKeepsOtherAttributes(schema, parseReal, data, current);
  }

  /** The managed-object context: the objects inserted into it, per entity,
      in insertion order. */
  class Context {
    var highSchools: seq<HighSchool>
    var addresses: seq<Address>
    var satResults: seq<SATResult>

    constructor ()
      ensures highSchools == [] && addresses == [] && satResults == []
    {
      highSchools, addresses, satResults := [], [], [];
    }
  }

  /** `HSDataImporter`: inserts the objects for parsed records into `moc`.
      The library's floating-point parsers are passed in, since their
      rounding is outside this model. */
  class HSDataImporter {
    const moc: Context
    const includeChildEntities: bool
    const parseFloat: FloatParser
    const parseDouble: FloatParser
    /** The attribute lists of the three populate functions. */
    const addressSchema: Schema
    const highSchoolSchema: Schema
    const satResultSchema: Schema

    /** The populate functions use the attribute lists above. */
    predicate Valid() {
      && addressSchema == AddressSchema
      && highSchoolSchema == HighSchoolSchema
      && satResultSchema == SATResultSchema
    }

    constructor (moc: Context, parseFloat: FloatParser, parseDouble: FloatParser,
                 includeChildEntities: bool := false)
      ensures Valid()
      ensures this.moc == moc && this.includeChildEntities == includeChildEntities
      ensures this.parseFloat == parseFloat && this.parseDouble == parseDouble
    {
      this.moc := moc;
      this.includeChildEntities := includeChildEntities;
      this.parseFloat := parseFloat;
      this.parseDouble := parseDouble;
      this.addressSchema := AddressSchema;
      this.highSchoolSchema := HighSchoolSchema;
      this.satResultSchema := SATResultSchema;
    }

    /** `populateAddress`; `Double` attributes use the double parser. */
    function PopulateAddress(schoolData: Record, address: Address): Address {
      address.(attributes := Populate(addressSchema, parseDouble, schoolData, address.attributes))
    }

    /** `populateHighSchool`; `Float` attributes use the float parser and
        the relationships are left alone. */
    function PopulateHighSchool(schoolData: Record, school: HighSchool): (r: HighSchool)
      ensures r.address == school.address && r.satResults == school.satResults
    {
      school.(attributes := Populate(highSchoolSchema, parseFloat, schoolData, school.attributes))
    }

    /** `populateSAT`. */
    function PopulateSAT(satData: Record, sat: SATResult): SATResult {
      sat.(attributes := Populate(satResultSchema, parseFloat, satData, sat.attributes))
    }

    /** The address `insertAddress` creates for a record. */
    function ImportedAddress(schoolData: Record): Address {
      PopulateAddress(schoolData, Address(NoAttributes))
    }

    /** The SAT result `insertSATResult` creates for a record. */
    function ImportedSATResult(satData: Record): SATResult {
      PopulateSAT(satData, SATResult(NoAttributes))
    }

    /** `populateAddress` sets each attribute of its table from the record
        and leaves every other attribute of the address as it was. */
    lemma PopulateAddressFields(schoolData: Record, address: Address)
      ensures PopulatedFrom(addressSchema, parseDouble, schoolData, address.attributes,
                            PopulateAddress(schoolData, address).attributes)
    {
      PopulateMeetsSchema(addressSchema, parseDouble, schoolData, address.attributes);
    }

    /** `populateHighSchool` sets each attribute of its table from the record
        and leaves every other attribute of the school as it was. */
    lemma PopulateHighSchoolFields(schoolData: Record, school: HighSchool)
      ensures PopulatedFrom(highSchoolSchema, parseFloat, schoolData, school.attributes,
                            PopulateHighSchool(schoolData, school).attributes)
    {
      PopulateMeetsSchema(highSchoolSchema, parseFloat, schoolData, school.attributes);
    }

    /** `populateSAT` sets each attribute of its table from the record and
        leaves every other attribute of the result as it was. */
    lemma PopulateSATFields(satData: Record, sat: SATResult)
      ensures PopulatedFrom(satResultSchema, parseFloat, satData, sat.attributes,
                            PopulateSAT(satData, sat).attributes)
    {
      PopulateMeetsSchema(satResultSchema, parseFloat, satData, sat.attributes);
    }

    /** A new address for a record: its table's attributes from the record,
        every other attribute unset. */
    lemma ImportedAddressFields(schoolData: Record)
      ensures PopulatedFrom(addressSchema, parseDouble, schoolData, NoAttributes,
                            ImportedAddress(schoolData).attributes)
    {
      PopulateAddressFields(schoolData, Address(NoAttributes));
    }

    /** A new SAT result for a record: its table's attributes from the
        record, every other attribute unset. */
    lemma ImportedSATResultFields(satData: Record)
      ensures PopulatedFrom(satResultSchema, parseFloat, satData, NoAttributes,
                            ImportedSATResult(satData).attributes)
    {
      PopulateSATFields(satData, SATResult(NoAttributes));
    }

    /** The school `insertHS` creates for a record: a new object populated
        from it, with an address populated from the same record exactly when
        child entities are included, and no SAT results. */
    function ImportedSchool(schoolData: Record): (r: HighSchool)
      ensures r.address.Some? <==> includeChildEntities
      ensures r.address.Some? ==> r.address.value == ImportedAddress(schoolData)
      ensures r.satResults == []
    {
      var school := PopulateHighSchool(schoolData, NewHighSchool);
      if includeChildEntities then school.(address := Some(ImportedAddress(schoolData)))
      else school
    }

    /** The schools `importSchools` creates for `records`, in order. */
    function ImportedSchools(records: seq<Record>): (r: seq<HighSchool>)
      ensures |r| == |records|
    {
      if records == [] then []
      else ImportedSchools(records[..|records| - 1]) + [ImportedSchool(records[|records| - 1])]
    }

    /** The addresses `importSchools` creates for `records`, in order. */
    function ImportedAddresses(records: seq<Record>): (r: seq<Address>)
      ensures |r| == |records|
    {
      if records == [] then []
      else ImportedAddresses(records[..|records| - 1]) + [ImportedAddress(records[|records| - 1])]
    }

    /** The SAT results `importSATResults` creates for `records`, in order. */
    function ImportedSATResults(records: seq<Record>): (r: seq<SATResult>)
      ensures |r| == |records|
    {
      if records == [] then []
      else ImportedSATResults(records[..|records| - 1]) + [ImportedSATResult(records[|records| - 1])]
    }

    /** The addresses `importSchools` creates for `records`: one per record
        when child entities are included, none otherwise. */
    function ChildAddresses(records: seq<Record>): (r: seq<Address>)
      ensures |r| == if includeChildEntities then |records| else 0
    {
      if includeChildEntities then ImportedAddresses(records) else []
    }

    /** `insertAddress`: a new address populated from `schoolData`,
        inserted into `ctx`, or into `moc` when no context is given. */
    method InsertAddress(schoolData: Record, ctx: Context? := null) returns (address: Address)
      modifies moc, ctx
      ensures address == ImportedAddress(schoolData)
      ensures ctx == null ==> moc.addresses == old(moc.addresses) + [address]
      ensures ctx != null ==> ctx.addresses == old(ctx.addresses) + [address]
      ensures ctx != null && ctx != moc ==> unchanged(moc)
      ensures moc.highSchools == old(moc.highSchools) && moc.satResults == old(moc.satResults)
      ensures ctx != null ==> ctx.highSchools == old(ctx.highSchools) && ctx.satResults == old(ctx.satResults)
    {
      var target := if ctx == null then moc else ctx;
      address := PopulateAddress(schoolData, Address(NoAttributes));
      target.addresses := target.addresses + [address];
    }

    /** `insertHS`: one new school for the record, plus its address when
        child entities are included. */
    method InsertHS(schoolData: Record) returns (school: HighSchool)
      modifies moc
      ensures school == ImportedSchool(schoolData)
      ensures moc.highSchools == old(moc.highSchools) + [school]
      ensures moc.addresses == old(moc.addresses) + ChildAddresses([schoolData])
      ensures moc.satResults == old(moc.satResults)
    {
      school := PopulateHighSchool(schoolData, NewHighSchool);
      if includeChildEntities {
        var address := InsertAddress(schoolData);
        school := school.(address := Some(address));
      }
      moc.highSchools := moc.highSchools + [school];
    }

    /** `insertSATResult`: one new SAT result for the record. */
    method InsertSATResult(satData: Record) returns (sat: SATResult)
      modifies moc
      ensures sat == ImportedSATResult(satData)
      ensures moc.satResults == old(moc.satResults) + [sat]
      ensures moc.highSchools == old(moc.highSchools) && moc.addresses == old(moc.addresses)
    {
      sat := PopulateSAT(satData, SATResult(NoAttributes));
      moc.satResults := moc.satResults + [sat];
    }

    /** `importSchools` on its per-record path: one new school per record,
        in record order, and one address per record when child entities are
        included. */
    method ImportSchools(schools: seq<Record>)
      modifies moc
      ensures moc.highSchools == old(moc.highSchools) + ImportedSchools(schools)
      ensures moc.addresses == old(moc.addresses) + ChildAddresses(schools)
      ensures moc.satResults == old(moc.satResults)
    {
      var k := 0;
      while k < |schools|
        invariant 0 <= k <= |schools|
        invariant moc.highSchools == old(moc.highSchools) + ImportedSchools(schools[..k])
        invariant moc.addresses == old(moc.addresses) + ChildAddresses(schools[..k])
        invariant moc.satResults == old(moc.satResults)
      {
        assert schools[..k + 1][..k] == schools[..k];
        var school := InsertHS(schools[k]);
        k := k + 1;
      }
      assert schools[..k] == schools;
    }

    /** `importSATResults` on its per-record path: one new SAT result per
        record, in record order. */
    method ImportSATResults(data: seq<Record>)
      modifies moc
      ensures moc.satResults == old(moc.satResults) + ImportedSATResults(data)
      ensures moc.highSchools == old(moc.highSchools) && moc.addresses == old(moc.addresses)
    {
      var k := 0;
      while k < |data|
        invariant 0 <= k <= |data|
        invariant moc.satResults == old(moc.satResults) + ImportedSATResults(data[..k])
        invariant moc.highSchools == old(moc.highSchools) && moc.addresses == old(moc.addresses)
      {
        assert data[..k + 1][..k] == data[..k];
        var sat := InsertSATResult(data[k]);
        k := k + 1;
      }
      assert data[..k] == data;
    }
  }

  // ---------------------------------------------------------------------------
  // Properties of populating

  /** Text as stored by the importer: nil, or free of newlines and of
      surrounding whitespace. */
  predicate CleanText(t: Option<string>) {
    t.Some? ==> NoNewline(t.value) && Trimmed(t.value)
  }

  /** Every text attribute a populate function sets is nil or clean text. */
  lemma PopulatedTextIsClean(schema: Schema, parseReal: FloatParser, data: Record,
                             current: Attributes)
    ensures forall a :: a in schema.text ==> CleanText(Text(Populate(schema, parseReal, data, current), a))
  {
    PopulateSetsSchemaAttributes(schema, parseReal, data, current);
  }

  /** A record that has none of the keys gives every attribute of the schema
      its empty value: nil text, 0, 0.0 and false. */
  lemma PopulateFromEmptyRecord(schema: Schema, parseReal: FloatParser, current: Attributes)
    ensures var r := Populate(schema, parseReal, map[], current);
      && (forall a :: a in schema.text ==> Text(r, a).None?)
      && (forall a :: a in schema.integers ==> Integer(r, a) == 0)
      && (forall a :: a in schema.reals ==> Real(r, a) == Finite(0.0))
      && (forall a :: a in schema.flags ==> !Flag(r, a))
  {
    PopulateSetsSchemaAttributes(schema, parseReal, map[], current);
  }

  /** `Assign` twice with the same record is `Assign` once. */
  lemma AssignIdempotent<T>(current: map<string, T>, keys: map<string, string>,
                            convert: Option<string> -> T, data: Record)
    ensures Assign(Assign(current, keys, convert, data), keys, convert, data)
         == Assign(current, keys, convert, data)
  {
  }

  /** Populating again from the same record changes nothing. */
  lemma PopulateIdempotent(schema: Schema, parseReal: FloatParser, data: Record,
                           current: Attributes)
    ensures Populate(schema, parseReal, data, Populate(schema, parseReal, data, current))
         == Populate(schema, parseReal, data, current)
  {
    AssignIdempotent(current.text, schema.text, StringToString, data);
    AssignIdempotent(current.integers, schema.integers, IntegerValue, data);
    AssignIdempotent(current.reals, schema.reals, (s: Option<string>) => StringToFloatingPoint(parseReal, s), data);
    AssignIdempotent(current.flags, schema.flags, StringToBool, data);
  }

  /** `Assign` reads only the keys it is given. */
  lemma AssignReadsOnlyItsKeys<T>(current: map<string, T>, keys: map<string, string>,
                                  convert: Option<string> -> T, d1: Record, d2: Record)
    requires forall k :: k in keys.Values ==> Lookup(d1, k) == Lookup(d2, k)
    ensures Assign(current, keys, convert, d1) == Assign(current, keys, convert, d2)
  {
    forall a | a in keys
      ensures Lookup(d1, keys[a]) == Lookup(d2, keys[a])
    {
      assert keys[a] in keys.Values;
    }
  }

  /** A populate function reads the JSON keys of its schema and no others:
      records that agree on those keys give the same attributes. */
  lemma PopulateReadsOnlySchemaKeys(schema: Schema, parseReal: FloatParser, d1: Record, d2: Record,
                                    current: Attributes)
    requires forall k :: k in schema.Keys() ==> Lookup(d1, k) == Lookup(d2, k)
    ensures Populate(schema, parseReal, d1, current) == Populate(schema, parseReal, d2, current)
  {
    AssignReadsOnlyItsKeys(current.text, schema.text, StringToString, d1, d2);
    AssignReadsOnlyItsKeys(current.integers, schema.integers, IntegerValue, d1, d2);
    AssignReadsOnlyItsKeys(current.reals, schema.reals, (s: Option<string>) => StringToFloatingPoint(parseReal, s), d1, d2);
    AssignReadsOnlyItsKeys(current.flags, schema.flags, StringToBool, d1, d2);
  }

  /** `transfer` is read from the "specialized" key, so a populated school's
      `transfer` and `specialized` flags are always equal. */
  lemma TransferMirrorsSpecialized(importer: HSDataImporter, schoolData: Record, school: HighSchool)
    requires importer.Valid()
    ensures var r := importer.PopulateHighSchool(schoolData, school).attributes;
      && Flag(r, "transfer") == StringToBool(Lookup(schoolData, "specialized"))
      && Flag(r, "specialized") == Flag(r, "transfer")
  {
    TransferAndSpecializedKeys();
    PopulatedFlag(importer.highSchoolSchema, importer.parseFloat, schoolData, school.attributes, "transfer");
    PopulatedFlag(importer.highSchoolSchema, importer.parseFloat, schoolData, school.attributes, "specialized");
  }

  /** The two flags' entries in the `populateHighSchool` schema. */
  lemma TransferAndSpecializedKeys()
    ensures "transfer" in HighSchoolSchema.flags && HighSchoolSchema.flags["transfer"] == "specialized"
    ensures "specialized" in HighSchoolSchema.flags && HighSchoolSchema.flags["specialized"] == "specialized"
  {
  }

  // ---------------------------------------------------------------------------
  // Properties of importing

  /** The i-th school imported is the one for the i-th record. */
  lemma {:induction false} ImportedSchoolsInOrder(importer: HSDataImporter, records: seq<Record>, i: int)
    requires 0 <= i < |records|
    ensures importer.ImportedSchools(records)[i] == importer.ImportedSchool(records[i])
    decreases |records|
  {
    if i < |records| - 1 {
      var front := records[..|records| - 1];
      ImportedSchoolsInOrder(importer, front, i);
    }
  }

  /** The i-th address imported is the one for the i-th record. */
  lemma {:induction false} ImportedAddressesInOrder(importer: HSDataImporter, records: seq<Record>, i: int)
    requires 0 <= i < |records|
    ensures importer.ImportedAddresses(records)[i] == importer.ImportedAddress(records[i])
    decreases |records|
  {
    if i < |records| - 1 {
      var front := records[..|records| - 1];
      ImportedAddressesInOrder(importer, front, i);
    }
  }

  /** The i-th SAT result imported is the one for the i-th record. */
  lemma {:induction false} ImportedSATResultsInOrder(importer: HSDataImporter, records: seq<Record>, i: int)
    requires 0 <= i < |records|
    ensures importer.ImportedSATResults(records)[i] == importer.ImportedSATResult(records[i])
    decreases |records|
  {
    if i < |records| - 1 {
      var front := records[..|records| - 1];
      ImportedSATResultsInOrder(importer, front, i);
    }
  }

  /** Importing `a + b` imports `a`, then `b`. */
  lemma {:induction false} ImportedSATResultsAppend(importer: HSDataImporter, a: seq<Record>, b: seq<Record>)
    ensures importer.ImportedSATResults(a + b)
         == importer.ImportedSATResults(a) + importer.ImportedSATResults(b)
    decreases |b|
  {
    if b == [] {
      assert a + b == a;
    } else {
      var b' := b[..|b| - 1];
      assert (a + b)[..|a + b| - 1] == a + b';
      ImportedSATResultsAppend(importer, a, b');
    }
  }

  /** `populateSAT` sets exactly the school's dbn and name and the four
      count and score attributes; with PopulateSetsSchemaAttributes and
      PopulateKeepsOtherAttributes, every other attribute is untouched. */
  lemma SATResultAttributes()
    ensures SATResultSchema.text.Keys == {"dbn", "schoolName"}
    ensures SATResultSchema.integers.Keys
         == {"numOfSatTestTakers", "satCriticalReadingAvgScore", "satMathAvgScore", "satWritingAvgScore"}
    ensures SATResultSchema.reals == map[] && SATResultSchema.flags == map[]
  {
  }

  /** A record carrying the values `testSAT` asserts imports to exactly
      those values. */
  lemma ImportedSATExample(importer: HSDataImporter)
    requires importer.Valid()
    ensures var r := importer.ImportedSATResult(SATExampleRecord).attributes;
      && Text(r, "dbn") == Some("01M458")
      && Text(r, "schoolName") == Some("FORSYTH SATELLITE ACADEMY")
      && Integer(r, "numOfSatTestTakers") == 7
      && Integer(r, "satCriticalReadingAvgScore") == 414
      && Integer(r, "satMathAvgScore") == 401
      && Integer(r, "satWritingAvgScore") == 359
  {
    var d := SATExampleRecord;
    var schema := importer.satResultSchema;
    SATExampleKeys();
    PopulatedText(schema, importer.parseFloat, d, NoAttributes, "dbn");
    PopulatedText(schema, importer.parseFloat, d, NoAttributes, "schoolName");
    PopulatedInteger(schema, importer.parseFloat, d, NoAttributes, "numOfSatTestTakers");
    PopulatedInteger(schema, importer.parseFloat, d, NoAttributes, "satCriticalReadingAvgScore");
    PopulatedInteger(schema, importer.parseFloat, d, NoAttributes, "satMathAvgScore");
    PopulatedInteger(schema, importer.parseFloat, d, NoAttributes, "satWritingAvgScore");
    SATExampleText();
    SATExampleCounts();
  }

  /** Where each attribute of the example comes from. */
  lemma SATExampleKeys()
    ensures "dbn" in SATResultSchema.text && Lookup(SATExampleRecord, SATResultSchema.text["dbn"]) == Some("01M458")
    ensures "schoolName" in SATResultSchema.text
         && Lookup(SATExampleRecord, SATResultSchema.text["schoolName"]) == Some("FORSYTH SATELLITE ACADEMY")
    ensures "numOfSatTestTakers" in SATResultSchema.integers
         && Lookup(SATExampleRecord, SATResultSchema.integers["numOfSatTestTakers"]) == Some("7")
    ensures "satCriticalReadingAvgScore" in SATResultSchema.integers
         && Lookup(SATExampleRecord, SATResultSchema.integers["satCriticalReadingAvgScore"]) == Some("414")
    ensures "satMathAvgScore" in SATResultSchema.integers
         && Lookup(SATExampleRecord, SATResultSchema.integers["satMathAvgScore"]) == Some("401")
    ensures "satWritingAvgScore" in SATResultSchema.integers
         && Lookup(SATExampleRecord, SATResultSchema.integers["satWritingAvgScore"]) == Some("359")
  {
  }

  /** The example's text values are already clean. */
  lemma SATExampleText()
    ensures StringToString(Some("01M458")) == Some("01M458")
    ensures StringToString(Some("FORSYTH SATELLITE ACADEMY")) == Some("FORSYTH SATELLITE ACADEMY")
  {
    StringToStringKeepsClean("01M458");
    SATExampleNameIsClean();
    StringToStringKeepsClean("FORSYTH SATELLITE ACADEMY");
  }

  /** The example's school name has no newline and no surrounding space. */
  lemma SATExampleNameIsClean()
    ensures Trimmed("FORSYTH SATELLITE ACADEMY") && NoNewline("FORSYTH SATELLITE ACADEMY")
  {
    var a, b, c := "FORSYTH", " SATELLITE", " ACADEMY";
    assert a + b + c == "FORSYTH SATELLITE ACADEMY";
    NoNewlineAppend(a, b);
    NoNewlineAppend(a + b, c);
  }

  /** Text without newlines, joined, has none. */

  /** The example's counts through `stringToInt`. */
  lemma SATExampleCounts()
    ensures StringToInt(Some("7")) == 7
    ensures StringToInt(Some("414")) == 414
    ensures StringToInt(Some("401")) == 401
    ensures StringToInt(Some("359")) == 359
  {
    assert Decimal(7) == "7";
    StringToIntRoundTrip(7);
    assert Decimal(414) == "414";
    StringToIntRoundTrip(414);
    assert Decimal(401) == "401";
    StringToIntRoundTrip(401);
    assert Decimal(359) == "359";
    StringToIntRoundTrip(359);
  }

  /** A record carrying the values `testSAT` asserts, under the keys
      `populateSAT` reads. */
  const SATExampleRecord: Record := map[
    "dbn" := "01M458",
    "school_name" := "FORSYTH SATELLITE ACADEMY",
    "num_of_sat_test_takers" := "7",
    "sat_critical_reading_avg_score" := "414",
    "sat_math_avg_score" := "401",
    "sat_writing_avg_score" := "359"]
}
