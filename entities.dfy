/**
  The three managed entities of the school store.  A managed object's
  attributes are read and written by name (key-value coding), so each entity
  carries its attribute values as maps from attribute name to value, one map
  per value kind; an attribute that was never set reads as the store's
  default (nil text, zero, false).
*/
module Entities {
  import opened Optional
  import opened Conversions

  /** A Core Data 16-bit integer attribute. */
  type Int16 = n: int | InInt16(n)

  /** Attribute values by name, per kind. */
  datatype Attributes = Attributes(
    text: map<string, Option<string>>,
    integers: map<string, Int16>,
    reals: map<string, Ieee>,
    flags: map<string, bool>)

  /** The attributes of an object that has just been inserted. */
  const NoAttributes: Attributes := Attributes(map[], map[], map[], map[])

  /** `value(forKey:)` on a text attribute. */
  function Text(attributes: Attributes, name: string): (r: Option<string>)
    ensures name !in attributes.text ==> r.None?
  {
    if name in attributes.text then attributes.text[name] else None
  }

  /** `value(forKey:)` on an integer attribute. */
  function Integer(attributes: Attributes, name: string): (r: Int16)
    ensures name !in attributes.integers ==> r == 0
  {
    if name in attributes.integers then attributes.integers[name] else 0
  }

  /** `value(forKey:)` on a floating-point attribute. */
  function Real(attributes: Attributes, name: string): (r: Ieee)
    ensures name !in attributes.reals ==> r == Finite(0.0)
  {
    if name in attributes.reals then attributes.reals[name] else Finite(0.0)
  }

  /** `value(forKey:)` on a boolean attribute. */
  function Flag(attributes: Attributes, name: string): (r: bool)
    ensures name !in attributes.flags ==> !r
  {
    name in attributes.flags && attributes.flags[name]
  }

  /** The `Address` entity. */
  datatype Address = Address(attributes: Attributes)

  /** The `SATResult` entity. */
  datatype SATResult = SATResult(attributes: Attributes)

  /** The `HighSchool` entity, with its to-one `address` and to-many
      `satResults` relationships. */
  datatype HighSchool = HighSchool(
    attributes: Attributes,
    address: Option<Address>,
    satResults: seq<SATResult>)

  /** A school as it is created, with no attribute and no relationship set. */
  const NewHighSchool: HighSchool := HighSchool(NoAttributes, None, [])
}
