/**
  The directory's sort and filter settings (`SortByFilterBy`): the sort
  descriptors of each sort order, the one-line description shown above the
  list, and the fetch predicate, with the meaning of descriptors and
  predicates over `HighSchool` objects.
*/
module SortingAndFiltering {
  import opened Optional
  import opened Conversions
  import opened Entities

  /** The borough choices offered by the filter screen. */
  const Boroughs: seq<string> := ["All", "Bronx", "Brooklyn", "Manhattan", "Queens", "Staten Is"]

  // ---------------------------------------------------------------------------
  // Sort order

  /** `NSSortDescriptor(key:ascending:)`. */
  datatype SortDescriptor = SortDescriptor(key: string, ascending: bool)

  /** `SortByFilterBy.SortOrder`. */
  datatype SortOrder = Asc | Desc
  {
    /** By borough, then by school name, both in this order's direction. */
    function SortDescriptors(): (r: seq<SortDescriptor>)
      ensures |r| == 2 && r[0].key == "address.borough" && r[1].key == "schoolName"
      ensures forall i :: 0 <= i < |r| ==> (r[i].ascending <==> this == Asc)
    {
      var isAsc := !this.Desc?;
      [SortDescriptor("address.borough", isAsc), SortDescriptor("schoolName", isAsc)]
    }
  }

  /** The value a key path names on a school; a missing address gives nil. */
  function KeyValue(school: HighSchool, key: string): Option<string> {
    if key == "address.borough" then
      (if school.address.Some? then Text(school.address.value.attributes, "borough") else None)
    else Text(school.attributes, key)
  }

  /** String comparison, character by character; a proper prefix comes
      first. */
  predicate StringLess(a: string, b: string) {
    if a == [] then b != []
    else b != [] && (a[0] < b[0] || (a[0] == b[0] && StringLess(a[1..], b[1..])))
  }

  /** Ascending order of optional strings: nil before every string. */
  predicate ValueLess(x: Option<string>, y: Option<string>) {
    y.Some? && (x.None? || StringLess(x.value, y.value))
  }

  /** Whether `a` is listed before `b` under the descriptors: the first key
      on which they differ decides, in that descriptor's direction. */
  predicate Precedes(descriptors: seq<SortDescriptor>, a: HighSchool, b: HighSchool) {
    if descriptors == [] then false
    else
      var d := descriptors[0];
      var x, y := KeyValue(a, d.key), KeyValue(b, d.key);
      if x == y then Precedes(descriptors[1..], a, b)
      else if d.ascending then ValueLess(x, y)
      else ValueLess(y, x)
  }

  /** The same keys with every direction reversed. */
  function Reversed(descriptors: seq<SortDescriptor>): (r: seq<SortDescriptor>)
    ensures |r| == |descriptors|
    ensures forall i :: 0 <= i < |r| ==>
              r[i].key == descriptors[i].key && r[i].ascending == !descriptors[i].ascending
  {
    if descriptors == [] then []
    else [SortDescriptor(descriptors[0].key, !descriptors[0].ascending)] + Reversed(descriptors[1..])
  }

  lemma {:induction false} StringLessIrreflexive(a: string)
    ensures !StringLess(a, a)
  {
    if a != [] {
      StringLessIrreflexive(a[1..]);
    }
  }

  lemma {:induction false} StringLessTransitive(a: string, b: string, c: string)
    requires StringLess(a, b) && StringLess(b, c)
    ensures StringLess(a, c)
  {
    if a != [] && a[0] == b[0] && b[0] == c[0] {
      StringLessTransitive(a[1..], b[1..], c[1..]);
    }
  }

  lemma {:induction false} StringLessTotal(a: string, b: string)
    requires a != b
    ensures StringLess(a, b) || StringLess(b, a)
  {
    if a != [] && b != [] && a[0] == b[0] {
      assert a == [a[0]] + a[1..] && b == [b[0]] + b[1..];
      StringLessTotal(a[1..], b[1..]);
    }
  }

  /** Reversing every direction reverses the order. */
  lemma {:induction false} ReversedSwaps(descriptors: seq<SortDescriptor>, a: HighSchool, b: HighSchool)
    ensures Precedes(Reversed(descriptors), a, b) <==> Precedes(descriptors, b, a)
  {
    if descriptors != [] {
      assert Reversed(descriptors)[1..] == Reversed(descriptors[1..]);
      ReversedSwaps(descriptors[1..], a, b);
    }
  }

  /** Descending order lists the schools in exactly the reverse of
      ascending order. */
  lemma DescendingReversesAscending(a: HighSchool, b: HighSchool)
    ensures Precedes(Desc.SortDescriptors(), a, b) <==> Precedes(Asc.SortDescriptors(), b, a)
  {
    assert Desc.SortDescriptors() == Reversed(Asc.SortDescriptors());
    ReversedSwaps(Asc.SortDescriptors(), a, b);
  }

  /** No school precedes itself. */
  lemma {:induction false} PrecedesIrreflexive(descriptors: seq<SortDescriptor>, a: HighSchool)
    ensures !Precedes(descriptors, a, a)
  {
    if descriptors != [] {
      PrecedesIrreflexive(descriptors[1..], a);
    }
  }

  lemma ValueLessTransitive(x: Option<string>, y: Option<string>, z: Option<string>)
    requires ValueLess(x, y) && ValueLess(y, z)
    ensures ValueLess(x, z)
  {
    if x.Some? {
      StringLessTransitive(x.value, y.value, z.value);
    }
  }

  lemma ValueLessAsymmetric(x: Option<string>, y: Option<string>)
    requires ValueLess(x, y)
    ensures !ValueLess(y, x) && x != y
  {
    if x.Some? {
      StringLessIrreflexive(x.value);
      if StringLess(y.value, x.value) {
        StringLessTransitive(x.value, y.value, x.value);
      }
    }
  }

  /** The order is transitive. */
  lemma {:induction false} PrecedesTransitive(descriptors: seq<SortDescriptor>, a: HighSchool,
                                              b: HighSchool, c: HighSchool)
    requires Precedes(descriptors, a, b) && Precedes(descriptors, b, c)
    ensures Precedes(descriptors, a, c)
  {
    var d := descriptors[0];
    var x, y, z := KeyValue(a, d.key), KeyValue(b, d.key), KeyValue(c, d.key);
    if x == y && y == z {
      PrecedesTransitive(descriptors[1..], a, b, c);
    } else if d.ascending {
      if x != y && y != z {
        ValueLessTransitive(x, y, z);
        ValueLessAsymmetric(x, z);
      } else if x != y {
        ValueLessAsymmetric(x, z);
      } else {
        ValueLessAsymmetric(x, z);
      }
    } else {
      if x != y && y != z {
        ValueLessTransitive(z, y, x);
        ValueLessAsymmetric(z, x);
      } else if x != y {
        ValueLessAsymmetric(z, x);
      } else {
        ValueLessAsymmetric(z, x);
      }
    }
  }

  /** Schools that differ in borough or in name are ordered one way or the
      other; the first descriptor, the borough, decides whenever boroughs
      differ. */
  lemma {:induction false} PrecedesTotal(descriptors: seq<SortDescriptor>, a: HighSchool, b: HighSchool)
    requires exists i :: 0 <= i < |descriptors| && KeyValue(a, descriptors[i].key) != KeyValue(b, descriptors[i].key)
    ensures Precedes(descriptors, a, b) || Precedes(descriptors, b, a)
  {
    var d := descriptors[0];
    var x, y := KeyValue(a, d.key), KeyValue(b, d.key);
    if x == y {
      var i :| 0 <= i < |descriptors| && KeyValue(a, descriptors[i].key) != KeyValue(b, descriptors[i].key);
      assert descriptors[1..][i - 1] == descriptors[i];
      PrecedesTotal(descriptors[1..], a, b);
    } else if x.Some? && y.Some? {
      StringLessTotal(x.value, y.value);
    }
  }

  // ---------------------------------------------------------------------------
  // Settings and description

  /** `SortByFilterBy` with its default values. */
  datatype SortByFilterBy = SortByFilterBy(
    sortOrder: SortOrder := Asc,
    borough: Option<string> := None,
    minCombinedSAT: int := 0)
  {
    /** The borough as the description names it. */
    function BoroughLabel(): string {
      if borough.Some? then borough.value else "All"
    }

    /** `description`: the borough, the SAT minimum when there is one, and
        the order. */
    function Description(): (r: string)
      ensures |r| >= 21 + |BoroughLabel()|
      ensures r[..9 + |BoroughLabel()|] == "Borough: " + BoroughLabel()
      ensures sortOrder == Asc ==> r[|r| - 12..] == ", order: asc"
      ensures sortOrder == Desc ==> r[|r| - 13..] == ", order: desc"
    {
      var sat := if minCombinedSAT > 0 then ", SAT >= " + Decimal(minCombinedSAT) else "";
      var order := if sortOrder.Asc? then "asc" else "desc";
      "Borough: " + BoroughLabel() + sat + ", order: " + order
    }

    /** `predicate`: nil when nothing is filtered. */
    function Predicate(): (r: Option<Predicate>)
      ensures r.None? <==> borough.None? && minCombinedSAT <= 0
    {
      var byBorough := if borough.Some? then Some(BoroughEquals(Uppercased(borough.value))) else None;
      if minCombinedSAT > 0 then
        var bySAT := SATAbove(minCombinedSAT);
        if byBorough.Some? then Some(And(bySAT, byBorough.value)) else Some(bySAT)
      else byBorough
    }

    /** Whether a fetch with these settings lists `school`. */
    predicate Admits(school: HighSchool) {
      var p := Predicate();
      p.None? || p.value.Evaluate(school)
    }
  }

  /** The settings before the user picks any. */
  lemma DefaultSettings()
    ensures SortByFilterBy().Description() == "Borough: All, order: asc"
    ensures SortByFilterBy().Predicate().None?
    ensures SortByFilterBy().sortOrder.SortDescriptors()
         == [SortDescriptor("address.borough", true), SortDescriptor("schoolName", true)]
  {
  }

  predicate NoComma(s: string) {
    forall i :: 0 <= i < |s| ==> s[i] != ','
  }

  /** Splitting at the first comma. */
  lemma SplitAtComma(x1: string, y1: string, x2: string, y2: string)
    requires NoComma(x1) && NoComma(x2)
    requires y1 != [] && y1[0] == ',' && y2 != [] && y2[0] == ','
    requires x1 + y1 == x2 + y2
    ensures x1 == x2 && y1 == y2
  {
    assert x1 == (x1 + y1)[..|x1|];
    assert x2 == (x2 + y2)[..|x2|];
    assert y1 == (x1 + y1)[|x1|..];
    assert y2 == (x2 + y2)[|x2|..];
  }

  /** The tail of a description after the borough: the SAT part, then the
      order. */
  function DescriptionTail(s: SortByFilterBy): string {
    (if s.minCombinedSAT > 0 then ", SAT >= " + Decimal(s.minCombinedSAT) else "")
      + ", order: " + (if s.sortOrder.Asc? then "asc" else "desc")
  }

  lemma DescriptionSplits(s: SortByFilterBy)
    ensures s.Description() == "Borough: " + (s.BoroughLabel() + DescriptionTail(s))
    ensures DescriptionTail(s) != [] && DescriptionTail(s)[0] == ','
  {
  }

  /** The order word at the end of a tail, "asc" or "desc", is told apart by
      the fourth character from the end: the space before "asc" or the 'd'
      of "desc". */
  lemma OrderWordDecides(m1: string, o1: string, m2: string, o2: string)
    requires o1 == "asc" || o1 == "desc"
    requires o2 == "asc" || o2 == "desc"
    requires m1 + (", order: " + o1) == m2 + (", order: " + o2)
    ensures o1 == o2 && m1 == m2
  {
    var t := m1 + (", order: " + o1);
    assert t[|t| - 4] == if o1 == "asc" then ' ' else 'd';
    assert t[|t| - 4] == if o2 == "asc" then ' ' else 'd';
    assert m1 == t[..|m1|];
  }

  /** The SAT clause appears exactly when the minimum is positive, and then
      names the minimum. */
  lemma SATClauseIff(s: SortByFilterBy)
    ensures |DescriptionTail(s)| >= 12
    ensures DescriptionTail(s)[..9] == ", SAT >= " <==> s.minCombinedSAT > 0
    ensures s.minCombinedSAT > 0 ==>
              |DescriptionTail(s)| >= 9 + |Decimal(s.minCombinedSAT)|
              && DescriptionTail(s)[9..9 + |Decimal(s.minCombinedSAT)|] == Decimal(s.minCombinedSAT)
  {
    var order := ", order: " + (if s.sortOrder.Asc? then "asc" else "desc");
    if s.minCombinedSAT > 0 {
      var d := Decimal(s.minCombinedSAT);
      assert DescriptionTail(s) == ", SAT >= " + (d + order);
    } else {
      assert DescriptionTail(s) == order;
      assert order[2] != ", SAT >= "[2];
    }
  }

  /** Equal tails come from the same order and the same SAT minimum. */
  lemma TailDeterminesSettings(s1: SortByFilterBy, s2: SortByFilterBy)
    requires DescriptionTail(s1) == DescriptionTail(s2)
    ensures s1.sortOrder == s2.sortOrder
    ensures s1.minCombinedSAT > 0 <==> s2.minCombinedSAT > 0
    ensures s1.minCombinedSAT > 0 ==> s1.minCombinedSAT == s2.minCombinedSAT
  {
    var o1 := if s1.sortOrder.Asc? then "asc" else "desc";
    var o2 := if s2.sortOrder.Asc? then "asc" else "desc";
    var m1 := if s1.minCombinedSAT > 0 then ", SAT >= " + Decimal(s1.minCombinedSAT) else "";
    var m2 := if s2.minCombinedSAT > 0 then ", SAT >= " + Decimal(s2.minCombinedSAT) else "";
    assert DescriptionTail(s1) == m1 + (", order: " + o1);
    assert DescriptionTail(s2) == m2 + (", order: " + o2);
    OrderWordDecides(m1, o1, m2, o2);
    if s1.minCombinedSAT > 0 && s2.minCombinedSAT > 0 {
      assert Decimal(s1.minCombinedSAT) == m1[9..];
      assert Decimal(s2.minCombinedSAT) == m2[9..];
      DecimalInjective(s1.minCombinedSAT, s2.minCombinedSAT);
    }
  }

  /** The description identifies the settings: for borough names without
      commas, equal descriptions mean the same order, the same borough label
      and the same SAT minimum (every minimum up to 0 reads as none). */
  lemma DescriptionDeterminesSettings(s1: SortByFilterBy, s2: SortByFilterBy)
    requires NoComma(s1.BoroughLabel()) && NoComma(s2.BoroughLabel())
    requires s1.Description() == s2.Description()
    ensures s1.sortOrder == s2.sortOrder
    ensures s1.BoroughLabel() == s2.BoroughLabel()
    ensures s1.minCombinedSAT > 0 || s2.minCombinedSAT > 0 ==> s1.minCombinedSAT == s2.minCombinedSAT
  {
    DescriptionSplits(s1);
    DescriptionSplits(s2);
    assert s1.BoroughLabel() + DescriptionTail(s1) == s1.Description()[9..];
    assert s2.BoroughLabel() + DescriptionTail(s2) == s2.Description()[9..];
    SplitAtComma(s1.BoroughLabel(), DescriptionTail(s1), s2.BoroughLabel(), DescriptionTail(s2));
    TailDeterminesSettings(s1, s2);
  }

  /** No borough offered by the filter screen contains a comma. */
  lemma BoroughChoicesHaveNoComma()
    ensures forall i :: 0 <= i < |Boroughs| ==> NoComma(Boroughs[i])
  {
    assert NoComma("All") && NoComma("Bronx") && NoComma("Brooklyn");
    assert NoComma("Manhattan") && NoComma("Queens") && NoComma("Staten Is");
  }

  /** Settings whose borough is unset or one of the offered choices are
      told apart by their descriptions, up to the "All" label. */
  lemma ChosenSettingsDescribedApart(s1: SortByFilterBy, s2: SortByFilterBy)
    requires s1.borough.None? || s1.borough.value in Boroughs
    requires s2.borough.None? || s2.borough.value in Boroughs
    requires s1.Description() == s2.Description()
    ensures s1.sortOrder == s2.sortOrder
    ensures s1.BoroughLabel() == s2.BoroughLabel()
    ensures s1.minCombinedSAT > 0 || s2.minCombinedSAT > 0 ==> s1.minCombinedSAT == s2.minCombinedSAT
  {
    BoroughChoicesHaveNoComma();
    DescriptionDeterminesSettings(s1, s2);
  }

  /** Choosing the borough "All" is described exactly like choosing no
      borough, yet it filters for a borough called "ALL". */
  lemma AllReadsLikeNoBorough(order: SortOrder, minCombinedSAT: int)
    ensures SortByFilterBy(order, Some("All"), minCombinedSAT).Description()
         == SortByFilterBy(order, None, minCombinedSAT).Description()
    ensures SortByFilterBy(order, Some("All"), minCombinedSAT).Predicate().Some?
    ensures minCombinedSAT <= 0 ==> SortByFilterBy(order, None, minCombinedSAT).Predicate().None?
  {
  }

  // ---------------------------------------------------------------------------
  // Predicate

  /** Upper-case mapping of one character (ASCII letters only). */
  function UpperChar(c: char): char {
    if 'a' <= c <= 'z' then (c as int - 32) as char else c
  }

  /** `uppercased()` on ASCII text. */
  function Uppercased(s: string): (r: string)
    ensures |r| == |s|
    ensures forall i :: 0 <= i < |s| ==> r[i] == UpperChar(s[i])
  {
    seq(|s|, i requires 0 <= i < |s| => UpperChar(s[i]))
  }

  /** The fetch predicates `SortByFilterBy` builds. */
  datatype Predicate =
    | BoroughEquals(borough: string)   // address.borough = %@
    | SATAbove(minCombinedSAT: int)     // SUBQUERY(satResults, $s, math + reading > %@).@count > 0
    | And(left: Predicate, right: Predicate)
  {
    predicate Evaluate(school: HighSchool) {
      match this
      case BoroughEquals(b) => KeyValue(school, "address.borough") == Some(b)
      case SATAbove(m) => CountAbove(school.satResults, m) > 0
      case And(l, r) => l.Evaluate(school) && r.Evaluate(school)
    }
  }

  /** A SAT result's math plus critical-reading average. */
  function CombinedSAT(sat: SATResult): int {
    Integer(sat.attributes, "satMathAvgScore") + Integer(sat.attributes, "satCriticalReadingAvgScore")
  }

  /** How many of the results have a combined score above `min`. */
  function CountAbove(sats: seq<SATResult>, min: int): (r: nat)
    ensures r <= |sats|
  {
    if sats == [] then 0
    else CountAbove(sats[..|sats| - 1], min) + (if CombinedSAT(sats[|sats| - 1]) > min then 1 else 0)
  }

  /** The subquery count is positive exactly when some result is above the
      minimum. */
  lemma {:induction false} CountAbovePositive(sats: seq<SATResult>, min: int)
    ensures CountAbove(sats, min) > 0 <==> exists i :: 0 <= i < |sats| && CombinedSAT(sats[i]) > min
  {
    if sats != [] {
      var front := sats[..|sats| - 1];
      CountAbovePositive(front, min);
      if exists i :: 0 <= i < |front| && CombinedSAT(front[i]) > min {
        var i :| 0 <= i < |front| && CombinedSAT(front[i]) > min;
        assert sats[i] == front[i];
      }
      if exists i :: 0 <= i < |sats| && CombinedSAT(sats[i]) > min {
        var i :| 0 <= i < |sats| && CombinedSAT(sats[i]) > min;
        if i < |front| {
          assert front[i] == sats[i];
        }
      }
    }
  }

  /** A school passes the settings' filter exactly when it is in the chosen
      borough (compared in upper case) and, when a SAT minimum is set, has a
      SAT result whose math plus critical-reading average exceeds it. */
  lemma AdmitsIff(s: SortByFilterBy, school: HighSchool)
    ensures s.Admits(school) <==>
      && (s.borough.Some? ==> KeyValue(school, "address.borough") == Some(Uppercased(s.borough.value)))
      && (s.minCombinedSAT > 0 ==>
            exists i :: 0 <= i < |school.satResults| && CombinedSAT(school.satResults[i]) > s.minCombinedSAT)
  {
    CountAbovePositive(school.satResults, s.minCombinedSAT);
    var bySAT := SATAbove(s.minCombinedSAT);
    if s.borough.Some? {
      var byBorough := BoroughEquals(Uppercased(s.borough.value));
      if s.minCombinedSAT > 0 {
        assert s.Predicate() == Some(And(bySAT, byBorough));
        assert s.Admits(school) == (bySAT.Evaluate(school) && byBorough.Evaluate(school));
      } else {
        assert s.Predicate() == Some(byBorough);
      }
    } else if s.minCombinedSAT > 0 {
      assert s.Predicate() == Some(bySAT);
    }
  }

  /** Raising the SAT minimum never lets more schools through. */
  lemma RaisingMinimumNarrows(s: SortByFilterBy, higher: int, school: HighSchool)
    requires s.minCombinedSAT <= higher
    ensures s.(minCombinedSAT := higher).Admits(school) ==> s.Admits(school)
  {
    var t := s.(minCombinedSAT := higher);
    AdmitsIff(s, school);
    AdmitsIff(t, school);
    if t.Admits(school) && s.minCombinedSAT > 0 {
      var i :| 0 <= i < |school.satResults| && CombinedSAT(school.satResults[i]) > higher;
    }
  }

  /** The description announces "SAT >= n", but the subquery compares with
      `>`: a school whose only result sums to exactly the minimum is not
      fetched. */
  lemma AtMinimumNotAdmitted(s: SortByFilterBy, school: HighSchool)
    requires s.minCombinedSAT > 0
    requires |school.satResults| == 1 && CombinedSAT(school.satResults[0]) == s.minCombinedSAT
    ensures !s.Admits(school)
  {
    AdmitsIff(s, school);
  }

  /** The writing average plays no part in the SAT filter. */
  lemma WritingScoreIgnored(sat: SATResult, score: Int16)
    ensures CombinedSAT(SATResult(sat.attributes.(integers := sat.attributes.integers["satWritingAvgScore" := score])))
         == CombinedSAT(sat)
  {
  }
}
