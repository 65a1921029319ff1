/** The admin dashboard's appointment filter: four criteria, one per-record
    predicate, an order-preserving filter, and the panel that holds the
    criteria and publishes the filtered list. */
module AppointmentFilter {
  import opened Text
  import opened ArrayFilter

  /** One appointment record as the dashboard receives it. */
  datatype Appointment = Appointment(
    name: string,
    gender: string,
    birthDate: string,
    email: string,
    phone: string,
    address: string,
    userId: string,
    state: string,
    district: string,
    someValue: real)

  /** The filter criteria; "all" (gender) and "" (the text fields) mean "no constraint". */
  datatype Criteria = Criteria(gender: string, state: string, district: string, name: string)

  /** The criteria the panel starts with. */
  const InitialCriteria := Criteria("all", "", "", "")

  /** The four keys the panel's inputs pass to the change handler. */
  datatype CriteriaField = Gender | State | District | Name

  function Get(c: Criteria, f: CriteriaField): string {
    match f
    case Gender => c.gender
    case State => c.state
    case District => c.district
    case Name => c.name
  }

  /** `{...prev, [f]: value}`: field `f` becomes `value`, the other three are kept. */
  function WithField(c: Criteria, f: CriteriaField, value: string): (r: Criteria)
    ensures Get(r, f) == value
    ensures forall g :: g != f ==> Get(r, g) == Get(c, g)
  {
    match f
    case Gender => c.(gender := value)
    case State => c.(state := value)
    case District => c.(district := value)
    case Name => c.(name := value)
  }

  /** Gender test: the wildcard "all", or case-insensitive equality. */
  predicate GenderMatches(wanted: string, gender: string) {
    wanted == "all" || EqualsIgnoreCase(gender, wanted)
  }

  /** Text test for state, district and name: empty, or case-insensitive containment. */
  predicate TextMatches(wanted: string, field: string) {
    wanted == "" || IncludesIgnoreCase(field, wanted)
  }

  /** A record is kept when all four tests pass. */
  predicate Matches(c: Criteria, a: Appointment) {
    && GenderMatches(c.gender, a.gender)
    && TextMatches(c.state, a.state)
    && TextMatches(c.district, a.district)
    && TextMatches(c.name, a.name)
  }

  /** `data.filter(item => Matches(c, item))`: a record is kept iff it passes. */
  function Filter(data: seq<Appointment>, c: Criteria): (r: seq<Appointment>)
    ensures |r| <= |data|
    ensures forall a :: a in r <==> a in data && Matches(c, a)
  {
    FilterBy(data, a => Matches(c, a))
  }

  /** The filtered list is the input read at exactly the positions whose
      records pass the criteria, in their original order. */
  lemma FilterSelectsMatchingPositions(data: seq<Appointment>, c: Criteria)
    ensures exists idx ::
              && Embedding(idx, Filter(data, c), data)
              && (forall i :: 0 <= i < |data| ==> (i in idx <==> Matches(c, data[i])))
  {
    var keep := a => Matches(c, a);
    FilterBySelectsPassingPositions(data, keep);
    var idx := PassingPositions(data, keep);
    assert Embedding(idx, Filter(data, c), data);
  }

  lemma FilterIsSubsequence(data: seq<Appointment>, c: Criteria)
    ensures IsSubsequence(Filter(data, c), data)
  {
    FilterByIsSubsequence(data, a => Matches(c, a));
  }

  /** Applying the same criteria to the filtered list returns it unchanged. */
  lemma FilterIdempotent(data: seq<Appointment>, c: Criteria)
    ensures Filter(Filter(data, c), c) == Filter(data, c)
  {
    FilterByIdempotent(data, a => Matches(c, a));
  }

  /** The initial criteria pass every record. */
  lemma InitialCriteriaPassEverything(a: Appointment)
    ensures Matches(InitialCriteria, a)
  {
  }

  /** With the initial criteria the filter returns its input unchanged. */
  lemma FilterInitialIsIdentity(data: seq<Appointment>)
    ensures Filter(data, InitialCriteria) == data
  {
    FilterByAllPass(data, a => Matches(InitialCriteria, a));
  }

  // GenderWordsLowered and FemaleIncludesMale: the literal facts of the next
  // lemma, split out so that each stays cheap for the solver.
  lemma GenderWordsLowered()
    ensures ToLower("Female") == "female" && ToLower("FEMALE") == "female"
    ensures ToLower("male") == "male"
  {
    assert |ToLower("Female")| == 6 && |ToLower("FEMALE")| == 6;
    ToLowerIsLower("male");
  }

  lemma FemaleIncludesMale()
    ensures Includes("female", "male")
  {
    assert OccursAt("female", "male", 2);
    OccurrenceGivesIncludes("female", "male", 2);
  }

  /** Gender is compared for equality, not containment: "male" does not keep
      a "Female" record, although "female" contains "male". */
  lemma GenderIsEqualityNotContainment(a: Appointment)
    requires a.gender == "Female"
    ensures !GenderMatches("male", a.gender)
    ensures IncludesIgnoreCase(a.gender, "male")
    ensures GenderMatches("FEMALE", a.gender)
  {
    GenderWordsLowered();
    FemaleIncludesMale();
  }

  /** A gender criterion passes every record exactly when it is the string
      "all": any other criterion, whatever its case, rejects some gender. */
  lemma WildcardIsExactlyAll(wanted: string)
    ensures (forall g :: GenderMatches(wanted, g)) <==> wanted == "all"
  {
    if wanted != "all" {
      var g := wanted + "#";
      assert |ToLower(g)| == |ToLower(wanted)| + 1;
      assert !GenderMatches(wanted, g);
    }
  }

  /** The gender wildcard is the exact string "all": "All" is compared like any other value. */
  lemma WildcardIsCaseSensitive(a: Appointment)
    requires a.gender == "Male"
    ensures GenderMatches("all", a.gender)
    ensures !GenderMatches("All", a.gender)
  {
    assert ToLower("Male") == "male";
    assert ToLower("All") == "all";
  }

  /** Text criteria are not trimmed: " " is a real constraint, met only by fields holding a space. */
  lemma BlankCriterionConstrains(field: string)
    ensures TextMatches(" ", field) <==> ' ' in field
  {
    assert ToLower(" ") == " ";
    IncludesChar(ToLower(field), ' ');
    assert ' ' in ToLower(field) <==> ' ' in field by {
      if ' ' in ToLower(field) {
        var i :| 0 <= i < |field| && ToLower(field)[i] == ' ';
        assert field[i] == ' ';
      }
      if ' ' in field {
        var i :| 0 <= i < |field| && field[i] == ' ';
        assert ToLower(field)[i] == ' ';
      }
    }
  }

  /** A text criterion can only be met by a field at least as long as it. */
  lemma TextCriterionNeedsLongEnoughField(wanted: string, field: string)
    requires wanted != "" && TextMatches(wanted, field)
    ensures |wanted| <= |field|
  {
    IncludesNoLonger(ToLower(field), ToLower(wanted));
  }

  /** Text criteria ignore case on both sides: lower-casing the criterion or
      the field changes no outcome. */
  lemma TextMatchIgnoresCase(wanted: string, field: string)
    ensures TextMatches(wanted, field) <==> TextMatches(ToLower(wanted), field)
    ensures TextMatches(wanted, field) <==> TextMatches(wanted, ToLower(field))
  {
    ToLowerIdempotent(wanted);
    ToLowerIdempotent(field);
  }

  /** Lower-casing the state, district and name criteria keeps exactly the same
      records; the gender criterion is left alone, its wildcard being case-sensitive. */
  lemma LowerCasedCriteriaMatchAlike(c: Criteria, a: Appointment)
    ensures Matches(c, a) <==>
            Matches(c.(state := ToLower(c.state), district := ToLower(c.district), name := ToLower(c.name)), a)
  {
    TextMatchIgnoresCase(c.state, a.state);
    TextMatchIgnoresCase(c.district, a.district);
    TextMatchIgnoresCase(c.name, a.name);
  }

  /** The filter panel: the criteria it holds and the list it last published.
      `data` is the record list handed to it; the panel never changes it. */
  class FilterPanel {
    var data: seq<Appointment>
    var filters: Criteria
    var filteredData: seq<Appointment>

    /** `shown` is whatever list the dashboard displays before the first apply. */
    constructor (data: seq<Appointment>, shown: seq<Appointment>)
      ensures this.data == data && filters == InitialCriteria && filteredData == shown
    {
      this.data := data;
      filters := InitialCriteria;
      filteredData := shown;
    }

    /** Sets one criterion and leaves the other three and both lists as they were. */
    method HandleFilterChange(field: CriteriaField, value: string)
      modifies this`filters
      ensures filters == WithField(old(filters), field, value)
      ensures Get(filters, field) == value
      ensures forall g :: g != field ==> Get(filters, g) == Get(old(filters), g)
    {
      filters := WithField(filters, field, value);
    }

    /** Publishes the records of `data` that pass the current criteria; `data`
        and `filters` are left as they were. */
    method ApplyFilters()
      modifies this`filteredData
      ensures filteredData == Filter(data, filters)
      ensures forall a :: a in filteredData <==> a in data && Matches(filters, a)
      ensures IsSubsequence(filteredData, data)
      ensures filters == InitialCriteria ==> filteredData == data
    {
      filteredData := Filter(data, filters);
      FilterIsSubsequence(data, filters);
      if filters == InitialCriteria {
        FilterInitialIsIdentity(data);
      }
    }
  }
}
