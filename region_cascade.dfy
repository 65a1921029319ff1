/** The registration form's cascading location pickers: a country dropdown, a
    state dropdown whose options depend on the chosen country, and a city
    dropdown whose options depend on the chosen state. */
module RegionCascade {

  /** The country list offered by the first dropdown. */
  const Countries: seq<string> := ["India", "Nepal", "Bhutan", "Bangladesh", "Sri Lanka", "Others"]

  /** The state lists of the country table, one per key. */
  const IndiaStates: seq<string> := [
    "Andhra Pradesh", "Arunachal Pradesh", "Assam", "Bihar", "Chhattisgarh", "Goa", "Gujarat",
    "Haryana", "Himachal Pradesh", "Jharkhand", "Karnataka", "Kerala", "Madhya Pradesh",
    "Maharashtra", "Manipur", "Meghalaya", "Mizoram", "Nagaland", "Odisha", "Punjab", "Rajasthan",
    "Sikkim", "Tamil Nadu", "Telangana", "Tripura", "Uttar Pradesh", "Uttarakhand", "West Bengal",
    "Andaman and Nicobar Islands", "Chandigarh", "Dadra and Nagar Haveli and Daman and Diu",
    "Delhi", "Lakshadweep", "Puducherry", "Ladakh", "Jammu and Kashmir"
  ]
  const NepalStates: seq<string> := ["Bagmati", "Gandaki", "Lumbini", "Karnali", "Sudurpashchim"]
  const BhutanStates: seq<string> := ["Thimphu", "Paro", "Punakha"]
  const BangladeshStates: seq<string> := ["Dhaka", "Chittagong", "Khulna"]
  const SriLankaStates: seq<string> := ["Western", "Central", "Southern"]
  const OtherStates: seq<string> := ["Others"]

  /** States (provinces, divisions) per country key; Sri Lanka's key is "SriLanka". */
  const StatesByCountry: map<string, seq<string>> := map[
    "India" := IndiaStates,
    "Nepal" := NepalStates,
    "Bhutan" := BhutanStates,
    "Bangladesh" := BangladeshStates,
    "SriLanka" := SriLankaStates,
    "Others" := OtherStates
  ]

  /** Cities per state key: the Indian states and union territories ... */
  const IndianCities: map<string, seq<string>> := map[
    "Andhra Pradesh" := ["Visakhapatnam", "Vijayawada", "Guntur"],
    "Arunachal Pradesh" := ["Itanagar", "Tawang", "Ziro"],
    "Assam" := ["Guwahati", "Dibrugarh", "Silchar"],
    "Bihar" := ["Patna", "Gaya", "Bhagalpur"],
    "Chhattisgarh" := ["Raipur", "Bilaspur", "Korba"],
    "Goa" := ["Panaji", "Margao", "Vasco da Gama"],
    "Gujarat" := ["Ahmedabad", "Surat", "Vadodara"],
    "Haryana" := ["Gurgaon", "Faridabad", "Panipat"],
    "Himachal Pradesh" := ["Shimla", "Manali", "Dharamshala"],
    "Jharkhand" := ["Ranchi", "Jamshedpur", "Dhanbad"],
    "Karnataka" := ["Bangalore", "Mysore", "Hubli"],
    "Kerala" := ["Thiruvananthapuram", "Kochi", "Kozhikode"],
    "Madhya Pradesh" := ["Bhopal", "Indore", "Jabalpur"],
    "Maharashtra" := ["Mumbai", "Pune", "Nagpur"],
    "Manipur" := ["Imphal", "Thoubal", "Churachandpur"],
    "Meghalaya" := ["Shillong", "Tura", "Jowai"],
    "Mizoram" := ["Aizawl", "Lunglei", "Saiha"],
    "Nagaland" := ["Kohima", "Dimapur", "Mokokchung"],
    "Odisha" := ["Bhubaneswar", "Cuttack", "Rourkela"],
    "Punjab" := ["Chandigarh", "Amritsar", "Ludhiana"],
    "Rajasthan" := ["Jaipur", "Jodhpur", "Udaipur"],
    "Sikkim" := ["Gangtok", "Namchi", "Pelling"],
    "Tamil Nadu" := ["Chennai", "Coimbatore", "Madurai"],
    "Telangana" := ["Hyderabad", "Warangal", "Nizamabad"],
    "Tripura" := ["Agartala", "Udaipur", "Dharmanagar"],
    "Uttar Pradesh" := ["Lucknow", "Kanpur", "Varanasi"],
    "Uttarakhand" := ["Dehradun", "Haridwar", "Nainital"],
    "West Bengal" := ["Kolkata", "Darjeeling", "Siliguri"],
    "Andaman and Nicobar Islands" := ["Port Blair"],
    "Chandigarh" := ["Chandigarh"],
    "Dadra and Nagar Haveli and Daman and Diu" := ["Daman", "Silvassa"],
    "Delhi" := ["New Delhi"],
    "Lakshadweep" := ["Kavaratti"],
    "Puducherry" := ["Puducherry", "Karaikal", "Yanam"],
    "Ladakh" := ["Leh", "Kargil"],
    "Jammu and Kashmir" := ["Srinagar", "Jammu", "Anantnag"]
  ]

  /** ... and the provinces and divisions of the neighbouring countries. */
  const NeighbourCities: map<string, seq<string>> := map[
    "Bagmati" := ["Kathmandu", "Lalitpur", "Bhaktapur"],
    "Gandaki" := ["Pokhara", "Gorkha", "Bandipur"],
    "Lumbini" := ["Bhairahawa", "Lumbini", "Butwal"],
    "Karnali" := ["Surkhet", "Jumla", "Chisapani"],
    "Sudurpashchim" := ["Dhangadhi", "Mahendranagar", "Dadeldhura"],
    "Thimphu" := ["Thimphu", "Paro", "Punakha"],
    "Dhaka" := ["Dhaka", "Narayanganj", "Savar"],
    "Chittagong" := ["Chittagong", "Cox's Bazar", "Rangamati"],
    "Khulna" := ["Khulna", "Jessore", "Satkhira"],
    "Western" := ["Colombo", "Negombo", "Gampaha"],
    "Central" := ["Kandy", "Nuwara Eliya", "Matale"],
    "Southern" := ["Galle", "Matara", "Hambantota"],
    "Others" := ["Others"]
  ]

  /** The one city table: the two groups have no key in common. */
  const CitiesByState: map<string, seq<string>> := IndianCities + NeighbourCities

  /** What a dependent dropdown lists for the current selection. */
  datatype Options =
    | NothingShown                 // the selection is "": `selection && ...` renders no items
    | Listed(items: seq<string>)   // the table has an entry for the selection
    | LookupFails(key: string)     // `table[key]` is undefined, so `.map` throws while rendering

  /** `selection && table[selection].map(...)` */
  function OptionsFor(table: map<string, seq<string>>, selection: string): Options {
    if selection == "" then NothingShown
    else if selection in table then Listed(table[selection])
    else LookupFails(selection)
  }

  /** `disabled={!selection}` */
  predicate Disabled(selection: string) {
    selection == ""
  }

  /** The state dropdown's options for the selected country. */
  function StateOptions(selectedCountry: string): Options {
    OptionsFor(StatesByCountry, selectedCountry)
  }

  /** The city dropdown's options for the selected state. */
  function CityOptions(selectedState: string): Options {
    OptionsFor(CitiesByState, selectedState)
  }

  /** A dependent dropdown is disabled exactly when it lists nothing, and once
      enabled it either lists the table's entry for the selection or fails. */
  lemma DisabledIffNothingShown(table: map<string, seq<string>>, selection: string)
    ensures Disabled(selection) <==> OptionsFor(table, selection).NothingShown?
    ensures !Disabled(selection) && selection in table ==>
              OptionsFor(table, selection) == Listed(table[selection])
    ensures !Disabled(selection) && selection !in table ==>
              OptionsFor(table, selection) == LookupFails(selection)
  {
  }

  /** Every country offered has a state list except "Sri Lanka", whose table key is "SriLanka". */
  lemma CountryTableCoverage()
    ensures forall c :: c in Countries ==> (StateOptions(c).Listed? <==> c != "Sri Lanka")
    ensures StateOptions("Sri Lanka") == LookupFails("Sri Lanka")
    ensures "SriLanka" in StatesByCountry && "SriLanka" !in Countries
  {
  }

  // IndiaCitiesPart1-3, IndianKeysAreCityKeys: the Indian coverage fact split
  // into small pieces, each cheap enough for the solver on the literal table.
  lemma IndiaCitiesPart1()
    ensures forall i :: 0 <= i < 12 ==> IndiaStates[i] in IndianCities
  {
  }

  lemma IndiaCitiesPart2()
    ensures forall i :: 12 <= i < 24 ==> IndiaStates[i] in IndianCities
  {
  }

  lemma IndiaCitiesPart3()
    ensures forall i :: 24 <= i < 36 ==> IndiaStates[i] in IndianCities
  {
  }

  lemma IndianKeysAreCityKeys()
    ensures forall s :: s in IndianCities ==> s in CitiesByState
  {
  }

  /** Every Indian state and union territory has a city list. */
  lemma IndiaCitiesCovered()
    ensures forall s :: s in IndiaStates ==> s in CitiesByState
  {
    IndianKeysAreCityKeys();
    forall s | s in IndiaStates ensures s in CitiesByState {
      var i :| 0 <= i < |IndiaStates| && IndiaStates[i] == s;
      if i < 12 {
        IndiaCitiesPart1();
      } else if i < 24 {
        IndiaCitiesPart2();
      } else {
        IndiaCitiesPart3();
      }
      assert s in IndianCities;
    }
  }

  /** Every state of Nepal, Bangladesh, Sri Lanka and "Others" has a city list. */
  lemma NeighbourCitiesCovered()
    ensures forall s :: s in NepalStates ==> s in CitiesByState
    ensures forall s :: s in BangladeshStates ==> s in CitiesByState
    ensures forall s :: s in SriLankaStates ==> s in CitiesByState
    ensures forall s :: s in OtherStates ==> s in CitiesByState
  {
  }

  // The next four lemmas state key non-membership one city group at a time,
  // splitting table facts so that each stays cheap for the solver.

  /** Neither of Bhutan's "Paro" and "Punakha" is a key of the Indian city group. */
  lemma BhutanGapsNotIndian()
    ensures "Paro" !in IndianCities && "Punakha" !in IndianCities
  {
  }

  /** Neither of Bhutan's "Paro" and "Punakha" is a key of the neighbouring city group. */
  lemma BhutanGapsNotNeighbour()
    ensures "Paro" !in NeighbourCities && "Punakha" !in NeighbourCities
  {
  }

  /** The empty string is no key of the city table. */
  lemma EmptyIsNoCityKey()
    ensures "" !in CitiesByState
  {
    EmptyIsNoIndianCityKey();
    assert "" !in NeighbourCities;
  }

  lemma EmptyIsNoIndianCityKey()
    ensures "" !in IndianCities
  {
  }

  lemma ThimphuHasCities()
    ensures "Thimphu" in CitiesByState
  {
    assert "Thimphu" in NeighbourCities;
  }

  /** Every listed state other than "Paro" and "Punakha" is a key of the city table. */
  lemma ListedStatesAreCityKeys()
    ensures forall c, s :: c in StatesByCountry && s in StatesByCountry[c] && s != "Paro" && s != "Punakha" ==>
              s in CitiesByState
  {
    forall c, s | c in StatesByCountry && s in StatesByCountry[c] && s != "Paro" && s != "Punakha"
      ensures s in CitiesByState
    {
      if c == "India" {
        assert s in IndiaStates;
        IndiaCitiesCovered();
      } else if c == "Bhutan" {
        assert s == "Thimphu";
        ThimphuHasCities();
      } else {
        assert s in NepalStates || s in BangladeshStates || s in SriLankaStates || s in OtherStates;
        NeighbourCitiesCovered();
      }
    }
  }

  /** Choosing Bhutan's "Paro" or "Punakha" makes the city dropdown's lookup fail. */
  lemma BhutanCityGaps()
    ensures "Paro" in StatesByCountry["Bhutan"] && CityOptions("Paro") == LookupFails("Paro")
    ensures "Punakha" in StatesByCountry["Bhutan"] && CityOptions("Punakha") == LookupFails("Punakha")
  {
    BhutanGapsNotIndian();
    BhutanGapsNotNeighbour();
  }

  /** Every state listed for some country has a city list, except Bhutan's
      "Paro" and "Punakha", for which the city dropdown's lookup fails. */
  lemma StateTableCoverage()
    ensures forall c, s :: c in StatesByCountry && s in StatesByCountry[c] && s != "Paro" && s != "Punakha" ==>
              s in CitiesByState && CityOptions(s) == Listed(CitiesByState[s])
    ensures "Paro" in StatesByCountry["Bhutan"] && CityOptions("Paro") == LookupFails("Paro")
    ensures "Punakha" in StatesByCountry["Bhutan"] && CityOptions("Punakha") == LookupFails("Punakha")
  {
    ListedStatesAreCityKeys();
    EmptyIsNoCityKey();
    BhutanCityGaps();
  }

  /** No listed country or state is the empty string, so choosing any option
      enables the dropdown that depends on it. */
  lemma OptionsAreNonEmpty()
    ensures forall c :: c in Countries ==> !Disabled(c)
    ensures forall c, s :: c in StatesByCountry && s in StatesByCountry[c] ==> !Disabled(s)
  {
    assert forall s :: s in IndiaStates ==> s != "";
    assert forall s :: s in NepalStates + BhutanStates + BangladeshStates + SriLankaStates + OtherStates ==> s != "";
  }

  // IndiaStateEntries and the Maharashtra lemmas: the table entries the example
  // run below passes through, one lookup per lemma so each stays cheap for the solver.
  lemma IndiaStateEntries()
    ensures StateOptions("India") == Listed(IndiaStates)
    ensures "Maharashtra" in IndiaStates
  {
  }

  lemma MaharashtraIndianEntry()
    ensures "Maharashtra" in IndianCities && IndianCities["Maharashtra"] == ["Mumbai", "Pune", "Nagpur"]
  {
  }

  lemma MaharashtraNotNeighbour()
    ensures "Maharashtra" !in NeighbourCities
  {
  }

  lemma MaharashtraCities()
    ensures CityOptions("Maharashtra") == Listed(["Mumbai", "Pune", "Nagpur"])
  {
    MaharashtraIndianEntry();
    MaharashtraNotNeighbour();
    assert CitiesByState["Maharashtra"] == IndianCities["Maharashtra"];
  }

  /** The part of the registration form the location pickers drive: the two
      selections the component keeps (`selectedCountry`, `selectedState`) and
      the form's `country`, `state` and `city` values. */
  class CascadeForm {
    var selectedCountry: string
    var selectedState: string
    var country: string
    var state: string
    var city: string

    /** What every handler keeps true: the form's country is the selected one,
        the form's state is either cleared or the selected state, and a city is
        only ever one listed for the selected state. */
    ghost predicate Valid()
      reads this
    {
      && country == selectedCountry
      && (state == "" || state == selectedState)
      && (city != "" ==> CityOptions(selectedState).Listed? && city in CityOptions(selectedState).items)
    }

    /** Rendering throws: one of the two dependent dropdowns evaluates
        `table[selection].map` on a key the table lacks, and the form is gone.
        No handler can run afterwards. */
    ghost predicate Crashed()
      reads this
    {
      StateOptions(selectedCountry).LookupFails? || CityOptions(selectedState).LookupFails?
    }

    /** Mounting: empty selections, and country, state and city all "". */
    constructor ()
      ensures Valid() && !Crashed()
      ensures selectedCountry == "" && selectedState == ""
      ensures country == "" && state == "" && city == ""
    {
      selectedCountry, selectedState := "", "";
      country, state, city := "", "", "";
    }

    /** The country dropdown's handler, followed by the effect that runs when
        `selectedCountry` has changed: the form's state and city are cleared,
        but `selectedState` is kept. Choosing "Sri Lanka" crashes the render. */
    method SelectCountry(value: string)
      requires Valid() && !Crashed() && value in Countries
      modifies this
      ensures Valid()
      ensures Crashed() <==> StateOptions(value).LookupFails?
      ensures Crashed() <==> value == "Sri Lanka"
      ensures country == value && selectedCountry == value && !Disabled(selectedCountry)
      ensures selectedState == old(selectedState)
      ensures value != old(selectedCountry) ==> state == "" && city == ""
      ensures value == old(selectedCountry) ==> state == old(state) && city == old(city)
    {
      OptionsAreNonEmpty();
      CountryTableCoverage();
      var changed := value != selectedCountry;
      country := value;
      selectedCountry := value;
      if changed {
        state := "";
        city := "";
      }
    }

    /** The state dropdown's handler (only reachable while it lists options),
        followed by the effect that runs when `selectedState` has changed: the
        form's city is cleared; country and state selections are kept.
        Choosing Bhutan's "Paro" or "Punakha" crashes the render. */
    method SelectState(value: string)
      requires Valid() && !Crashed()
      requires StateOptions(selectedCountry).Listed? && value in StateOptions(selectedCountry).items
      modifies this
      ensures Valid()
      ensures Crashed() <==> CityOptions(value).LookupFails?
      ensures Crashed() <==> value == "Paro" || value == "Punakha"
      ensures state == value && selectedState == value && !Disabled(selectedState)
      ensures country == old(country) && selectedCountry == old(selectedCountry)
      ensures value != old(selectedState) ==> city == ""
      ensures value == old(selectedState) ==> city == old(city)
    {
      OptionsAreNonEmpty();
      StateTableCoverage();
      var changed := value != selectedState;
      state := value;
      selectedState := value;
      if changed {
        city := "";
      }
    }

    /** The city dropdown's handler (only reachable while it lists options). */
    method SelectCity(value: string)
      requires Valid() && !Crashed()
      requires CityOptions(selectedState).Listed? && value in CityOptions(selectedState).items
      modifies this`city
      ensures Valid() && !Crashed()
      ensures city == value
    {
      city := value;
    }
  }

  /** Picking a country, one of its states and then a different country
      clears the form's state, yet `selectedState` keeps the old state: the
      city dropdown stays enabled on that state's cities, and one of them can
      be chosen while the form's state is "". */
  method ChangingCountryKeepsStaleCities(first: string, chosenState: string, second: string, chosenCity: string)
    returns (country: string, state: string, city: string, selectedState: string, cities: Options)
    requires first in Countries && second in Countries && first != second && second != "Sri Lanka"
    requires StateOptions(first).Listed? && chosenState in StateOptions(first).items
    requires CityOptions(chosenState).Listed? && chosenCity in CityOptions(chosenState).items
    ensures country == second && state == "" && city == chosenCity
    ensures selectedState == chosenState && !Disabled(selectedState) && cities == CityOptions(selectedState)
  {
    var form := new CascadeForm();
    form.SelectCountry(first);
    form.SelectState(chosenState);
    form.SelectCountry(second);
    cities := CityOptions(form.selectedState);
    form.SelectCity(chosenCity);
    country, state, city, selectedState := form.country, form.state, form.city, form.selectedState;
  }

  /** One such run: India, Maharashtra, Nepal, then "Mumbai". */
  lemma StaleCityExample()
    ensures "India" in Countries && "Nepal" in Countries
    ensures StateOptions("India").Listed? && "Maharashtra" in StateOptions("India").items
    ensures CityOptions("Maharashtra").Listed? && "Mumbai" in CityOptions("Maharashtra").items
  {
    assert StateOptions("India").Listed? && "Maharashtra" in StateOptions("India").items by {
      IndiaStateEntries();
    }
    assert CityOptions("Maharashtra").Listed? && "Mumbai" in CityOptions("Maharashtra").items by {
      MaharashtraCities();
    }
  }
}
