# Icare appointment filter and location pickers

A Dafny model of two pieces of behaviour in the Icare patient portal.

**The admin dashboard's appointment filter** (`FilterComponent`):
- The panel holds four criteria: gender, state, district and name.
- One change handler updates one criterion at a time.
- "Apply" keeps the records that pass all four tests, in their original order:
  - gender is "all", or equals the record's gender ignoring case;
  - state, district and name are each empty, or occur inside the record's field ignoring case.

**The registration form's cascading location pickers** (`RegisterForm`):
- Three fixed tables: the countries, the states per country and the cities per state.
- Two selections (`selectedCountry`, `selectedState`) decide which dropdowns are enabled and what they list.
- Two effects clear the form's `state` and `city` when a selection changes.

The project has four modules:
- `Text` (`text.dfy`): ASCII lower-casing and `String.prototype.includes`, with `includes` tied to "there is an index where the needle occurs".
- `ArrayFilter` (`array_filter.dfy`): `Array.prototype.filter`, proved to read its input at exactly the passing positions in order, to be idempotent, and to be the identity when everything passes.
- `AppointmentFilter` (`appointment_filter.dfy`):
  - the record and criteria datatypes;
  - the per-record predicate and the filter;
  - the `FilterPanel` class, whose `filters` and `filteredData` fields are the component's two pieces of state.
- `RegionCascade` (`region_cascade.dfy`):
  - the three tables, written out as in the source;
  - the option lookups, including the case where the lookup fails;
  - the `CascadeForm` class, holding the two selections and the form's country, state and city.

What the tables give, all proved as properties of the tables as written:
- The country "Sri Lanka" has no state list: the states table's key is "SriLanka".
- Bhutan's "Paro" and "Punakha" have no city list.
- A country change leaves `selectedState` as it was. The city dropdown therefore stays enabled on the old state's cities while the form's state is "".

## Model

| member | source | states |
|---|---|---|
| Text.ToLower | components/forms/FilterComponent.tsx:53-64 | lower-casing keeps the length and lower-cases each character in place |
| Text.ToLowerIsLower | components/forms/FilterComponent.tsx:53-64 | a lower-cased string holds no upper-case letter, and a string without one is its own lower case |
| Text.ToLowerIdempotent | components/forms/FilterComponent.tsx:53-64 | lower-casing twice is lower-casing once |
| Text.Includes | components/forms/FilterComponent.tsx:58-64 | `s.includes(t)`: `t` is a prefix of `s` or of some suffix of `s`; the empty needle is in every string |
| Text.EqualsIgnoreCase | components/forms/FilterComponent.tsx:55-55 | two strings are equal once both are lower-cased |
| Text.IncludesIgnoreCase | components/forms/FilterComponent.tsx:58-64 | the lower-cased field includes the lower-cased criterion |
| Text.IncludesGivesOccurrence | components/forms/FilterComponent.tsx:56-64 | whenever `s.includes(t)` holds, it yields an index at which `t` occurs in `s` |
| Text.OccurrenceGivesIncludes | components/forms/FilterComponent.tsx:56-64 | an occurrence of `t` at any index of `s` makes `s.includes(t)` hold |
| Text.IncludesIffOccurs | components/forms/FilterComponent.tsx:56-64 | `s.includes(t)` holds exactly when `t` occurs in `s` at some index |
| Text.IncludesNoLonger | components/forms/FilterComponent.tsx:56-64 | a string only includes strings no longer than itself |
| Text.IncludesSelfAndEmpty | components/forms/FilterComponent.tsx:56-64 | every string includes itself and the empty string |
| Text.IncludesChar | components/forms/FilterComponent.tsx:56-64 | a one-character needle is included exactly when that character occurs |
| ArrayFilter.FilterBy | components/forms/FilterComponent.tsx:52-66 | the filter's output is no longer than its input, and holds an element exactly when the input holds it and it passes the test |
| ArrayFilter.FilterBySelectsPassingPositions | components/forms/FilterComponent.tsx:52-66 | the output is the input read, in increasing order, at exactly the positions whose element passes |
| ArrayFilter.FilterByIsSubsequence | components/forms/FilterComponent.tsx:52-66 | the output is a subsequence of the input |
| ArrayFilter.FilterByIdempotent | components/forms/FilterComponent.tsx:52-66 | filtering the output again with the same test returns it unchanged |
| ArrayFilter.FilterByAllPass | components/forms/FilterComponent.tsx:52-66 | when every element passes, the output is the input |
| AppointmentFilter.WithField | components/forms/FilterComponent.tsx:44-49 | the named criterion takes the new value and the other three keep theirs |
| AppointmentFilter.GenderMatches | components/forms/FilterComponent.tsx:53-55 | the gender test: the criterion is "all", or equals the record's gender ignoring case |
| AppointmentFilter.TextMatches | components/forms/FilterComponent.tsx:56-64 | the state, district and name test: the criterion is "", or the field includes it ignoring case |
| AppointmentFilter.Matches | components/forms/FilterComponent.tsx:53-65 | a record passes when all four tests pass |
| AppointmentFilter.Filter | components/forms/FilterComponent.tsx:52-66 | a record is in the result exactly when it is in the data and passes all four criteria |
| AppointmentFilter.FilterSelectsMatchingPositions | components/forms/FilterComponent.tsx:52-66 | the result is the data read, in order, at exactly the positions of matching records |
| AppointmentFilter.FilterIsSubsequence | components/forms/FilterComponent.tsx:52-66 | the result keeps the data's relative order |
| AppointmentFilter.FilterIdempotent | components/forms/FilterComponent.tsx:52-66 | re-applying the same criteria to the result changes nothing |
| AppointmentFilter.InitialCriteriaPassEverything | components/forms/FilterComponent.tsx:37-42 | the initial criteria ("all", "", "", "") pass every record |
| AppointmentFilter.FilterInitialIsIdentity | components/forms/FilterComponent.tsx:37-42 | with the initial criteria the result is the data itself |
| AppointmentFilter.GenderIsEqualityNotContainment | components/forms/FilterComponent.tsx:53-55 | gender is compared for equality: "male" rejects a "Female" record, though "female" contains "male", while "FEMALE" keeps it |
| AppointmentFilter.WildcardIsExactlyAll | components/forms/FilterComponent.tsx:53-55 | a gender criterion passes every record exactly when it is "all"; every other criterion rejects some gender |
| AppointmentFilter.WildcardIsCaseSensitive | components/forms/FilterComponent.tsx:53-55 | an instance: "all" keeps a "Male" record, "All" rejects it |
| AppointmentFilter.BlankCriterionConstrains | components/forms/FilterComponent.tsx:56-64 | text criteria are not trimmed: " " passes exactly the fields that hold a space |
| AppointmentFilter.TextCriterionNeedsLongEnoughField | components/forms/FilterComponent.tsx:56-64 | a non-empty text criterion is only met by a field at least as long as it |
| AppointmentFilter.TextMatchIgnoresCase | components/forms/FilterComponent.tsx:56-64 | a text test gives the same outcome when either the criterion or the field is lower-cased first |
| AppointmentFilter.LowerCasedCriteriaMatchAlike | components/forms/FilterComponent.tsx:52-66 | lower-casing the state, district and name criteria keeps exactly the same records |
| AppointmentFilter.FilterPanel.constructor | components/forms/FilterComponent.tsx:33-42 | the panel starts with the initial criteria |
| AppointmentFilter.FilterPanel.HandleFilterChange | components/forms/FilterComponent.tsx:44-49 | sets one criterion, keeps the other three, touches neither list |
| AppointmentFilter.FilterPanel.ApplyFilters | components/forms/FilterComponent.tsx:51-68 | publishes exactly the matching records of `data` in order, changes neither `data` nor `filters`, and publishes `data` itself under the initial criteria |
| RegionCascade.OptionsFor | components/forms/RegisterForm.tsx:386-387 | `selection && table[selection].map(...)`: nothing for "", the table's entry for a key it holds, a failed lookup otherwise |
| RegionCascade.StateOptions | components/forms/RegisterForm.tsx:386-387 | the state dropdown's options: the states table looked up with `selectedCountry` |
| RegionCascade.CityOptions | components/forms/RegisterForm.tsx:416-417 | the city dropdown's options: the cities table looked up with `selectedState` |
| RegionCascade.Disabled | components/forms/RegisterForm.tsx:380-380 | `disabled={!selection}`: a dependent dropdown is disabled exactly when its selection is "" |
| RegionCascade.DisabledIffNothingShown | components/forms/RegisterForm.tsx:380-417 | a dependent dropdown is disabled exactly when it lists nothing; once enabled it lists the table entry for the selection, or the lookup fails when there is none |
| RegionCascade.CountryTableCoverage | components/forms/RegisterForm.tsx:36-89 | every offered country has a state list except "Sri Lanka", whose lookup fails because the key is "SriLanka" |
| RegionCascade.ListedStatesAreCityKeys | components/forms/RegisterForm.tsx:45-146 | every state in the states table other than "Paro" and "Punakha" is a key of the cities table |
| RegionCascade.BhutanCityGaps | components/forms/RegisterForm.tsx:85-137 | Bhutan lists "Paro" and "Punakha", and choosing either makes the city lookup fail |
| RegionCascade.StateTableCoverage | components/forms/RegisterForm.tsx:45-146 | for every listed state but "Paro" and "Punakha", the city dropdown lists that state's cities; for those two it fails |
| RegionCascade.OptionsAreNonEmpty | components/forms/RegisterForm.tsx:36-89 | no country and no listed state is "", so choosing one always enables the next dropdown |
| RegionCascade.CascadeForm.Crashed | components/forms/RegisterForm.tsx:386-417 | rendering throws: the selected country or the selected state is a key its table lacks |
| RegionCascade.CascadeForm.constructor | components/forms/RegisterForm.tsx:151-164 | both selections and the form's country, state and city start as "", and the form renders |
| RegionCascade.CascadeForm.SelectCountry | components/forms/RegisterForm.tsx:167-170 | the form's country and `selectedCountry` take the value; a new value clears the form's state and city, the same value clears nothing; `selectedState` is kept; the render crashes exactly when the value is "Sri Lanka" (the handler that sets both values is at lines 346-349) |
| RegionCascade.CascadeForm.SelectState | components/forms/RegisterForm.tsx:172-174 | the form's state and `selectedState` take the value; a new value clears the city, the same value keeps it; the country is kept; the render crashes exactly when the value is "Paro" or "Punakha" (the handler that sets both values is at lines 375-378) |
| RegionCascade.CascadeForm.SelectCity | components/forms/RegisterForm.tsx:405-417 | the form's city takes one of the cities listed for `selectedState`; the form stays consistent and keeps rendering |
| RegionCascade.ChangingCountryKeepsStaleCities | components/forms/RegisterForm.tsx:152-174 | after country, state, then a different country other than "Sri Lanka", the form says state "" while `selectedState` is still the old state: the city dropdown is enabled on its cities, and one of them can be chosen |
| RegionCascade.StaleCityExample | components/forms/RegisterForm.tsx:36-106 | India, Maharashtra, Nepal and "Mumbai" meet that run's conditions |

The tables the lookups read are constants rather than functions, so they
have no row above: `RegionCascade.Countries` (RegisterForm.tsx:36-43),
`RegionCascade.StatesByCountry` (45-89) and `RegionCascade.CitiesByState`
(91-146, held as two groups joined with `+`). `AppointmentFilter.InitialCriteria`
(FilterComponent.tsx:37-42) is the panel's starting criteria.

## Left out

- Rendering: JSX, styling and the widget components. Each dropdown is modelled by its enabled flag and its list of options.
- The form library and schema validation, and the submit handler (file upload, the registration call, navigation, date parsing).
- The commented-out second copy of the registration form at the end of `RegisterForm.tsx`: it is dead code.
- The dashboard's fetch, the patients API route and the table column definitions: network plumbing and declarations, with no logic.
- Text.ToLower: only the ASCII letters A-Z are lower-cased; JavaScript's full Unicode `toLowerCase` is not modelled.
- AppointmentFilter.FilterPanel.HandleFilterChange: the key is one of the four criteria the inputs pass. A computed key outside them, which would add a fifth property to the criteria object, is not modelled.
- Appointment `someValue` is carried as a `real`; floating-point behaviour plays no part in the filter.
- React's batching and scheduling: each handler and the effect it triggers are modelled as one atomic step.
- The dropdowns' uncontrolled `defaultValue` display: the model tracks the form's values, not what a widget shows after a reset.
- Lookups of inherited object properties such as `states["constructor"]`: only the table's own keys are modelled.
- RegionCascade.CascadeForm.SelectState and RegionCascade.CascadeForm.SelectCity: they take only values the dropdown lists. A lookup that fails throws while rendering; the model records that as `Crashed()`, and no handler runs after it.
