/**
 * properties/forms.py: the search form's field cleaning and its min/max
 * price check, the choice lists of its two select fields, and the listing
 * form's availability-date check. Prices are integer cents; the text of a
 * number field arrives already parsed (`NumberInput`), with `Malformed`
 * standing for text that is not a number.
 */
module ListingForms {
  import opened Types
  import opened Text
  import opened Calendar
  import opened Listings

  // ---------------------------------------------------------------------
  // Choice fields

  /** The stored property-type values, in declaration order. */
  function PropertyTypeValues(): (vs: seq<string>)
    ensures |vs| == |PropertyTypes|
    ensures forall i :: 0 <= i < |vs| ==> vs[i] == PropertyTypeValue(PropertyTypes[i])
  {
    seq(|PropertyTypes|, i requires 0 <= i < |PropertyTypes| => PropertyTypeValue(PropertyTypes[i]))
  }

  function RoomTypeValues(): (vs: seq<string>)
    ensures |vs| == |RoomTypes|
    ensures forall i :: 0 <= i < |vs| ==> vs[i] == RoomTypeValue(RoomTypes[i])
  {
    seq(|RoomTypes|, i requires 0 <= i < |RoomTypes| => RoomTypeValue(RoomTypes[i]))
  }

  /** The values the `property_type` select accepts: "any" (empty) and the model's types. */
  function PropertyTypeChoices(): seq<string>
  {
    [""] + PropertyTypeValues()
  }

  function RoomTypeChoices(): seq<string>
  {
    [""] + RoomTypeValues()
  }

  /** The property type a submitted value names, if any. */
  function ParsePropertyType(s: string): (t: Option<PropertyType>)
    ensures t.Some? ==> PropertyTypeValue(t.value) == s
    ensures t.None? ==> forall u :: PropertyTypeValue(u) != s
  {
    if s == "apartment" then Some(Apartment)
    else if s == "house" then Some(House)
    else if s == "condo" then Some(Condo)
    else if s == "studio" then Some(Studio)
    else if s == "dorm" then Some(Dorm)
    else if s == "shared" then Some(Shared)
    else None
  }

  function ParseRoomType(s: string): (t: Option<RoomType>)
    ensures t.Some? ==> RoomTypeValue(t.value) == s
    ensures t.None? ==> forall u :: RoomTypeValue(u) != s
  {
    if s == "single" then Some(SingleRoom)
    else if s == "double" then Some(DoubleRoom)
    else if s == "triple" then Some(TripleRoom)
    else if s == "entire" then Some(EntireUnit)
    else if s == "shared" then Some(SharedRoom)
    else None
  }

  /** Parsing a stored value gives back its enumeration value. */
  lemma ParseTypeRoundTrip(t: PropertyType, r: RoomType)
    ensures ParsePropertyType(PropertyTypeValue(t)) == Some(t)
    ensures ParseRoomType(RoomTypeValue(r)) == Some(r)
  {
    EnumerationsComplete(t, ParsePropertyType(PropertyTypeValue(t)).value,
                         r, ParseRoomType(RoomTypeValue(r)).value);
  }

  /**
   * The select lists are the empty "any" value followed by exactly the
   * model's enumerations, so a submitted value is a valid choice iff it is
   * empty or names a type.
   */
  lemma ChoicesAreEnumerations(s: string)
    ensures |PropertyTypeChoices()| == 7 && PropertyTypeChoices()[0] == ""
    ensures |RoomTypeChoices()| == 6 && RoomTypeChoices()[0] == ""
    ensures s in PropertyTypeChoices() <==> s == "" || ParsePropertyType(s).Some?
    ensures s in RoomTypeChoices() <==> s == "" || ParseRoomType(s).Some?
  {
    var pt, rt := ParsePropertyType(s), ParseRoomType(s);
    if pt.Some? {
      EnumerationsComplete(pt.value, pt.value, SingleRoom, SingleRoom);
      var i :| 0 <= i < |PropertyTypes| && PropertyTypes[i] == pt.value;
      assert PropertyTypeChoices()[i + 1] == s;
    }
    if rt.Some? {
      EnumerationsComplete(Apartment, Apartment, rt.value, rt.value);
      var i :| 0 <= i < |RoomTypes| && RoomTypes[i] == rt.value;
      assert RoomTypeChoices()[i + 1] == s;
    }
  }

  // ---------------------------------------------------------------------
  // PropertySearchForm

  /** What a number field received: nothing, a number, or text that is not one. */
  datatype NumberInput = Blank | Number(value: int) | Malformed

  /** The submitted search form. */
  datatype SearchInput = SearchInput(
    query: string,
    city: string,
    minPrice: NumberInput,       // cents
    maxPrice: NumberInput,       // cents
    propertyType: string,
    roomType: string,
    bedrooms: NumberInput,
    furnished: bool,
    petFriendly: bool,
    utilitiesIncluded: bool,
    hasParking: bool)

  /**
   * `cleaned_data` of the search form. A field that failed cleaning is
   * absent, which `cleaned_data.get` reads as `None`; an "any" choice is
   * the empty string, which is just as falsy, so both are `None` here.
   */
  datatype Criteria = Criteria(
    query: string,
    city: string,
    minPrice: Option<int>,
    maxPrice: Option<int>,
    propertyType: Option<PropertyType>,
    roomType: Option<RoomType>,
    bedrooms: Option<int>,
    furnished: bool,
    petFriendly: bool,
    utilitiesIncluded: bool,
    hasParking: bool)

  datatype SearchField = MinPriceField | MaxPriceField | BedroomsField | PropertyTypeField | RoomTypeField

  datatype SearchError =
    | NotANumber(field: SearchField)
    | BelowMinValue(field: SearchField)
    | InvalidChoice(field: SearchField)
    | MaxPriceBelowMin

  /** The errors of a number field with `min_value=0`. */
  function NumberErrors(f: SearchField, n: NumberInput): (errs: set<SearchError>)
    ensures errs == {} <==> n.Blank? || (n.Number? && n.value >= 0)
    ensures errs <= {NotANumber(f), BelowMinValue(f)}
  {
    match n
    case Blank => {}
    case Malformed => {NotANumber(f)}
    case Number(v) => if v < 0 then {BelowMinValue(f)} else {}
  }

  /** The cleaned value of a number field: present only when it cleaned. */
  function NumberValue(n: NumberInput): (v: Option<int>)
    ensures v.Some? <==> n.Number? && n.value >= 0
    ensures v.Some? ==> v.value == n.value
  {
    if n.Number? && n.value >= 0 then Some(n.value) else None
  }

  function ChoiceErrors(f: SearchField, s: string, valid: bool): (errs: set<SearchError>)
    ensures errs == {} <==> s == "" || valid
  {
    if s == "" || valid then {} else {InvalidChoice(f)}
  }

  /** Field-by-field cleaning, before the form's own `clean`. */
  function CleanFields(input: SearchInput): (r: (set<SearchError>, Criteria))
    ensures r.0 == {} <==>
      && (input.minPrice.Blank? || (input.minPrice.Number? && input.minPrice.value >= 0))
      && (input.maxPrice.Blank? || (input.maxPrice.Number? && input.maxPrice.value >= 0))
      && (input.bedrooms.Blank? || (input.bedrooms.Number? && input.bedrooms.value >= 0))
      && input.propertyType in PropertyTypeChoices()
      && input.roomType in RoomTypeChoices()
    ensures MaxPriceBelowMin !in r.0
  {
    ChoicesAreEnumerations(input.propertyType);
    ChoicesAreEnumerations(input.roomType);
    var errs :=
      NumberErrors(MinPriceField, input.minPrice)
      + NumberErrors(MaxPriceField, input.maxPrice)
      + NumberErrors(BedroomsField, input.bedrooms)
      + ChoiceErrors(PropertyTypeField, input.propertyType, ParsePropertyType(input.propertyType).Some?)
      + ChoiceErrors(RoomTypeField, input.roomType, ParseRoomType(input.roomType).Some?);
    var criteria := Criteria(
      Strip(input.query), Strip(input.city),
      NumberValue(input.minPrice), NumberValue(input.maxPrice),
      ParsePropertyType(input.propertyType), ParseRoomType(input.roomType),
      NumberValue(input.bedrooms),
      input.furnished, input.petFriendly, input.utilitiesIncluded, input.hasParking);
    (errs, criteria)
  }

  /** Python truthiness of an optional number: present and not zero. */
  predicate Truthy(n: Option<int>)
  {
    n.Some? && n.value != 0
  }

  /**
   * `PropertySearchForm.clean`: the min/max check on the cleaned values.
   * It only adds an error, and returns the cleaned data unchanged. The
   * error is reported iff both bounds were submitted as numbers, the
   * maximum is positive and the minimum exceeds it: equal bounds pass, and
   * so does a zero or absent bound.
   */
  function CleanSearch(input: SearchInput): (r: (set<SearchError>, Criteria))
    ensures r.1 == CleanFields(input).1
    ensures CleanFields(input).0 <= r.0 && r.0 - CleanFields(input).0 <= {MaxPriceBelowMin}
    ensures MaxPriceBelowMin in r.0 <==>
      input.minPrice.Number? && input.maxPrice.Number? && 0 < input.maxPrice.value < input.minPrice.value
  {
    var (errs, c) := CleanFields(input);
    if Truthy(c.minPrice) && Truthy(c.maxPrice) && c.minPrice.value > c.maxPrice.value then
      (errs + {MaxPriceBelowMin}, c)
    else
      (errs, c)
  }

  /** A negative bound or bedroom count is an error of its own field. */
  lemma NegativeNumbersRejected(input: SearchInput)
    ensures input.minPrice.Number? && input.minPrice.value < 0 ==> BelowMinValue(MinPriceField) in CleanSearch(input).0
    ensures input.maxPrice.Number? && input.maxPrice.value < 0 ==> BelowMinValue(MaxPriceField) in CleanSearch(input).0
    ensures input.bedrooms.Number? && input.bedrooms.value < 0 ==> BelowMinValue(BedroomsField) in CleanSearch(input).0
  {
  }

  /** A valid form's cleaned numbers are never negative. */
  lemma ValidSearchHasNoNegatives(input: SearchInput)
    requires CleanSearch(input).0 == {}
    ensures var c := CleanSearch(input).1;
      && (c.minPrice.Some? ==> c.minPrice.value >= 0)
      && (c.maxPrice.Some? ==> c.maxPrice.value >= 0)
      && (c.bedrooms.Some? ==> c.bedrooms.value >= 0)
      && (Truthy(c.minPrice) && Truthy(c.maxPrice) ==> c.minPrice.value <= c.maxPrice.value)
  {
  }

  // ---------------------------------------------------------------------
  // PropertyForm

  /** Field errors of the listing form are named by field; the date order has its own. */
  datatype PropertyFormError = FieldInvalid(name: string) | AvailableToBeforeFrom

  /**
   * `PropertyForm.clean`: given the field errors and the cleaned dates (a
   * date that failed cleaning is `None`), the order check adds an error
   * iff both dates are present and "to" is strictly before "from"; the
   * dates are returned unchanged.
   */
  function CleanPropertyForm(fieldErrors: set<PropertyFormError>, availableFrom: Option<Date>,
                             availableTo: Option<Date>)
    : (r: (set<PropertyFormError>, Option<Date>, Option<Date>))
    requires AvailableToBeforeFrom !in fieldErrors
    ensures r.1 == availableFrom && r.2 == availableTo
    ensures r.0 - fieldErrors <= {AvailableToBeforeFrom} && fieldErrors <= r.0
    ensures AvailableToBeforeFrom in r.0 <==>
      availableFrom.Some? && availableTo.Some? && !NotAfter(availableFrom.value, availableTo.value)
  {
    if availableTo.Some? && availableFrom.Some? && Before(availableTo.value, availableFrom.value) then
      (fieldErrors + {AvailableToBeforeFrom}, availableFrom, availableTo)
    else
      (fieldErrors, availableFrom, availableTo)
  }

  /** A listing available for a single day passes the check. */
  lemma SameDayAvailabilityPasses(d: Date)
    ensures CleanPropertyForm({}, Some(d), Some(d)).0 == {}
  {
  }
}
