/**
 * properties/views.py: the listing search of `PropertyListView.get_queryset`
 * (a chain of filters followed by an ordering), the comma-separated amenity
 * text of the create and update views, and the views that change stored
 * listings: `create_property`, the amenity part of `update_property`,
 * `delete_property` and `toggle_favorite`.
 */
module ListingViews {
  import opened Types
  import opened Text
  import opened Accounts
  import opened Decorators
  import opened Listings
  import opened ListingForms

  // ---------------------------------------------------------------------
  // The filters of get_queryset

  /** One `queryset.filter(...)` refinement; `Unfiltered` is a skipped one. */
  datatype Filter =
    | Unfiltered
    | ActiveOnly
    | QueryAnywhere(query: string)
    | CityContains(city: string)
    | PriceAtLeast(min: int)
    | PriceAtMost(max: int)
    | TypeIs(propertyType: PropertyType)
    | RoomIs(roomType: RoomType)
    | BedroomsAre(bedrooms: int)
    | FurnishedOnly
    | PetFriendlyOnly
    | UtilitiesIncludedOnly
    | ParkingOnly

  /** The free-text query: any of five fields contains it, ignoring case. */
  predicate MatchesQuery(p: Property, q: string)
  {
    || ContainsIgnoringCase(p.title, q)
    || ContainsIgnoringCase(p.description, q)
    || ContainsIgnoringCase(p.address, q)
    || ContainsIgnoringCase(p.city, q)
    || ContainsIgnoringCase(p.nearestUniversity, q)
  }

  predicate Holds(p: Property, f: Filter)
  {
    match f
    case Unfiltered => true
    case ActiveOnly => p.isActive
    case QueryAnywhere(q) => MatchesQuery(p, q)
    case CityContains(c) => ContainsIgnoringCase(p.city, c)
    case PriceAtLeast(v) => p.pricePerMonth >= v
    case PriceAtMost(v) => p.pricePerMonth <= v
    case TypeIs(t) => p.propertyType == t
    case RoomIs(r) => p.roomType == r
    case BedroomsAre(n) => p.bedrooms == n
    case FurnishedOnly => p.furnished
    case PetFriendlyOnly => p.petFriendly
    case UtilitiesIncludedOnly => p.utilitiesIncluded
    case ParkingOnly => p.hasParking
  }

  /** `queryset.filter(f)`: the rows satisfying `f`, in their order. */
  function Where(ps: seq<Property>, f: Filter): (r: seq<Property>)
    ensures forall p :: p in r <==> p in ps && Holds(p, f)
    ensures multiset(r) <= multiset(ps)
  {
    if ps == [] then []
    else
      assert ps == [ps[0]] + ps[1..];
      (if Holds(ps[0], f) then [ps[0]] else []) + Where(ps[1..], f)
  }

  /** `p` passes every filter of `fs`. */
  predicate AllHold(p: Property, fs: seq<Filter>)
  {
    forall i :: 0 <= i < |fs| ==> Holds(p, fs[i])
  }

  /** Successive refinements, applied in order. */
  function ApplyFilters(ps: seq<Property>, fs: seq<Filter>): (r: seq<Property>)
    ensures forall p :: p in r <==> p in ps && AllHold(p, fs)
    ensures multiset(r) <= multiset(ps)
    decreases |fs|
  {
    if fs == [] then ps
    else
      var r := ApplyFilters(Where(ps, fs[0]), fs[1..]);
      assert forall p :: AllHold(p, fs) <==> Holds(p, fs[0]) && AllHold(p, fs[1..]) by {
        forall p
          ensures AllHold(p, fs) <==> Holds(p, fs[0]) && AllHold(p, fs[1..])
        {
          AllHoldSplit(p, fs);
        }
      }
      r
  }

  /** Passing a chain is passing its first filter and then the rest. */
  lemma AllHoldSplit(p: Property, fs: seq<Filter>)
    requires fs != []
    ensures AllHold(p, fs) <==> Holds(p, fs[0]) && AllHold(p, fs[1..])
  {
    if Holds(p, fs[0]) && AllHold(p, fs[1..]) {
      forall i | 1 <= i < |fs|
        ensures Holds(p, fs[i])
      {
        assert fs[i] == fs[1..][i - 1];
      }
    }
  }

  /** A refinement that applies only when its criterion is truthy. */
  function When(truthy: bool, f: Filter): Filter
  {
    if truthy then f else Unfiltered
  }

  /**
   * The filters `get_queryset` chains for valid cleaned data, in its order:
   * the base `is_active` filter, then one refinement per criterion, which
   * leaves the rows as they are when its value is falsy.
   */
  function SearchFilters(c: Criteria): (fs: seq<Filter>)
    ensures |fs| == 12
  {
    seq(12, i requires 0 <= i < 12 => FilterAt(c, i))
  }

  /** The `i`-th filter of the chain. */
  function FilterAt(c: Criteria, i: nat): Filter
    requires i < 12
  {
    match i
    case 0 => ActiveOnly
    case 1 => When(c.query != "", QueryAnywhere(c.query))
    case 2 => When(c.city != "", CityContains(c.city))
    case 3 => When(Truthy(c.minPrice), PriceAtLeast(if c.minPrice.Some? then c.minPrice.value else 0))
    case 4 => When(Truthy(c.maxPrice), PriceAtMost(if c.maxPrice.Some? then c.maxPrice.value else 0))
    case 5 => When(c.propertyType.Some?, TypeIs(if c.propertyType.Some? then c.propertyType.value else Apartment))
    case 6 => When(c.roomType.Some?, RoomIs(if c.roomType.Some? then c.roomType.value else SingleRoom))
    case 7 => When(Truthy(c.bedrooms), BedroomsAre(if c.bedrooms.Some? then c.bedrooms.value else 0))
    case 8 => When(c.furnished, FurnishedOnly)
    case 9 => When(c.petFriendly, PetFriendlyOnly)
    case 10 => When(c.utilitiesIncluded, UtilitiesIncludedOnly)
    case _ => When(c.hasParking, ParkingOnly)
  }

  /** `Unfiltered` keeps every row, so a skipped refinement changes nothing. */
  lemma {:induction false} UnfilteredKeepsAll(ps: seq<Property>)
    ensures Where(ps, Unfiltered) == ps
  {
    if ps != [] {
      assert Where(ps, Unfiltered) == [ps[0]] + Where(ps[1..], Unfiltered);
      UnfilteredKeepsAll(ps[1..]);
      assert ps == [ps[0]] + ps[1..];
    }
  }

  /**
   * What the search asks of a listing, stated as one conjunction: active,
   * and each criterion satisfied when it is truthy. Price bounds are
   * inclusive, and a flag can only require `true`.
   */
  predicate Matches(p: Property, c: Criteria)
  {
    && p.isActive
    && (c.query != "" ==> MatchesQuery(p, c.query))
    && (c.city != "" ==> ContainsIgnoringCase(p.city, c.city))
    && (Truthy(c.minPrice) ==> c.minPrice.value <= p.pricePerMonth)
    && (Truthy(c.maxPrice) ==> p.pricePerMonth <= c.maxPrice.value)
    && (c.propertyType.Some? ==> p.propertyType == c.propertyType.value)
    && (c.roomType.Some? ==> p.roomType == c.roomType.value)
    && (Truthy(c.bedrooms) ==> p.bedrooms == c.bedrooms.value)
    && (c.furnished ==> p.furnished)
    && (c.petFriendly ==> p.petFriendly)
    && (c.utilitiesIncluded ==> p.utilitiesIncluded)
    && (c.hasParking ==> p.hasParking)
  }

  /** A listing passing every filter of the chain matches the criteria. */
  lemma RefinementsSound(p: Property, c: Criteria)
    requires AllHold(p, SearchFilters(c))
    ensures Matches(p, c)
  {
    var fs := SearchFilters(c);
    forall i | 0 <= i < 12
      ensures Holds(p, FilterAt(c, i))
    {
      assert fs[i] == FilterAt(c, i);
    }
    SoundTextFilters(p, c);
    SoundNumberFilters(p, c);
    SoundFlagFilters(p, c);
  }

  lemma SoundTextFilters(p: Property, c: Criteria)
    requires Holds(p, FilterAt(c, 0)) && Holds(p, FilterAt(c, 1)) && Holds(p, FilterAt(c, 2))
    ensures p.isActive
    ensures c.query != "" ==> MatchesQuery(p, c.query)
    ensures c.city != "" ==> ContainsIgnoringCase(p.city, c.city)
  {
  }

  lemma SoundNumberFilters(p: Property, c: Criteria)
    requires Holds(p, FilterAt(c, 3)) && Holds(p, FilterAt(c, 4)) && Holds(p, FilterAt(c, 5))
    requires Holds(p, FilterAt(c, 6)) && Holds(p, FilterAt(c, 7))
    ensures Truthy(c.minPrice) ==> c.minPrice.value <= p.pricePerMonth
    ensures Truthy(c.maxPrice) ==> p.pricePerMonth <= c.maxPrice.value
    ensures c.propertyType.Some? ==> p.propertyType == c.propertyType.value
    ensures c.roomType.Some? ==> p.roomType == c.roomType.value
    ensures Truthy(c.bedrooms) ==> p.bedrooms == c.bedrooms.value
  {
  }

  lemma SoundFlagFilters(p: Property, c: Criteria)
    requires Holds(p, FilterAt(c, 8)) && Holds(p, FilterAt(c, 9))
    requires Holds(p, FilterAt(c, 10)) && Holds(p, FilterAt(c, 11))
    ensures c.furnished ==> p.furnished
    ensures c.petFriendly ==> p.petFriendly
    ensures c.utilitiesIncluded ==> p.utilitiesIncluded
    ensures c.hasParking ==> p.hasParking
  {
  }

  /** A listing that matches the criteria passes every filter of the chain. */
  lemma RefinementsComplete(p: Property, c: Criteria)
    requires Matches(p, c)
    ensures AllHold(p, SearchFilters(c))
  {
    forall i | 0 <= i < 12
      ensures Holds(p, FilterAt(c, i))
    {
      MatchedFilterHolds(p, c, i);
    }
  }

  /** Each filter of the chain, one at a time, holds of a matching listing. */
  lemma MatchedFilterHolds(p: Property, c: Criteria, i: nat)
    requires Matches(p, c) && i < 12
    ensures Holds(p, FilterAt(c, i))
  {
    if i == 0 {
    } else if i == 1 {
      assert c.query != "" ==> MatchesQuery(p, c.query);
    } else if i == 2 {
      assert c.city != "" ==> ContainsIgnoringCase(p.city, c.city);
    } else if i == 3 {
    } else if i == 4 {
    } else if i == 5 {
    } else if i == 6 {
    } else if i == 7 {
    } else if i == 8 {
    } else if i == 9 {
    } else if i == 10 {
    } else {
    }
  }

  // ---------------------------------------------------------------------
  // order_by('-is_verified', '-created_at')

  /** `a` may be listed before `b`: verified first, then newer first. */
  predicate ListedBefore(a: Property, b: Property)
  {
    (a.isVerified && !b.isVerified) || (a.isVerified == b.isVerified && a.createdAt >= b.createdAt)
  }

  predicate Ordered(s: seq<Property>)
  {
    forall i, j :: 0 <= i < j < |s| ==> ListedBefore(s[i], s[j])
  }

  function Insert(p: Property, s: seq<Property>): (r: seq<Property>)
    ensures multiset(r) == multiset(s) + multiset{p}
  {
    if s == [] then [p]
    else if ListedBefore(p, s[0]) then [p] + s
    else
      assert s == [s[0]] + s[1..];
      [s[0]] + Insert(p, s[1..])
  }

  lemma {:induction false} InsertOrdered(p: Property, s: seq<Property>)
    requires Ordered(s)
    ensures Ordered(Insert(p, s))
  {
    if s != [] && !ListedBefore(p, s[0]) {
      var rest := Insert(p, s[1..]);
      InsertOrdered(p, s[1..]);
      assert s == [s[0]] + s[1..];
      forall q | q in rest
        ensures ListedBefore(s[0], q)
      {
        assert q in multiset(rest);
        if q != p {
          assert q in s[1..];
        }
      }
      assert Insert(p, s) == [s[0]] + rest;
      OrderedCons(s[0], rest);
    }
  }

  /** A row listed before every row of an ordered sequence can lead it. */
  lemma OrderedCons(x: Property, t: seq<Property>)
    requires Ordered(t)
    requires forall q | q in t :: ListedBefore(x, q)
    ensures Ordered([x] + t)
  {
    var r := [x] + t;
    forall i, j | 0 <= i < j < |r|
      ensures ListedBefore(r[i], r[j])
    {
      ConsIndex(x, t, j - 1);
      if i > 0 {
        ConsIndex(x, t, i - 1);
      }
    }
  }

  lemma ConsIndex<T>(x: T, t: seq<T>, k: int)
    requires 0 <= k < |t|
    ensures ([x] + t)[k + 1] == t[k]
  {
  }

  /** The ordering the database applies; rows with equal keys keep their order. */
  function OrderListings(s: seq<Property>): (r: seq<Property>)
    ensures multiset(r) == multiset(s)
  {
    if s == [] then []
    else
      assert s == [s[0]] + s[1..];
      Insert(s[0], OrderListings(s[1..]))
  }

  lemma {:induction false} OrderListingsOrdered(s: seq<Property>)
    ensures Ordered(OrderListings(s))
  {
    if s != [] {
      OrderListingsOrdered(s[1..]);
      InsertOrdered(s[0], OrderListings(s[1..]));
    }
  }

  // ---------------------------------------------------------------------
  // get_queryset

  /**
   * The listing search: the active listings, refined by the cleaned
   * criteria only when the form is valid, then ordered.
   */
  function Search(ps: seq<Property>, input: SearchInput): (r: seq<Property>)
    ensures multiset(r) <= multiset(ps)
  {
    var (errs, c) := CleanSearch(input);
    Results(ps, errs == {}, c)
  }

  /** The ordered rows for the cleaned data: refined only when the form is valid. */
  function Results(ps: seq<Property>, valid: bool, c: Criteria): seq<Property>
  {
    OrderListings(ApplyFilters(ps, if valid then SearchFilters(c) else [ActiveOnly]))
  }

  /**
   * A valid search returns exactly the matching listings; an invalid one
   * (for instance a minimum above the maximum) returns every active
   * listing, with no error result. Either way the result is ordered.
   */
  lemma SearchMembership(ps: seq<Property>, input: SearchInput, p: Property)
    ensures p in Search(ps, input) <==>
      p in ps && (if CleanSearch(input).0 == {} then Matches(p, CleanSearch(input).1) else p.isActive)
    ensures Ordered(Search(ps, input))
    ensures multiset(Search(ps, input)) <= multiset(ps)
  {
    ResultsMembership(ps, CleanSearch(input).0 == {}, CleanSearch(input).1, p);
  }

  /** Membership, order and multiplicity of the rows for given cleaned data. */
  lemma ResultsMembership(ps: seq<Property>, valid: bool, c: Criteria, p: Property)
    ensures p in Results(ps, valid, c) <==> p in ps && (if valid then Matches(p, c) else p.isActive)
    ensures Ordered(Results(ps, valid, c))
    ensures multiset(Results(ps, valid, c)) <= multiset(ps)
  {
    var fs := if valid then SearchFilters(c) else [ActiveOnly];
    var filtered := ApplyFilters(ps, fs);
    assert p in Results(ps, valid, c) <==> p in multiset(filtered);
    if valid {
      if Matches(p, c) {
        RefinementsComplete(p, c);
      }
      if AllHold(p, fs) {
        RefinementsSound(p, c);
      }
    } else {
      assert AllHold(p, fs) <==> Holds(p, fs[0]);
    }
    OrderListingsOrdered(filtered);
  }

  /** Every search result is an active listing. */
  lemma SearchResultsActive(ps: seq<Property>, input: SearchInput)
    ensures forall p :: p in Search(ps, input) ==> p.isActive
  {
    forall p | p in Search(ps, input)
      ensures p.isActive
    {
      SearchMembership(ps, input, p);
    }
  }

  /** An invalid form lists every active listing, each as often as it is stored. */
  /** `filter` keeps every copy of a row that satisfies it, and no copy of any other. */
  lemma {:induction false} WhereCount(ps: seq<Property>, f: Filter, p: Property)
    ensures multiset(Where(ps, f))[p] == if Holds(p, f) then multiset(ps)[p] else 0
  {
    if ps != [] {
      WhereCount(ps[1..], f, p);
      HeadAndTail(ps);
      assert multiset(ps) == multiset([ps[0]]) + multiset(ps[1..]);
    }
  }

  /** A chain of filters keeps every copy of a row that passes all of them, and no other. */
  lemma {:induction false} ApplyFiltersCount(ps: seq<Property>, fs: seq<Filter>, p: Property)
    ensures multiset(ApplyFilters(ps, fs))[p] == if AllHold(p, fs) then multiset(ps)[p] else 0
    decreases |fs|
  {
    if fs != [] {
      ApplyFiltersCount(Where(ps, fs[0]), fs[1..], p);
      WhereCount(ps, fs[0], p);
      AllHoldSplit(p, fs);
    }
  }

  /**
   * Each row occurs in the search results exactly as often as it is stored
   * when it qualifies, and not at all otherwise.
   */
  lemma SearchCount(ps: seq<Property>, input: SearchInput, p: Property)
    ensures multiset(Search(ps, input))[p] ==
      if (if CleanSearch(input).0 == {} then Matches(p, CleanSearch(input).1) else p.isActive)
      then multiset(ps)[p] else 0
  {
    ResultsCount(ps, CleanSearch(input).0 == {}, CleanSearch(input).1, p);
  }

  lemma ResultsCount(ps: seq<Property>, valid: bool, c: Criteria, p: Property)
    ensures multiset(Results(ps, valid, c))[p] ==
      if (if valid then Matches(p, c) else p.isActive) then multiset(ps)[p] else 0
  {
    var fs := if valid then SearchFilters(c) else [ActiveOnly];
    ApplyFiltersCount(ps, fs, p);
    if valid {
      if Matches(p, c) {
        RefinementsComplete(p, c);
      }
      if AllHold(p, fs) {
        RefinementsSound(p, c);
      }
    } else {
      assert AllHold(p, fs) <==> Holds(p, fs[0]);
    }
  }

  lemma InvalidSearchListsEveryActive(ps: seq<Property>, input: SearchInput)
    requires CleanSearch(input).0 != {}
    ensures multiset(Search(ps, input)) == multiset(Where(ps, ActiveOnly))
  {
    UnrefinedResults(ps, CleanSearch(input).1);
  }

  lemma UnrefinedResults(ps: seq<Property>, c: Criteria)
    ensures multiset(Results(ps, false, c)) == multiset(Where(ps, ActiveOnly))
  {
    var fs: seq<Filter> := [ActiveOnly];
    assert fs[1..] == [];
    assert ApplyFilters(ps, fs) == Where(ps, ActiveOnly);
  }

  /** A zero bound, a zero bedroom count, empty text and unset flags add no refinement. */
  lemma FalsyCriteriaAddNothing(c: Criteria)
    requires c.query == "" && c.city == "" && !Truthy(c.minPrice) && !Truthy(c.maxPrice)
    requires c.propertyType.None? && c.roomType.None? && !Truthy(c.bedrooms)
    requires !c.furnished && !c.petFriendly && !c.utilitiesIncluded && !c.hasParking
    ensures forall i :: 1 <= i < |SearchFilters(c)| ==> SearchFilters(c)[i] == Unfiltered
    ensures forall p :: Matches(p, c) <==> p.isActive
  {
  }

  // ---------------------------------------------------------------------
  // Amenity text: [a.strip() for a in text.split(',') if a.strip()]

  /** Strips each piece and drops the blank ones, keeping their order. */
  function CleanPieces(pieces: seq<string>): (names: seq<string>)
    ensures |names| <= |pieces|
    ensures forall i :: 0 <= i < |names| ==> names[i] != "" && IsStripped(names[i])
  {
    if pieces == [] then []
    else
      var s := Strip(pieces[0]);
      (if s == "" then [] else [s]) + CleanPieces(pieces[1..])
  }

  /** Stripping removes characters only, so comma-free pieces give comma-free names. */
  lemma {:induction false} CleanPiecesHaveNoComma(pieces: seq<string>)
    requires forall q :: q in pieces ==> ',' !in q
    ensures forall n :: n in CleanPieces(pieces) ==> ',' !in n
  {
    if pieces != [] {
      var s := Strip(pieces[0]);
      assert ',' !in s by {
        var i, j :| 0 <= i <= j <= |pieces[0]| && s == pieces[0][i..j];
        assert ',' !in pieces[0];
      }
      assert CleanPieces(pieces) == (if s == "" then [] else [s]) + CleanPieces(pieces[1..]);
      CleanPiecesHaveNoComma(pieces[1..]);
    }
  }

  /** Cleaning a run of pieces cleans each piece on its own and keeps their order. */
  lemma {:induction false} CleanPiecesAppend(a: seq<string>, b: seq<string>)
    ensures CleanPieces(a + b) == CleanPieces(a) + CleanPieces(b)
  {
    if a == [] {
      assert a + b == b;
    } else {
      var s := Strip(a[0]);
      var head := if s == "" then [] else [s];
      CleanPiecesAppend(a[1..], b);
      ConsAppend(a, b);
      CleanPiecesCons(a[0], a[1..] + b);
      HeadAndTail(a);
      CleanPiecesCons(a[0], a[1..]);
      AppendAssoc(head, CleanPieces(a[1..]), CleanPieces(b));
    }
  }

  /** One piece gives its stripped text, or nothing when it is blank. */
  lemma CleanSinglePiece(piece: string)
    ensures CleanPieces([piece]) == if Strip(piece) == "" then [] else [Strip(piece)]
  {
    CleanPiecesCons(piece, []);
    assert [piece] + [] == [piece];
  }

  /** A name is kept iff it is the non-blank strip of some piece. */
  lemma {:induction false} CleanPiecesMembership(pieces: seq<string>, n: string)
    ensures n in CleanPieces(pieces) <==> n != "" && exists q :: q in pieces && Strip(q) == n
  {
    if pieces != [] {
      var rest := pieces[1..];
      HeadAndTail(pieces);
      CleanPiecesCons(pieces[0], rest);
      CleanPiecesMembership(rest, n);
      if n != "" && Strip(pieces[0]) != n && exists q :: q in pieces && Strip(q) == n {
        var q :| q in pieces && Strip(q) == n;
        assert q in rest;
      }
    }
  }

  function ParseAmenities(text: string): (names: seq<string>)
    ensures forall i :: 0 <= i < |names| ==> names[i] != "" && IsStripped(names[i]) && ',' !in names[i]
  {
    var pieces := Split(text, ',');
    CleanPiecesHaveNoComma(pieces);
    CleanPieces(pieces)
  }

  /** Every amenity name is a non-empty, stripped text without a comma. */
  predicate AmenityName(n: string)
  {
    n != "" && IsStripped(n) && ',' !in n
  }

  /** The pieces `Split` finds in `lead + ", ".join(names)`. */
  function JoinedPieces(lead: string, names: seq<string>): seq<string>
    requires names != []
    decreases |names|
  {
    if |names| == 1 then [lead + names[0]]
    else [lead + names[0]] + JoinedPieces(" ", names[1..])
  }

  lemma {:induction false} SplitJoined(lead: string, names: seq<string>)
    requires names != [] && ',' !in lead
    requires forall i :: 0 <= i < |names| ==> ',' !in names[i]
    ensures Split(lead + Join(names, ", "), ',') == JoinedPieces(lead, names)
    decreases |names|
  {
    if |names| == 1 {
      SplitNoSeparator(lead + names[0], ',');
    } else {
      var rest := Join(names[1..], ", ");
      assert lead + Join(names, ", ") == (lead + names[0]) + [','] + (" " + rest);
      SplitAfterPiece(lead + names[0], ',', " " + rest);
      SplitJoined(" ", names[1..]);
    }
  }

  lemma {:induction false} CleanJoinedPieces(lead: string, names: seq<string>)
    requires names != [] && (lead == "" || lead == " ")
    requires forall i :: 0 <= i < |names| ==> AmenityName(names[i])
    ensures CleanPieces(JoinedPieces(lead, names)) == names
    decreases |names|
  {
    var first := lead + names[0];
    FirstPieceStrips(lead, names[0]);
    var rest := if |names| == 1 then [] else JoinedPieces(" ", names[1..]);
    assert JoinedPieces(lead, names) == [first] + rest;
    CleanPiecesCons(first, rest);
    if |names| > 1 {
      CleanJoinedPieces(" ", names[1..]);
    } else {
      assert rest == [] && names[1..] == [];
    }
    HeadAndTail(names);
  }

  /** Appending to a non-empty sequence appends to its tail. */
  lemma ConsAppend<T>(a: seq<T>, b: seq<T>)
    requires a != []
    ensures a + b == [a[0]] + (a[1..] + b)
  {
  }

  lemma AppendAssoc<T>(a: seq<T>, b: seq<T>, c: seq<T>)
    ensures (a + b) + c == a + (b + c)
  {
  }

  /** A non-empty sequence is its head followed by its tail. */
  lemma HeadAndTail<T>(s: seq<T>)
    requires s != []
    ensures [s[0]] + s[1..] == s
  {
  }

  /** The first piece of a joined text strips back to the first name. */
  lemma FirstPieceStrips(lead: string, name: string)
    requires lead == "" || lead == " "
    requires AmenityName(name)
    ensures Strip(lead + name) == name
  {
    if lead == "" {
      assert lead + name == name;
      StripStripped(name);
    } else {
      StripLeadingBlank(name);
    }
  }

  /** Cleaning pieces is cleaning the first one, then the rest. */
  lemma CleanPiecesCons(first: string, rest: seq<string>)
    ensures CleanPieces([first] + rest) == (if Strip(first) == "" then [] else [Strip(first)]) + CleanPieces(rest)
  {
    assert ([first] + rest)[1..] == rest;
  }

  /**
   * The update page shows the stored amenities joined by ", "; submitting
   * that text unchanged stores the same names again, in the same order.
   */
  lemma ParseJoinedAmenities(names: seq<string>)
    requires forall i :: 0 <= i < |names| ==> AmenityName(names[i])
    ensures ParseAmenities(Join(names, ", ")) == names
  {
    if names != [] {
      SplitJoined("", names);
      assert "" + Join(names, ", ") == Join(names, ", ");
      CleanJoinedPieces("", names);
    } else {
      assert Split("", ',') == [""];
    }
  }

  /** Parsing is stable: the parsed names, joined and parsed again, are the same names. */
  lemma ParseAmenitiesStable(text: string)
    ensures ParseAmenities(Join(ParseAmenities(text), ", ")) == ParseAmenities(text)
  {
    ParseJoinedAmenities(ParseAmenities(text));
  }

  /**
   * The text up to the first comma gives the first name (or nothing when
   * that piece is blank), and the rest of the text gives the others.
   */
  lemma ParseAmenitiesAfterPiece(piece: string, rest: string)
    requires ',' !in piece
    ensures ParseAmenities(piece + [','] + rest) ==
      (if Strip(piece) == "" then [] else [Strip(piece)]) + ParseAmenities(rest)
  {
    SplitAfterPiece(piece, ',', rest);
    CleanPiecesCons(piece, Split(rest, ','));
  }

  /** A blank piece between two commas adds no name: "a, ,b" parses as "a,b". */
  lemma ParseAmenitiesSkipsBlankPiece(piece: string, blank: string, rest: string)
    requires ',' !in piece && ',' !in blank && Strip(blank) == ""
    ensures ParseAmenities(piece + [','] + (blank + [','] + rest)) == ParseAmenities(piece + [','] + rest)
  {
    var names := ParseAmenities(rest);
    ParseAmenitiesAfterPiece(blank, rest);
    assert ParseAmenities(blank + [','] + rest) == [] + names;
    EmptyPrefix(names);
    ParseAmenitiesAfterPiece(piece, blank + [','] + rest);
    ParseAmenitiesAfterPiece(piece, rest);
  }

  lemma EmptyPrefix<T>(s: seq<T>)
    ensures [] + s == s
  {
  }

  /** A text without commas is one amenity, stripped, or none when blank. */
  lemma ParseSingleAmenity(text: string)
    requires ',' !in text
    ensures ParseAmenities(text) == if Strip(text) == "" then [] else [Strip(text)]
  {
    SplitNoSeparator(text, ',');
  }

  // ---------------------------------------------------------------------
  // Stored listings, favourites and amenities

  /** The users who favourited property `pid`. */
  function Fans(favorites: set<(UserId, PropertyId)>, pid: PropertyId): set<UserId>
  {
    set f | f in favorites && f.1 == pid :: f.0
  }

  /**
   * `toggle_favorite`'s POST branch on a favourite table and a property:
   * add the pair and count one more, or remove it and count one less.
   */
  function Toggle(favorites: set<(UserId, PropertyId)>, user: UserId, p: Property)
    : (r: (set<(UserId, PropertyId)>, Property))
    ensures (user, p.id) in r.0 <==> (user, p.id) !in favorites
    ensures r.0 - {(user, p.id)} == favorites - {(user, p.id)}
    ensures r.1 == p.(favoriteCount := r.1.favoriteCount)
  {
    if (user, p.id) !in favorites then (favorites + {(user, p.id)}, p.(favoriteCount := p.favoriteCount + 1))
    else (favorites - {(user, p.id)}, p.(favoriteCount := p.favoriteCount - 1))
  }

  /** Toggling twice restores both the table and the property. */
  lemma ToggleTwiceRestores(favorites: set<(UserId, PropertyId)>, user: UserId, p: Property)
    ensures var (f1, p1) := Toggle(favorites, user, p);
      Toggle(f1, user, p1) == (favorites, p)
  {
    var (f1, p1) := Toggle(favorites, user, p);
    if (user, p.id) !in favorites {
      assert f1 - {(user, p.id)} == favorites;
    } else {
      assert f1 + {(user, p.id)} == favorites;
    }
  }

  /**
   * A toggle changes only the toggling user's favourite of that property,
   * and keeps the count equal to the number of users who favourited it.
   */
  lemma ToggleKeepsCount(favorites: set<(UserId, PropertyId)>, user: UserId, p: Property, other: PropertyId)
    requires p.favoriteCount == |Fans(favorites, p.id)|
    ensures var (f1, p1) := Toggle(favorites, user, p);
      && p1 == p.(favoriteCount := p1.favoriteCount)
      && p1.favoriteCount == |Fans(f1, p.id)|
      && (other != p.id ==> Fans(f1, other) == Fans(favorites, other))
      && (user in Fans(f1, p.id) <==> user !in Fans(favorites, p.id))
  {
    var (f1, p1) := Toggle(favorites, user, p);
    if (user, p.id) !in favorites {
      assert Fans(f1, p.id) == Fans(favorites, p.id) + {user};
      assert user !in Fans(favorites, p.id);
    } else {
      assert Fans(f1, p.id) == Fans(favorites, p.id) - {user};
    }
    assert other != p.id ==> Fans(f1, other) == Fans(favorites, other);
  }

  /** `login_required`, the lookup of an active listing, then the method. */
  function FavoriteDecision(user: User, found: bool, m: Method): (r: Response)
    ensures r == Done <==> user.isAuthenticated && found && m.Post?
    ensures !user.isAuthenticated ==> r == ToLogin
    ensures r == NotFound <==> user.isAuthenticated && !found
  {
    if LoginRequired(user) != Invoke then LoginRequired(user).response
    else if !found then NotFound
    else if m.Get? then Unchanged
    else Done
  }

  /**
   * The landlord views on an existing listing: the landlord gate, the
   * lookup filtered by `landlord=request.user`, then a page on GET or on an
   * invalid form, and the change otherwise.
   */
  function OwnerDecision(user: User, owned: bool, m: Method, formValid: bool): (r: Response)
    ensures LandlordRequired(user) != Invoke ==> r == LandlordRequired(user).response
    ensures r == NotFound <==> LandlordRequired(user) == Invoke && !owned
    ensures r == Done <==> LandlordRequired(user) == Invoke && owned && m.Post? && formValid
  {
    if LandlordRequired(user) != Invoke then LandlordRequired(user).response
    else if !owned then NotFound
    else if m.Get? || !formValid then Rendered
    else Done
  }

  /**
   * A listing as `create_property` saves it: the form's fields, the
   * requesting landlord, and the model defaults for the fields the form
   * does not carry (unverified, active, no favourites).
   */
  function NewListing(fields: Property, id: PropertyId, landlord: UserId, now: Time): (p: Property)
    ensures p.id == id && p.landlord == landlord && p.createdAt == now
    ensures !p.isVerified && p.isActive && p.favoriteCount == 0
    ensures SameFormFields(p, fields)
  {
    fields.(id := id, landlord := landlord, isVerified := false, isActive := true, favoriteCount := 0,
            createdAt := now)
  }

  /** `p` and `q` agree on every field `PropertyForm` edits. */
  predicate SameFormFields(p: Property, q: Property)
  {
    && p.title == q.title && p.description == q.description
    && p.propertyType == q.propertyType && p.roomType == q.roomType
    && p.address == q.address && p.city == q.city && p.nearestUniversity == q.nearestUniversity
    && p.pricePerMonth == q.pricePerMonth && p.bedrooms == q.bedrooms
    && p.furnished == q.furnished && p.hasKitchen == q.hasKitchen && p.hasLaundry == q.hasLaundry
    && p.hasParking == q.hasParking && p.hasGym == q.hasGym && p.hasPool == q.hasPool
    && p.petFriendly == q.petFriendly && p.utilitiesIncluded == q.utilitiesIncluded
    && p.wifiIncluded == q.wifiIncluded
    && p.availableFrom == q.availableFrom && p.availableTo == q.availableTo
  }

  /**
   * A stored listing after `form.save()` on it: the submitted form fields,
   * with the id, owner, status flags, favourite count and creation instant
   * that the form does not carry kept as they were.
   */
  function EditedListing(stored: Property, fields: Property): (p: Property)
    ensures SameFormFields(p, fields)
    ensures p.id == stored.id && p.landlord == stored.landlord && p.createdAt == stored.createdAt
    ensures p.isVerified == stored.isVerified && p.isActive == stored.isActive
    ensures p.favoriteCount == stored.favoriteCount
  {
    fields.(id := stored.id, landlord := stored.landlord, isVerified := stored.isVerified,
            isActive := stored.isActive, favoriteCount := stored.favoriteCount, createdAt := stored.createdAt)
  }

  /** The amenity names a saved amenities field produces: none when it is blank. */
  function SubmittedAmenities(text: string): (names: seq<string>)
    ensures Strip(text) == "" ==> names == []
  {
    var t := Strip(text);
    if t == "" then [] else ParseAmenities(t)
  }

  class ListingStore {
    var properties: map<PropertyId, Property>
    var favorites: set<(UserId, PropertyId)>
    var amenities: map<PropertyId, seq<string>>

    /**
     * Every listing is stored under its own id, its favourite count is the
     * number of users who favourited it, and favourites name stored listings.
     */
    ghost predicate Valid()
      reads this
    {
      && (forall id | id in properties ::
            properties[id].id == id && properties[id].favoriteCount == |Fans(favorites, id)|)
      && (forall f | f in favorites :: f.1 in properties)
    }

    constructor ()
      ensures properties == map[] && favorites == {} && amenities == map[]
      ensures Valid()
    {
      properties := map[];
      favorites := {};
      amenities := map[];
    }

    /** The amenity names of a listing, none when it has no rows. */
    function AmenitiesOf(pid: PropertyId): (names: seq<string>)
      reads this
      ensures pid !in amenities ==> names == []
    {
      if pid in amenities then amenities[pid] else []
    }

    /**
     * `toggle_favorite`: on POST for a stored active listing, the user's
     * favourite is added or removed and the count follows; nothing else
     * changes.
     */
    method ToggleFavorite(user: User, pid: PropertyId, m: Method) returns (resp: Response)
      requires Valid()
      modifies this
      ensures Valid()
      ensures resp == FavoriteDecision(user, pid in old(properties) && old(properties)[pid].isActive, m)
      ensures resp == Done ==> pid in properties && pid in old(properties)
      ensures resp == Done && pid in old(properties) ==>
        && (favorites, properties[pid]) == Toggle(old(favorites), user.id, old(properties)[pid])
        && properties == old(properties)[pid := properties[pid]]
      ensures resp != Done ==> favorites == old(favorites) && properties == old(properties)
      ensures amenities == old(amenities)
    {
      resp := FavoriteDecision(user, pid in properties && properties[pid].isActive, m);
      if resp == Done {
        var p := properties[pid];
        forall id | id in properties && id != pid
          ensures properties[id].favoriteCount == |Fans(Toggle(favorites, user.id, p).0, id)|
        {
          ToggleKeepsCount(favorites, user.id, p, id);
        }
        ToggleKeepsCount(favorites, user.id, p, pid);
        var (f1, p1) := Toggle(favorites, user.id, p);
        favorites := f1;
        properties := properties[pid := p1];
      }
    }

    /** `delete_property`: on POST the owner's listing becomes inactive and nothing else changes. */
    method DeleteProperty(user: User, pid: PropertyId, m: Method) returns (resp: Response)
      requires Valid()
      modifies this
      ensures Valid()
      ensures resp == OwnerDecision(user, pid in old(properties) && old(properties)[pid].landlord == user.id, m, true)
      ensures resp == Done ==> pid in old(properties)
      ensures resp == Done && pid in old(properties) ==>
        properties == old(properties)[pid := old(properties)[pid].(isActive := false)]
      ensures resp != Done ==> properties == old(properties)
      ensures favorites == old(favorites) && amenities == old(amenities)
    {
      resp := OwnerDecision(user, pid in properties && properties[pid].landlord == user.id, m, true);
      if resp == Done {
        properties := properties[pid := properties[pid].(isActive := false)];
      }
    }

    /**
     * `create_property`: a valid POST stores a new listing owned by the
     * requesting landlord, and one amenity row per name in the amenities
     * field. Uploaded images are not modelled.
     */
    method CreateProperty(user: User, m: Method, formValid: bool, fields: Property, amenitiesText: string,
                          newId: PropertyId, now: Time)
      returns (resp: Response)
      requires Valid() && newId !in properties
      modifies this
      ensures Valid()
      ensures resp == OwnerDecision(user, true, m, formValid)
      ensures resp == Done ==>
        && properties == old(properties)[newId := NewListing(fields, newId, user.id, now)]
        && amenities == old(amenities)[newId := SubmittedAmenities(amenitiesText)]
      ensures resp != Done ==> properties == old(properties) && amenities == old(amenities)
      ensures favorites == old(favorites)
    {
      resp := OwnerDecision(user, true, m, formValid);
      if resp == Done {
        assert Fans(favorites, newId) == {};
        properties := properties[newId := NewListing(fields, newId, user.id, now)];
        amenities := amenities[newId := SubmittedAmenities(amenitiesText)];
      }
    }

    /**
     * `update_property`. GET pre-fills the amenities field with the stored
     * names joined by ", ". A valid POST saves the form's fields onto the
     * owner's listing; a non-blank amenities field then replaces the names,
     * while a blank one leaves them as they were.
     */
    method UpdateProperty(user: User, pid: PropertyId, m: Method, formValid: bool, fields: Property,
                          amenitiesText: string)
      returns (resp: Response, prefill: string)
      requires Valid()
      modifies this
      ensures Valid()
      ensures resp == OwnerDecision(user, pid in old(properties) && old(properties)[pid].landlord == user.id,
                                    m, formValid)
      ensures resp == Rendered && m.Get? ==> prefill == Join(old(AmenitiesOf(pid)), ", ")
      ensures resp == Done ==> pid in old(properties)
      ensures resp == Done && pid in old(properties) ==>
        properties == old(properties)[pid := EditedListing(old(properties)[pid], fields)]
      ensures resp != Done ==> properties == old(properties)
      ensures resp == Done && Strip(amenitiesText) != "" ==>
        amenities == old(amenities)[pid := ParseAmenities(Strip(amenitiesText))]
      ensures resp != Done || Strip(amenitiesText) == "" ==> amenities == old(amenities)
      ensures favorites == old(favorites)
    {
      resp := OwnerDecision(user, pid in properties && properties[pid].landlord == user.id, m, formValid);
      prefill := "";
      if resp == Rendered && m.Get? {
        prefill := Join(AmenitiesOf(pid), ", ");
      }
      if resp == Done {
        properties := properties[pid := EditedListing(properties[pid], fields)];
        if Strip(amenitiesText) != "" {
          amenities := amenities[pid := ParseAmenities(Strip(amenitiesText))];
        }
      }
    }
  }

  /** A deleted listing no longer appears in any search. */
  lemma DeletedListingNeverListed(ps: seq<Property>, input: SearchInput, p: Property)
    ensures p.(isActive := false) !in Search(ps, input)
  {
    SearchResultsActive(ps, input);
  }
}
