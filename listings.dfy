/**
 * The listing entity of properties/models.py: its two enumerations, the row
 * itself, and the three derived properties `amenities_list`,
 * `display_price` and `primary_image`. Money is held in integer cents
 * (the source's `DecimalField(decimal_places=2)`).
 */
module Listings {
  import opened Types
  import opened Text
  import opened Calendar

  // ---------------------------------------------------------------------
  // Enumerations

  /** `Property.PROPERTY_TYPE_CHOICES`. */
  datatype PropertyType = Apartment | House | Condo | Studio | Dorm | Shared

  const PropertyTypes: seq<PropertyType> := [Apartment, House, Condo, Studio, Dorm, Shared]

  /** The stored value of each property type. */
  function PropertyTypeValue(t: PropertyType): string
  {
    match t
    case Apartment => "apartment"
    case House => "house"
    case Condo => "condo"
    case Studio => "studio"
    case Dorm => "dorm"
    case Shared => "shared"
  }

  /** `Property.ROOM_TYPE_CHOICES`. */
  datatype RoomType = SingleRoom | DoubleRoom | TripleRoom | EntireUnit | SharedRoom

  const RoomTypes: seq<RoomType> := [SingleRoom, DoubleRoom, TripleRoom, EntireUnit, SharedRoom]

  function RoomTypeValue(t: RoomType): string
  {
    match t
    case SingleRoom => "single"
    case DoubleRoom => "double"
    case TripleRoom => "triple"
    case EntireUnit => "entire"
    case SharedRoom => "shared"
  }

  /** Each enumeration lists every value once, and distinct values are stored distinctly. */
  lemma EnumerationsComplete(t: PropertyType, u: PropertyType, r: RoomType, s: RoomType)
    ensures t in PropertyTypes && r in RoomTypes
    ensures |PropertyTypes| == 6 && |RoomTypes| == 5
    ensures PropertyTypeValue(t) == PropertyTypeValue(u) ==> t == u
    ensures RoomTypeValue(r) == RoomTypeValue(s) ==> r == s
  {
  }

  // ---------------------------------------------------------------------
  // The listing row

  datatype Property = Property(
    id: PropertyId,
    landlord: UserId,
    title: string,
    description: string,
    propertyType: PropertyType,
    roomType: RoomType,
    address: string,
    city: string,
    nearestUniversity: string,
    pricePerMonth: int,          // cents
    bedrooms: int,
    furnished: bool,
    hasKitchen: bool,
    hasLaundry: bool,
    hasParking: bool,
    hasGym: bool,
    hasPool: bool,
    petFriendly: bool,
    utilitiesIncluded: bool,
    wifiIncluded: bool,
    availableFrom: Date,
    availableTo: Option<Date>,
    isVerified: bool,
    isActive: bool,
    favoriteCount: int,
    createdAt: Time)

  // ---------------------------------------------------------------------
  // amenities_list

  datatype Amenity =
    | Furnished | Kitchen | Laundry | Parking | Gym | Pool | PetFriendly | UtilitiesIncluded | WifiIncluded

  /** The fixed order in which `amenities_list` tests the flags. */
  const AmenityOrder: seq<Amenity> :=
    [Furnished, Kitchen, Laundry, Parking, Gym, Pool, PetFriendly, UtilitiesIncluded, WifiIncluded]

  /** Position of an amenity in `AmenityOrder`. */
  function Rank(a: Amenity): nat
  {
    match a
    case Furnished => 0
    case Kitchen => 1
    case Laundry => 2
    case Parking => 3
    case Gym => 4
    case Pool => 5
    case PetFriendly => 6
    case UtilitiesIncluded => 7
    case WifiIncluded => 8
  }

  function AmenityLabel(a: Amenity): string
  {
    match a
    case Furnished => "Furnished"
    case Kitchen => "Kitchen"
    case Laundry => "Laundry"
    case Parking => "Parking"
    case Gym => "Gym"
    case Pool => "Pool"
    case PetFriendly => "Pet Friendly"
    case UtilitiesIncluded => "Utilities Included"
    case WifiIncluded => "WiFi Included"
  }

  /** The boolean field behind each amenity. */
  predicate Offers(p: Property, a: Amenity)
  {
    match a
    case Furnished => p.furnished
    case Kitchen => p.hasKitchen
    case Laundry => p.hasLaundry
    case Parking => p.hasParking
    case Gym => p.hasGym
    case Pool => p.hasPool
    case PetFriendly => p.petFriendly
    case UtilitiesIncluded => p.utilitiesIncluded
    case WifiIncluded => p.wifiIncluded
  }

  predicate RankIncreasing(s: seq<Amenity>)
  {
    forall i, j :: 0 <= i < j < |s| ==> Rank(s[i]) < Rank(s[j])
  }

  /** The amenities of `order` that `p` offers, keeping their order. */
  function Offered(p: Property, order: seq<Amenity>): (r: seq<Amenity>)
    ensures |r| <= |order|
  {
    if order == [] then []
    else
      var last := order[|order| - 1];
      Offered(p, order[..|order| - 1]) + (if Offers(p, last) then [last] else [])
  }

  /** Only amenities of `order` that `p` offers are kept. */
  lemma {:induction false} OfferedSound(p: Property, order: seq<Amenity>, a: Amenity)
    requires a in Offered(p, order)
    ensures a in order && Offers(p, a)
  {
    var n := |order|;
    if a != order[n - 1] || !Offers(p, a) {
      OfferedSound(p, order[..n - 1], a);
      var i :| 0 <= i < n - 1 && order[..n - 1][i] == a;
      assert order[i] == a;
    }
  }

  /** Every amenity of `order` that `p` offers is kept. */
  lemma {:induction false} OfferedComplete(p: Property, order: seq<Amenity>, a: Amenity)
    requires a in order && Offers(p, a)
    ensures a in Offered(p, order)
  {
    var n := |order|;
    if order[n - 1] != a {
      var i :| 0 <= i < n && order[i] == a;
      assert order[..n - 1][i] == a;
      OfferedComplete(p, order[..n - 1], a);
    }
  }

  /** Filtering keeps the order of `order`. */
  lemma {:induction false} OfferedKeepsOrder(p: Property, order: seq<Amenity>)
    requires RankIncreasing(order)
    ensures RankIncreasing(Offered(p, order))
  {
    if order != [] {
      var n := |order|;
      var prefix, last := order[..n - 1], order[n - 1];
      OfferedKeepsOrder(p, prefix);
      var rest := Offered(p, prefix);
      forall x | x in rest ensures Rank(x) < Rank(last) {
        OfferedSound(p, prefix, x);
        var i :| 0 <= i < n - 1 && prefix[i] == x;
        assert order[i] == x;
      }
      var r := rest + (if Offers(p, last) then [last] else []);
      forall i, j | 0 <= i < j < |r| ensures Rank(r[i]) < Rank(r[j]) {
        if j == |rest| {
          assert r[i] in rest;
        }
      }
    }
  }

  function Labels(s: seq<Amenity>): (r: seq<string>)
    ensures |r| == |s|
    ensures forall i :: 0 <= i < |s| ==> r[i] == AmenityLabel(s[i])
  {
    seq(|s|, i requires 0 <= i < |s| => AmenityLabel(s[i]))
  }

  /** The label of `a` if `p` offers it. */
  function Mark(p: Property, a: Amenity): seq<string>
  {
    if Offers(p, a) then [AmenityLabel(a)] else []
  }

  /** Testing one more amenity appends its label when it is offered. */
  lemma OfferedStep(p: Property, tested: seq<Amenity>, a: Amenity)
    ensures Labels(Offered(p, tested + [a])) == Labels(Offered(p, tested)) + Mark(p, a)
  {
    assert (tested + [a])[..|tested|] == tested;
  }

  /**
   * `Property.amenities_list`: tests the nine amenity flags in the fixed
   * order and appends the label of each one that is set.
   */
  method AmenitiesList(p: Property) returns (amenities: seq<string>)
    ensures amenities == Labels(Offered(p, AmenityOrder))
  {
    amenities := [];
    for k := 0 to |AmenityOrder|
      invariant amenities == Labels(Offered(p, AmenityOrder[..k]))
    {
      OfferedStep(p, AmenityOrder[..k], AmenityOrder[k]);
      assert AmenityOrder[..k] + [AmenityOrder[k]] == AmenityOrder[..k + 1];
      if Offers(p, AmenityOrder[k]) {
        amenities := amenities + [AmenityLabel(AmenityOrder[k])];
      }
    }
    assert AmenityOrder[..|AmenityOrder|] == AmenityOrder;
  }

  lemma LabelsDistinct(a: Amenity, b: Amenity)
    ensures AmenityLabel(a) == AmenityLabel(b) ==> a == b
  {
    if AmenityLabel(a) == AmenityLabel(b) {
      var s, t := AmenityLabel(a), AmenityLabel(b);
      assert |s| == |t|;
      assert s[0] == t[0] && s[1] == t[1];
    }
  }

  lemma InAmenityOrder(a: Amenity)
    ensures a in AmenityOrder
  {
    assert AmenityOrder[Rank(a)] == a;
  }

  /** A label is listed exactly when its flag is set. */
  lemma AmenityListedIffOffered(p: Property, a: Amenity)
    ensures AmenityLabel(a) in Labels(Offered(p, AmenityOrder)) <==> Offers(p, a)
  {
    var offered := Offered(p, AmenityOrder);
    var labels := Labels(offered);
    if Offers(p, a) {
      InAmenityOrder(a);
      OfferedComplete(p, AmenityOrder, a);
      var i :| 0 <= i < |offered| && offered[i] == a;
      assert labels[i] == AmenityLabel(a);
    }
    if AmenityLabel(a) in labels {
      var i :| 0 <= i < |labels| && labels[i] == AmenityLabel(a);
      LabelsDistinct(offered[i], a);
      OfferedSound(p, AmenityOrder, offered[i]);
    }
  }

  /** The labels follow the fixed order, so none repeats and there are at most nine. */
  lemma AmenitiesListOrdered(p: Property)
    ensures RankIncreasing(Offered(p, AmenityOrder))
    ensures var labels := Labels(Offered(p, AmenityOrder));
      && |labels| <= 9
      && forall i, j :: 0 <= i < j < |labels| ==> labels[i] != labels[j]
  {
    var offered := Offered(p, AmenityOrder);
    var labels := Labels(offered);
    assert RankIncreasing(AmenityOrder);
    OfferedKeepsOrder(p, AmenityOrder);
    forall i, j | 0 <= i < j < |labels| ensures labels[i] != labels[j] {
      LabelsDistinct(offered[i], offered[j]);
    }
  }

  /** The list is empty exactly when no amenity flag is set. */
  lemma AmenitiesListEmpty(p: Property)
    ensures Labels(Offered(p, AmenityOrder)) == [] <==> forall a :: !Offers(p, a)
  {
    var offered := Offered(p, AmenityOrder);
    if offered != [] {
      OfferedSound(p, AmenityOrder, offered[0]);
    } else {
      forall a ensures !Offers(p, a) {
        AmenityListedIffOffered(p, a);
      }
    }
  }

  // ---------------------------------------------------------------------
  // display_price: f"${price_per_month:,.2f}/month"

  function TwoDigits(n: nat): (s: string)
    requires n < 100
    ensures |s| == 2 && AllDigits(s) && DigitsValue(s) == n
  {
    var s := [DigitChar(n / 10), DigitChar(n % 10)];
    assert DigitsValue(s) == DigitsValue(s[..1]) * 10 + (s[1] as int - '0' as int);
    assert DigitsValue(s[..1]) == n / 10 by {
      assert s[..1][..0] == [];
    }
    s
  }

  /** Whole units and cents of a price, each as the format spec writes them. */
  function PriceParts(cents: int): (string, string)
  {
    var magnitude := if cents < 0 then -cents else cents;
    (GroupThousands(DecimalString(magnitude / 100)), TwoDigits(magnitude % 100))
  }

  function DisplayPrice(cents: int): (r: string)
    ensures |r| >= 10 && r[..1] == "$" && r[|r| - 6..] == "/month"
  {
    var (units, decimals) := PriceParts(cents);
    "$" + (if cents < 0 then "-" else "") + units + "." + decimals + "/month"
  }

  /**
   * `amount` is a comma-grouped whole part without leading zeros, a point
   * and two decimals that together read back as `m` hundredths.
   */
  predicate ReadsBackAs(amount: string, m: nat)
  {
    && |amount| >= 4
    && amount[|amount| - 3] == '.'
    && WellGrouped(amount[..|amount| - 3])
    && AllDigits(RemoveCommas(amount[..|amount| - 3]))
    && (|RemoveCommas(amount[..|amount| - 3])| > 1 ==> RemoveCommas(amount[..|amount| - 3])[0] != '0')
    && AllDigits(amount[|amount| - 2..])
    && DigitsValue(RemoveCommas(amount[..|amount| - 3])) * 100 + DigitsValue(amount[|amount| - 2..]) == m
  }

  /** The two parts, joined by a point, read back as the price's magnitude. */
  lemma PricePartsReadBack(cents: int)
    ensures var (units, decimals) := PriceParts(cents);
      ReadsBackAs(units + "." + decimals, if cents < 0 then -cents else cents)
  {
    var magnitude := if cents < 0 then -cents else cents;
    var (units, decimals) := PriceParts(cents);
    GroupThousandsWellGrouped(DecimalString(magnitude / 100));
    GroupThousandsDigits(DecimalString(magnitude / 100));
    DecimalStringValue(magnitude / 100);
    var amount := units + "." + decimals;
    assert amount[..|amount| - 3] == units;
    assert amount[|amount| - 2..] == decimals;
  }

  /**
   * The rendering reads back as the price: "$", a minus for a negative
   * amount, comma-grouped whole units, a point, exactly two decimals, "/month".
   */
  lemma DisplayPriceFormat(cents: int)
    ensures var r := DisplayPrice(cents);
      var sign := if cents < 0 then 1 else 0;
      && |r| >= 11 + sign
      && r[..1] == "$" && (cents < 0 ==> r[1] == '-') && r[|r| - 6..] == "/month"
      && ReadsBackAs(r[1 + sign..|r| - 6], if cents < 0 then -cents else cents)
  {
    var (units, decimals) := PriceParts(cents);
    PricePartsReadBack(cents);
    var sign := if cents < 0 then 1 else 0;
    var r := DisplayPrice(cents);
    var signText := if cents < 0 then "-" else "";
    var amount := units + "." + decimals;
    assert r == "$" + signText + amount + "/month";
    assert r[1 + sign..|r| - 6] == amount;
  }

  // ---------------------------------------------------------------------
  // primary_image

  /** A listing photo; a property's images are kept in upload order. */
  datatype Image = Image(isPrimary: bool, uploadedAt: Time, caption: string)

  /** Index of the earliest primary image, or `|images|` when there is none. */
  function FirstPrimaryIndex(images: seq<Image>): (k: nat)
    ensures k <= |images|
    ensures k < |images| ==> images[k].isPrimary
    ensures forall j :: 0 <= j < k ==> !images[j].isPrimary
  {
    if images == [] then 0
    else if images[0].isPrimary then 0
    else 1 + FirstPrimaryIndex(images[1..])
  }

  /**
   * `images.filter(is_primary=True).first() or images.first()`, where the
   * images are ordered primary first, then by upload time.
   */
  function PrimaryImage(images: seq<Image>): (r: Option<Image>)
    ensures r.None? <==> images == []
    ensures r.Some? ==> r.value in images
    ensures (exists i :: 0 <= i < |images| && images[i].isPrimary) ==>
      r.Some? && r.value.isPrimary
    ensures (forall i :: 0 <= i < |images| ==> !images[i].isPrimary) && images != [] ==>
      r == Some(images[0])
  {
    var k := FirstPrimaryIndex(images);
    if k < |images| then Some(images[k])
    else if images != [] then Some(images[0])
    else None
  }

  /** The image chosen is the earliest-uploaded primary one, when there is any. */
  lemma PrimaryImageIsEarliestPrimary(images: seq<Image>, i: nat)
    requires i < |images| && images[i].isPrimary
    ensures exists k ::
              && 0 <= k <= i && PrimaryImage(images) == Some(images[k]) && images[k].isPrimary
              && forall j :: 0 <= j < k ==> !images[j].isPrimary
  {
    var k := FirstPrimaryIndex(images);
    assert k <= i;
    assert PrimaryImage(images) == Some(images[k]);
  }
}
