/**
 * Reverse geocoding: turning a Nominatim record into the
 * `{address, city, country}` triple shown to the user
 * (`parseAddressFromNominatim` in apps/web/hooks/useLocation.ts).
 *
 * Every optional text field of the record is a `string` in which "" stands
 * both for a missing field and for an empty one: JavaScript treats the two
 * alike in every test the parser makes.
 */
module AddressParser {
  import opened Wrappers
  import opened Strings

  /** The `address` object of a Nominatim reverse-geocoding reply. */
  datatype NominatimAddress = NominatimAddress(
    road: string,
    houseNumber: string,
    suburb: string,
    district: string,
    postcode: string,
    city: string,
    town: string,
    village: string,
    country: string)

  /** A Nominatim reply: the structured address, when there is one, and the display name ("" when absent). */
  datatype GeocoderResult = GeocoderResult(address: Option<NominatimAddress>, displayName: string)

  datatype UserAddress = UserAddress(address: string, city: string, country: string)

  const CurrentLocation := "Current Location"
  const Unknown := "Unknown"
  const KnownCities: seq<string> := ["Berlin", "Hamburg", "München", "Köln"]

  // ---- the structured record ----

  /** The street line: road and upper-cased house number, the road alone, the suburb, or the placeholder. */
  function StreetLine(addr: NominatimAddress): string {
    if addr.road != "" then
      if addr.houseNumber != "" then addr.road + " " + Upper(addr.houseNumber) else addr.road
    else if addr.suburb != "" then addr.suburb
    else CurrentLocation
  }

  /** The place name: city, else town, else village. */
  function PlaceName(addr: NominatimAddress): string {
    OrElse(addr.city, OrElse(addr.town, addr.village))
  }

  /** The last city part, shared by both branches: "postcode name", either one alone, or nothing. */
  function PostcodeAndPlace(postcode: string, place: string): seq<string> {
    if postcode != "" && place != "" then [postcode + " " + place]
    else if postcode != "" then [postcode]
    else if place != "" then [place]
    else []
  }

  /** The first city part: the district, else the suburb when it is not already the street line. */
  function AreaPart(addr: NominatimAddress): seq<string> {
    if addr.district != "" then [addr.district]
    else if addr.suburb != "" && addr.suburb != StreetLine(addr) then [addr.suburb]
    else []
  }

  function RecordCityParts(addr: NominatimAddress): seq<string> {
    AreaPart(addr) + PostcodeAndPlace(addr.postcode, PlaceName(addr))
  }

  function FromRecord(addr: NominatimAddress): UserAddress {
    UserAddress(StreetLine(addr), Join(RecordCityParts(addr), ", "), OrElse(addr.country, Unknown))
  }

  // ---- the display-name fallback ----

  /** `/^\d{5}$/`: exactly five ASCII digits. */
  predicate IsFiveDigits(s: string) {
    |s| == 5 && forall i :: 0 <= i < 5 ==> '0' <= s[i] <= '9'
  }

  /** A segment that stops the district from being updated: a postcode or a known city. */
  predicate IsMarker(s: string) {
    IsFiveDigits(s) || s in KnownCities
  }

  /** A segment that is a district candidate: longer than two characters and not a marker. */
  predicate IsAreaCandidate(s: string) {
    |s| > 2 && !IsMarker(s)
  }

  datatype ScanState = ScanState(postcode: string, cityName: string, district: string)

  /** One iteration of the scan over the middle segments. */
  function Step(st: ScanState, part: string): ScanState {
    if IsFiveDigits(part) then st.(postcode := part)
    else if part in KnownCities then st.(cityName := part)
    else if |part| > 2 && st.postcode == "" && st.cityName == "" then st.(district := part)
    else st
  }

  /** The scan over a list of segments, as a left fold of `Step`. */
  function Scan(parts: seq<string>): ScanState
    decreases |parts|
  {
    if parts == [] then ScanState("", "", "")
    else Step(Scan(parts[..|parts| - 1]), parts[|parts| - 1])
  }

  /** `parts.slice(1, -1)`: every segment but the first and the last. */
  function Middle(parts: seq<string>): seq<string> {
    if |parts| >= 2 then parts[1..|parts| - 1] else []
  }

  function ScanCityParts(st: ScanState): seq<string> {
    (if st.district != "" then [st.district] else []) + PostcodeAndPlace(st.postcode, st.cityName)
  }

  function FromDisplayName(displayName: string): UserAddress {
    var parts := Split(displayName, ", ");
    UserAddress(
      OrElse(parts[0], CurrentLocation),
      Join(ScanCityParts(Scan(Middle(parts))), ", "),
      OrElse(parts[|parts| - 1], Unknown))
  }

  /** What the parser returns for a reply: the record if present, else the display name, else the placeholders. */
  function ParseAddress(data: GeocoderResult): UserAddress {
    if data.address.Some? then FromRecord(data.address.value)
    else if data.displayName != "" then FromDisplayName(data.displayName)
    else UserAddress(CurrentLocation, Unknown, Unknown)
  }

  // ---- the parser, as written ----

  /** The parser step by step: reassigned locals, a growing list of city parts, and the scan loop. */
  method ParseAddressFromNominatim(data: GeocoderResult) returns (r: UserAddress)
    ensures r == ParseAddress(data)
  {
    if data.address.Some? {
      var addr := data.address.value;
      var address := CurrentLocation;
      if addr.road != "" {
        address := if addr.houseNumber != "" then addr.road + " " + Upper(addr.houseNumber) else addr.road;
      } else if addr.suburb != "" {
        address := addr.suburb;
      }
      var cityParts: seq<string> := [];
      if addr.district != "" {
        cityParts := cityParts + [addr.district];
      } else if addr.suburb != "" && addr.suburb != address {
        cityParts := cityParts + [addr.suburb];
      }
      var place := OrElse(addr.city, OrElse(addr.town, addr.village));
      if addr.postcode != "" && place != "" {
        cityParts := cityParts + [addr.postcode + " " + place];
      } else if addr.postcode != "" {
        cityParts := cityParts + [addr.postcode];
      } else if place != "" {
        cityParts := cityParts + [place];
      }
      return UserAddress(address, Join(cityParts, ", "), OrElse(addr.country, Unknown));
    }
    if data.displayName != "" {
      var addressParts := Split(data.displayName, ", ");
      var middleParts := Middle(addressParts);
      var postcode := "";
      var cityName := "";
      var district := "";
      for i := 0 to |middleParts|
        invariant ScanState(postcode, cityName, district) == Scan(middleParts[..i])
      {
        var part := middleParts[i];
        assert middleParts[..i + 1][..i] == middleParts[..i];
        if IsFiveDigits(part) {
          postcode := part;
        } else if part in KnownCities {
          cityName := part;
        } else if |part| > 2 && postcode == "" && cityName == "" {
          district := part;
        }
      }
      assert middleParts[..|middleParts|] == middleParts;
      var cityParts: seq<string> := [];
      if district != "" {
        cityParts := cityParts + [district];
      }
      if postcode != "" && cityName != "" {
        cityParts := cityParts + [postcode + " " + cityName];
      } else if postcode != "" {
        cityParts := cityParts + [postcode];
      } else if cityName != "" {
        cityParts := cityParts + [cityName];
      }
      return UserAddress(
        OrElse(addressParts[0], CurrentLocation),
        Join(cityParts, ", "),
        OrElse(addressParts[|addressParts| - 1], Unknown));
    }
    return UserAddress(CurrentLocation, Unknown, Unknown);
  }

  // ---- properties of the structured branch ----

  /** The street line's four cases, as seen in the parser's output. */
  lemma StreetAddressRules(addr: NominatimAddress, displayName: string)
    ensures var r := ParseAddress(GeocoderResult(Some(addr), displayName));
      && (addr.road != "" && addr.houseNumber != "" ==> r.address == addr.road + " " + Upper(addr.houseNumber))
      && (addr.road != "" && addr.houseNumber == "" ==> r.address == addr.road)
      && (addr.road == "" && addr.suburb != "" ==> r.address == addr.suburb)
      && (addr.road == "" && addr.suburb == "" ==> r.address == CurrentLocation)
  {
  }

  /** A structured record makes the display name irrelevant. */
  lemma RecordOverridesDisplayName(addr: NominatimAddress, d1: string, d2: string)
    ensures ParseAddress(GeocoderResult(Some(addr), d1)) == ParseAddress(GeocoderResult(Some(addr), d2))
    ensures ParseAddress(GeocoderResult(Some(addr), d1)).address != ""
  {
  }

  /** The first city part: the district wins over the suburb, and the suburb is used only when it differs from the street line. */
  lemma AreaPrecedence(addr: NominatimAddress)
    ensures addr.district != "" ==> RecordCityParts(addr)[0] == addr.district
    ensures addr.district == "" && addr.suburb != "" && addr.suburb != ParseAddress(GeocoderResult(Some(addr), "")).address
      ==> RecordCityParts(addr)[0] == addr.suburb
    ensures addr.district == "" && (addr.suburb == "" || addr.suburb == ParseAddress(GeocoderResult(Some(addr), "")).address)
      ==> RecordCityParts(addr) == PostcodeAndPlace(addr.postcode, PlaceName(addr))
    ensures addr.road == "" && addr.district == "" ==> addr.suburb !in AreaPart(addr)
  {
  }

  /** The place name is the first non-empty one of city, town and village. */
  lemma PlacePrecedence(addr: NominatimAddress)
    ensures addr.city != "" ==> PlaceName(addr) == addr.city
    ensures addr.city == "" && addr.town != "" ==> PlaceName(addr) == addr.town
    ensures addr.city == "" && addr.town == "" ==> PlaceName(addr) == addr.village
  {
  }

  /** The last city part combines postcode and place name, or uses the one present. */
  lemma PostcodeAndPlaceRules(postcode: string, place: string)
    ensures |PostcodeAndPlace(postcode, place)| <= 1
    ensures postcode != "" && place != "" ==> PostcodeAndPlace(postcode, place) == [postcode + " " + place]
    ensures postcode != "" && place == "" ==> PostcodeAndPlace(postcode, place) == [postcode]
    ensures postcode == "" && place != "" ==> PostcodeAndPlace(postcode, place) == [place]
    ensures postcode == "" && place == "" ==> PostcodeAndPlace(postcode, place) == []
  {
  }

  /** Joining at most two non-empty parts: empty exactly when there are none; one part alone; two with ", " between. */
  lemma JoinFewParts(parts: seq<string>)
    requires |parts| <= 2
    requires forall i :: 0 <= i < |parts| ==> parts[i] != ""
    ensures Join(parts, ", ") == "" <==> parts == []
    ensures |parts| == 1 ==> Join(parts, ", ") == parts[0]
    ensures |parts| == 2 ==> Join(parts, ", ") == parts[0] + ", " + parts[1]
  {
    if |parts| == 2 {
      assert Join(parts[1..], ", ") == parts[1];
    }
  }

  /**
   * The city is the at most two non-empty city parts joined with ", ": it
   * is empty exactly when there is no district, no suburb used, no
   * postcode and no place name; the country defaults to "Unknown".
   */
  lemma RecordCityAndCountry(addr: NominatimAddress)
    ensures var r := ParseAddress(GeocoderResult(Some(addr), ""));
      && |RecordCityParts(addr)| <= 2
      && r.city == Join(RecordCityParts(addr), ", ")
      && (r.city == "" <==>
            addr.district == "" && (addr.suburb == "" || addr.suburb == r.address)
            && addr.postcode == "" && PlaceName(addr) == "")
      && r.country == (if addr.country != "" then addr.country else Unknown)
  {
    var parts := RecordCityParts(addr);
    PostcodeAndPlaceRules(addr.postcode, PlaceName(addr));
    assert forall i :: 0 <= i < |parts| ==> parts[i] != "";
    JoinFewParts(parts);
  }

  // ---- properties of the display-name scan ----

  lemma KnownCityIsNotPostcode(s: string)
    requires s in KnownCities
    ensures !IsFiveDigits(s)
  {
    if s == "Köln" {
      assert |s| == 4;
    } else {
      assert s[0] !in "0123456789";
    }
  }

  lemma ScanInit(parts: seq<string>)
    requires parts != []
    ensures Scan(parts) == Step(Scan(parts[..|parts| - 1]), parts[|parts| - 1])
  {
  }

  /** The postcode is the last five-digit segment. */
  lemma {:induction false} PostcodeIsLastFiveDigit(parts: seq<string>, i: int)
    requires 0 <= i < |parts| && IsFiveDigits(parts[i])
    requires forall k :: i < k < |parts| ==> !IsFiveDigits(parts[k])
    ensures Scan(parts).postcode == parts[i]
    decreases |parts|
  {
    ScanInit(parts);
    if i < |parts| - 1 {
      PostcodeIsLastFiveDigit(parts[..|parts| - 1], i);
    }
  }

  /** Without a five-digit segment there is no postcode. */
  lemma {:induction false} PostcodeAbsent(parts: seq<string>)
    requires forall k :: 0 <= k < |parts| ==> !IsFiveDigits(parts[k])
    ensures Scan(parts).postcode == ""
    decreases |parts|
  {
    if parts != [] {
      ScanInit(parts);
      PostcodeAbsent(parts[..|parts| - 1]);
    }
  }

  /** The city is the last known-city segment. */
  lemma {:induction false} CityIsLastKnown(parts: seq<string>, i: int)
    requires 0 <= i < |parts| && parts[i] in KnownCities
    requires forall k :: i < k < |parts| ==> parts[k] !in KnownCities
    ensures Scan(parts).cityName == parts[i]
    decreases |parts|
  {
    ScanInit(parts);
    if i < |parts| - 1 {
      CityIsLastKnown(parts[..|parts| - 1], i);
    } else {
      KnownCityIsNotPostcode(parts[i]);
    }
  }

  /** Without a known-city segment there is no city. */
  lemma {:induction false} CityAbsent(parts: seq<string>)
    requires forall k :: 0 <= k < |parts| ==> parts[k] !in KnownCities
    ensures Scan(parts).cityName == ""
    decreases |parts|
  {
    if parts != [] {
      ScanInit(parts);
      CityAbsent(parts[..|parts| - 1]);
    }
  }

  /** Once a postcode or a known city has been seen, the district no longer changes. */
  lemma {:induction false} DistrictFrozenAfterMarker(before: seq<string>, marker: string, after: seq<string>)
    requires IsMarker(marker)
    ensures Scan(before + [marker] + after).district == Scan(before).district
    ensures Scan(before + [marker] + after).postcode != "" || Scan(before + [marker] + after).cityName != ""
    decreases |after|
  {
    var whole := before + [marker] + after;
    ScanInit(whole);
    if after == [] {
      assert whole[..|whole| - 1] == before;
    } else {
      assert whole[..|whole| - 1] == before + [marker] + after[..|after| - 1];
      DistrictFrozenAfterMarker(before, marker, after[..|after| - 1]);
    }
  }

  /** Before any marker, the district is the last segment longer than two characters. */
  lemma {:induction false} DistrictIsLastCandidate(parts: seq<string>, j: int)
    requires forall k :: 0 <= k < |parts| ==> !IsMarker(parts[k])
    requires 0 <= j < |parts| && |parts[j]| > 2
    requires forall k :: j < k < |parts| ==> |parts[k]| <= 2
    ensures Scan(parts).district == parts[j]
    decreases |parts|
  {
    var init := parts[..|parts| - 1];
    ScanInit(parts);
    PostcodeAbsent(init);
    CityAbsent(init);
    if j < |parts| - 1 {
      DistrictIsLastCandidate(init, j);
    }
  }

  /** Before any marker and without a segment longer than two characters, there is no district. */
  lemma {:induction false} DistrictAbsent(parts: seq<string>)
    requires forall k :: 0 <= k < |parts| ==> !IsMarker(parts[k]) && |parts[k]| <= 2
    ensures Scan(parts).district == ""
    decreases |parts|
  {
    if parts != [] {
      ScanInit(parts);
      DistrictAbsent(parts[..|parts| - 1]);
    }
  }

  /** The fallback city is the district, then the postcode-and-city part, at most two parts, joined with ", ". */
  lemma ScanCity(st: ScanState)
    ensures |ScanCityParts(st)| <= 2
    ensures Join(ScanCityParts(st), ", ") == "" <==> st.district == "" && st.postcode == "" && st.cityName == ""
    ensures st.district != "" ==> ScanCityParts(st)[0] == st.district
  {
    PostcodeAndPlaceRules(st.postcode, st.cityName);
    JoinFewParts(ScanCityParts(st));
  }

  /** The first comma segment is the address and the last the country, each falling back to its placeholder. */
  lemma DisplayNameEnds(displayName: string)
    requires displayName != ""
    ensures var parts := Split(displayName, ", ");
      var r := ParseAddress(GeocoderResult(None, displayName));
      && r.address == (if parts[0] != "" then parts[0] else CurrentLocation)
      && r.country == (if parts[|parts| - 1] != "" then parts[|parts| - 1] else Unknown)
      && r.city == Join(ScanCityParts(Scan(Middle(parts))), ", ")
  {
  }

  /** A display name without ", " is both the address and the country, and gives no city. */
  lemma DisplayNameSingleSegment(displayName: string)
    requires displayName != "" && !Contains(displayName, ", ")
    ensures ParseAddress(GeocoderResult(None, displayName)) == UserAddress(displayName, "", displayName)
  {
    SplitAbsent(displayName, ", ");
    assert Scan([]) == ScanState("", "", "");
  }

  /** With neither a record nor a display name, every field is its placeholder. */
  lemma NothingKnown()
    ensures ParseAddress(GeocoderResult(None, "")) == UserAddress("Current Location", "Unknown", "Unknown")
  {
  }
}
