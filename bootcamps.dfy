/**
 * The bootcamp record of `models/Bootcamp.js`: the schema's checks and
 * defaults, and the two pre-save hooks (slug from the name; location from the
 * geocoder with the address cleared). The URL and e-mail patterns, slugify and
 * the geocoder are parameters.
 */
module Bootcamps {
  import opened Wrappers
  import opened JsText
  import opened ErrorHandler
  import opened IntParsing

  const Careers: seq<string> :=
    ["Web Development", "Mobile Development", "UI/UX", "Data Science", "Business", "Other"]
  const MaxNameLength: nat := 50
  const MaxDescriptionLength: nat := 500
  const MaxPhoneLength: nat := 20
  const DefaultPhoto: string := "no-photo.jpg"

  /** The fields a bootcamp is created from; `None` is `undefined`. */
  datatype BootcampInput = BootcampInput(
    name: Option<string>, description: Option<string>, website: Option<string>,
    phone: Option<string>, email: Option<string>, address: Option<string>,
    careers: seq<string>, averageRating: Option<real>, averageCost: Option<int>,
    photo: Option<string>, housing: Option<bool>, jobAssistance: Option<bool>,
    jobGuarantee: Option<bool>, acceptGi: Option<bool>, user: Option<nat>)

  /** The name as stored: the `trim` setter runs before any check. */
  function StoredName(input: BootcampInput): Option<string> {
    match input.name
    case Some(n) => Some(Trim(n))
    case None => None
  }

  /** The schema's messages. */
  const NameMessage: string := "Please add a name"
  const NameLengthMessage: string := "Name can not be more than 50 characters"
  const DescriptionMessage: string := "Please add a description"
  const DescriptionLengthMessage: string := "Description can not be more than 500 characters"
  const RatingLowMessage: string := "Rating must be at least 1"
  const RatingHighMessage: string := "Rating must can not be more than 10"
  const UserMessage: string := "Path `user` is required."
  const UrlMessage: string := "Please use a valid URL with HTTP or HTTPS"
  const PhoneMessage: string := "Phone number can not be longer than 20 characters"
  const EmailMessage: string := "Please add a valid email"
  const AddressMessage: string := "Please add an address"


  /** The `name` path: required after trimming, at most 50 characters. */
  predicate NameOk(input: BootcampInput) {
    Present(StoredName(input)) && |StoredName(input).value| <= MaxNameLength
  }

  function NameErrors(input: BootcampInput): (errs: seq<string>)
    ensures errs == [] <==> NameOk(input)
  {
    var name := StoredName(input);
    if !Present(name) then [NameMessage]
    else if |name.value| > MaxNameLength then [NameLengthMessage] else []
  }

  /** The `description` path: required, at most 500 characters. */
  function DescriptionErrors(d: Option<string>): (errs: seq<string>)
    ensures errs == [] <==> Present(d) && |d.value| <= MaxDescriptionLength
  {
    if !Present(d) then [DescriptionMessage]
    else if |d.value| > MaxDescriptionLength then [DescriptionLengthMessage] else []
  }

  /** The `website`, `phone`, `email` and `address` paths. */
  predicate ContactOk(input: BootcampInput, isUrl: string -> bool, isEmail: string -> bool) {
    && (Present(input.website) ==> isUrl(input.website.value))
    && (input.phone.Some? ==> |input.phone.value| <= MaxPhoneLength)
    && (Present(input.email) ==> isEmail(input.email.value))
    && Present(input.address)
  }

  function ContactErrors(input: BootcampInput, isUrl: string -> bool, isEmail: string -> bool): (errs: seq<string>)
    ensures errs == [] <==> ContactOk(input, isUrl, isEmail)
  {
    (if Present(input.website) && !isUrl(input.website.value) then [UrlMessage] else [])
    + (if input.phone.Some? && |input.phone.value| > MaxPhoneLength then [PhoneMessage] else [])
    + (if Present(input.email) && !isEmail(input.email.value) then [EmailMessage] else [])
    + (if !Present(input.address) then [AddressMessage] else [])
  }

  /**
   * The `careers` path: each element is validated as its own path
   * `careers.<i>`, so every element outside the enum gets its own message, in
   * index order.
   */
  function CareerErrors(careers: seq<string>): (errs: seq<string>)
    ensures errs == [] <==> forall i :: 0 <= i < |careers| ==> careers[i] in Careers
    ensures var bad := BadCareers(careers, 0);
            && |errs| == |bad|
            && forall k :: 0 <= k < |bad| ==> errs[k] == CareerMessage(careers[bad[k]], bad[k])
  {
    var bad := BadCareers(careers, 0);
    assert bad == [] <==> forall i :: 0 <= i < |careers| ==> careers[i] in Careers by {
      if bad != [] {
        assert careers[bad[0]] !in Careers;
      }
    }
    seq(|bad|, k requires 0 <= k < |bad| => CareerMessage(careers[bad[k]], bad[k]))
  }

  /** The indices, from `from` on and in increasing order, of the elements outside the enum. */
  function BadCareers(careers: seq<string>, from: nat): (bad: seq<nat>)
    requires from <= |careers|
    ensures forall j :: j in bad <==> from <= j < |careers| && careers[j] !in Careers
    ensures forall k :: 0 <= k < |bad| ==> from <= bad[k] < |careers| && careers[bad[k]] !in Careers
    ensures forall k, l :: 0 <= k < l < |bad| ==> bad[k] < bad[l]
    decreases |careers| - from
  {
    if from == |careers| then []
    else
      var rest := BadCareers(careers, from + 1);
      assert forall k :: 0 <= k < |rest| ==> from < rest[k];
      if careers[from] in Careers then rest else [from] + rest
  }

  /** The enum message of the element at path `careers.<i>`. */
  function CareerMessage(c: string, i: nat): string {
    "`" + c + CareerEnumText + DecimalString(i) + "`."
  }

  const CareerEnumText: string := "` is not a valid enum value for path `careers."

  /** The `averageRating` path: between 1 and 10 when given. */
  function RatingErrors(r: Option<real>): (errs: seq<string>)
    ensures errs == [] <==> (r.Some? ==> 1.0 <= r.value <= 10.0)
  {
    if r.Some? && r.value < 1.0 then [RatingLowMessage]
    else if r.Some? && r.value > 10.0 then [RatingHighMessage] else []
  }

  /** Every path of the schema passes its checks. */
  predicate Valid(input: BootcampInput, isUrl: string -> bool, isEmail: string -> bool) {
    && NameOk(input)
    && Present(input.description) && |input.description.value| <= MaxDescriptionLength
    && ContactOk(input, isUrl, isEmail)
    && (forall i :: 0 <= i < |input.careers| ==> input.careers[i] in Careers)
    && (input.averageRating.Some? ==> 1.0 <= input.averageRating.value <= 10.0)
    && input.user.Some?
  }

  /** The first failing check of each schema path, in schema order. */
  function ValidationErrors(input: BootcampInput, isUrl: string -> bool, isEmail: string -> bool): (errs: seq<string>)
    ensures errs == [] <==> Valid(input, isUrl, isEmail)
  {
    NameErrors(input) + DescriptionErrors(input.description) + ContactErrors(input, isUrl, isEmail)
    + CareerErrors(input.careers) + RatingErrors(input.averageRating)
    + (if input.user.None? then [UserMessage] else [])
  }

  /** One result of the geocoder. */
  datatype GeoResult = GeoResult(latitude: real, longitude: real, formattedAddress: string,
                                 streetName: string, city: string, stateCode: string,
                                 zipcode: string, country: string)

  /** The GeoJSON point stored in `location`. */
  datatype Location = Location(kind: string, coordinates: seq<real>, formattedAddress: string,
                               street: string, city: string, state: string, zipcode: string,
                               country: string)

  /** The `location` built from a geocoder result: a `Point`, longitude first, then latitude. */
  function LocationOf(g: GeoResult): (loc: Location)
    ensures loc.kind == "Point" && loc.coordinates == [g.longitude, g.latitude]
    ensures loc.street == g.streetName && loc.state == g.stateCode
  {
    Location("Point", [g.longitude, g.latitude], g.formattedAddress, g.streetName, g.city,
             g.stateCode, g.zipcode, g.country)
  }

  /** Reading `loc[0].longitude` of an empty geocoder answer. */
  const NoGeocodeResult: JsError :=
    JsError("TypeError", "Cannot read properties of undefined (reading 'longitude')", None, None, [])

  class Bootcamp {
    const id: nat
    var name: string
    var slug: Option<string>
    var description: string
    var website: Option<string>
    var phone: Option<string>
    var email: Option<string>
    var address: Option<string>
    var location: Option<Location>
    var careers: seq<string>
    var averageRating: Option<real>
    var averageCost: Option<int>
    var photo: string
    var housing: bool
    var jobAssistance: bool
    var jobGuarantee: bool
    var acceptGi: bool
    var createdAt: int
    var user: nat

    /** A document built from validated input, with the schema defaults. */
    constructor (id: nat, input: BootcampInput, now: int, isUrl: string -> bool, isEmail: string -> bool)
      requires Valid(input, isUrl, isEmail)
      ensures this.id == id && name == Trim(input.name.value) && |name| <= MaxNameLength
      ensures description == input.description.value && address == input.address
      ensures website == input.website && phone == input.phone && email == input.email
      ensures careers == input.careers && averageRating == input.averageRating && averageCost == input.averageCost
      ensures photo == (if input.photo.Some? then input.photo.value else DefaultPhoto)
      ensures housing == (input.housing == Some(true)) && jobAssistance == (input.jobAssistance == Some(true))
      ensures jobGuarantee == (input.jobGuarantee == Some(true)) && acceptGi == (input.acceptGi == Some(true))
      ensures createdAt == now && user == input.user.value
      ensures slug == None && location == None
    {
      this.id := id;
      name := Trim(input.name.value);
      slug := None;
      description := input.description.value;
      website := input.website;
      phone := input.phone;
      email := input.email;
      address := input.address;
      location := None;
      careers := input.careers;
      averageRating := input.averageRating;
      averageCost := input.averageCost;
      photo := if input.photo.Some? then input.photo.value else DefaultPhoto;
      housing := if input.housing.Some? then input.housing.value else false;
      jobAssistance := if input.jobAssistance.Some? then input.jobAssistance.value else false;
      jobGuarantee := if input.jobGuarantee.Some? then input.jobGuarantee.value else false;
      acceptGi := if input.acceptGi.Some? then input.acceptGi.value else false;
      createdAt := now;
      user := input.user.value;
    }

    /**
     * The two pre-save hooks in their order. The slug is recomputed from the
     * current name; then the address is geocoded, `location` is set from the
     * first result and `address` is cleared. An empty geocoder answer throws,
     * leaving location and address as they were.
     */
    method PreSave(slugifyLower: string -> string, geocode: Option<string> -> seq<GeoResult>)
      returns (err: Option<JsError>)
      modifies this`slug, this`location, this`address
      ensures slug == Some(slugifyLower(name))
      ensures err.None? <==> |geocode(old(address))| > 0
      ensures err.None? ==> location == Some(LocationOf(geocode(old(address))[0])) && address == None
      ensures err.Some? ==> err.value == NoGeocodeResult && location == old(location) && address == old(address)
    {
      slug := Some(slugifyLower(name));

      var loc := geocode(address);
      if |loc| == 0 {
        return Some(NoGeocodeResult);
      }
      location := Some(LocationOf(loc[0]));
      address := None;
      err := None;
    }
  }

  /** A name longer than 50 characters once trimmed is refused, whatever else the input holds. */
  lemma LongNameRefused(input: BootcampInput, isUrl: string -> bool, isEmail: string -> bool)
    requires input.name.Some? && |Trim(input.name.value)| > MaxNameLength
    ensures ValidationErrors(input, isUrl, isEmail) != []
    ensures ValidationErrors(input, isUrl, isEmail)[0] == NameLengthMessage
  {
  }
}
