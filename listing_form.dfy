/**
 * The "new listing" form a professional fills in to offer surplus material:
 * photos picked from the device (images only), a location chosen among the
 * address search's suggestions, and the publish step, which validates the form
 * and builds the listing record handed to the marketplace.
 */
module ListingForm {
  import opened Wrappers
  import opened Strings
  import SurplusQuantity

  datatype Category = GrosOeuvre | Electricite | Amenagement | Bois
  datatype PriceType = Don | Vente
  datatype Logistics = Voiture | Camionnette | Camion

  /** One suggestion of the address search. */
  datatype GeocodedAddress = GeocodedAddress(addressLabel: string, city: string, postcode: string, lat: real, lng: real)

  /** The form's `formData` record. */
  datatype FormData = FormData(
    title: string,
    quantity: string,
    priceType: PriceType,
    price: string,
    category: Category,
    photos: seq<string>,
    isUrgent: bool,
    logistics: Logistics)

  const InitialFormData: FormData := FormData("", "", Don, "", GrosOeuvre, [], false, Voiture)

  /** A file chosen in the picker: its MIME type and the data URL a `FileReader` produces for it. */
  datatype PickedFile = PickedFile(mimeType: string, dataUrl: string)

  predicate IsImage(f: PickedFile) {
    StartsWith(f.mimeType, "image/")
  }

  // ---------------------------------------------------------------------------
  // Photos
  // ---------------------------------------------------------------------------

  /** The data URLs of the image files among `files`, in order. */
  function ImageUrls(files: seq<PickedFile>): seq<string> {
    if files == [] then []
    else
      var last := files[|files| - 1];
      ImageUrls(files[..|files| - 1]) + (if IsImage(last) then [last.dataUrl] else [])
  }

  /** A selection made of two parts contributes the first part's images, then the second's. */
  lemma {:induction false} ImageUrlsAppend(a: seq<PickedFile>, b: seq<PickedFile>)
    ensures ImageUrls(a + b) == ImageUrls(a) + ImageUrls(b)
    decreases |b|
  {
    if b != [] {
      var b' := b[..|b| - 1];
      assert (a + b)[..|a + b| - 1] == a + b';
      assert (a + b)[|a + b| - 1] == b[|b| - 1];
      ImageUrlsAppend(a, b');
      var tail := if IsImage(b[|b| - 1]) then [b[|b| - 1].dataUrl] else [];
      assert ImageUrls(a + b) == ImageUrls(a + b') + tail;
      assert ImageUrls(b) == ImageUrls(b') + tail;
      assert ImageUrls(a) + ImageUrls(b') + tail == ImageUrls(a) + (ImageUrls(b') + tail);
    } else {
      assert a + b == a;
    }
  }

  /** A selection without an image adds no photo. */
  lemma {:induction false} NonImagesIgnored(files: seq<PickedFile>)
    requires forall i | 0 <= i < |files| :: !IsImage(files[i])
    ensures ImageUrls(files) == []
    decreases |files|
  {
    if files != [] {
      NonImagesIgnored(files[..|files| - 1]);
    }
  }

  /** A selection of images adds every one of them, in order. */
  lemma {:induction false} ImagesAllKept(files: seq<PickedFile>)
    requires forall i | 0 <= i < |files| :: IsImage(files[i])
    ensures |ImageUrls(files)| == |files|
    ensures forall i | 0 <= i < |files| :: ImageUrls(files)[i] == files[i].dataUrl
    decreases |files|
  {
    if files != [] {
      ImagesAllKept(files[..|files| - 1]);
    }
  }

  /** Every photo added comes from an image file of the selection. */
  lemma {:induction false} PhotosFromImages(files: seq<PickedFile>, k: nat)
    requires k < |ImageUrls(files)|
    ensures exists i | 0 <= i < |files| :: IsImage(files[i]) && files[i].dataUrl == ImageUrls(files)[k]
    decreases |files|
  {
    var front := files[..|files| - 1];
    var last := files[|files| - 1];
    if k < |ImageUrls(front)| {
      PhotosFromImages(front, k);
      var i :| 0 <= i < |front| && IsImage(front[i]) && front[i].dataUrl == ImageUrls(front)[k];
      assert files[i] == front[i];
    } else {
      assert IsImage(last) && ImageUrls(files)[k] == last.dataUrl;
    }
  }

  /** `photos.filter((_, i) => i !== index)`. */
  function WithoutIndex(photos: seq<string>, index: int): (r: seq<string>)
    ensures 0 <= index < |photos| ==> r == photos[..index] + photos[index + 1..]
    ensures !(0 <= index < |photos|) ==> r == photos
    decreases |photos|
  {
    if photos == [] then []
    else
      var rest := WithoutIndex(photos[1..], index - 1);
      assert 0 < index < |photos| ==> photos[1..][..index - 1] == photos[1..index];
      assert 0 < index < |photos| ==> photos[1..][index..] == photos[index + 1..];
      assert index == 0 ==> photos[1..] == photos[index + 1..];
      (if index == 0 then [] else [photos[0]]) + rest
  }

  /** Removing the photo just added gives the photos back as they were. */
  lemma RemoveUndoesAdd(photos: seq<string>, url: string)
    ensures WithoutIndex(photos + [url], |photos|) == photos
  {
    assert (photos + [url])[..|photos|] == photos;
  }

  // ---------------------------------------------------------------------------
  // parseFloat
  // ---------------------------------------------------------------------------

  /**
   * `parseFloat` on decimal notation: after leading blanks, an optional sign and
   * the longest `digits[.digits]` prefix, with at least one digit; `None` is NaN.
   */
  function ParseFloat(s: string): Option<real> {
    ParseSigned(TrimStart(s))
  }

  function ParseSigned(t: string): Option<real> {
    if t != [] && t[0] == '-' then
      match ParseUnsigned(t[1..])
      case Some(m) => Some(-m)
      case None => None
    else if t != [] && t[0] == '+' then ParseUnsigned(t[1..])
    else ParseUnsigned(t)
  }

  function ParseUnsigned(u: string): Option<real> {
    var whole := DigitPrefix(u);
    var after := u[|whole|..];
    var fraction := if after != [] && after[0] == '.' then DigitPrefix(after[1..]) else [];
    if whole == [] && fraction == [] then None
    else Some(SurplusQuantity.Magnitude(whole, fraction))
  }

  /** A run of digits reads as its decimal value. */
  lemma ParseUnsignedDigits(d: string)
    requires d != [] && AllDigits(d)
    ensures ParseUnsigned(d) == Some(DigitsValue(d) as real)
  {
    DigitPrefixOf(d, []);
    assert d + [] == d;
    SurplusQuantity.MagnitudeOfWhole(d);
  }

  /** Text starting with a digit or a sign has no blanks to skip. */
  lemma NoBlanksToSkip(t: string)
    requires t != [] && (IsDigit(t[0]) || t[0] == '-')
    ensures TrimStart(t) == t
  {
    TrimStartOf([], t);
    assert [] + t == t;
  }

  /** Reading back a rendered whole number gives that number. */
  lemma ParseFloatOfInt(n: int)
    ensures ParseFloat(IntString(n)) == Some(n as real)
  {
    var s := IntString(n);
    NoBlanksToSkip(s);
    if n < 0 {
      assert s[1..] == DecimalString(-n);
      ParseUnsignedDigits(DecimalString(-n));
    } else {
      ParseUnsignedDigits(DecimalString(n));
    }
  }

  /** A text without any digit reads as NaN. */
  lemma ParseUnsignedNoDigit(u: string)
    requires forall i | 0 <= i < |u| :: !IsDigit(u[i])
    ensures ParseUnsigned(u).None?
  {
    var after := u[|DigitPrefix(u)|..];
    assert after == u;
    assert after != [] && after[0] == '.' ==> |after| == 1 || !IsDigit(after[1..][0]);
  }

  lemma ParseFloatNoDigit(s: string)
    requires forall i | 0 <= i < |s| :: !IsDigit(s[i])
    ensures ParseFloat(s).None?
  {
    var t := TrimStart(s);
    assert forall i | 0 <= i < |t| :: !IsDigit(t[i]);
    ParseUnsignedNoDigit(t);
    if t != [] {
      ParseUnsignedNoDigit(t[1..]);
    }
  }

  // ---------------------------------------------------------------------------
  // Publishing
  // ---------------------------------------------------------------------------

  /** The listing's location, copied from the selected address. */
  datatype ListingLocation = ListingLocation(
    lat: real, lng: real, address: string, city: string, postcode: string, distanceLabel: string)

  /** The record handed to `onPost`. `price` is `None` when `parseFloat` gives NaN. */
  datatype Listing = Listing(
    title: string,
    category: Category,
    description: string,
    photoUrl: string,
    galleryUrls: seq<string>,
    quantity: string,
    price: Option<real>,
    proId: string,
    proName: string,
    location: ListingLocation,
    availability: string,
    pickupDeadline: string,
    isPremiumOnly: bool,
    weightEstimatedKg: real)

  /** What pressing "publish" does: an alert refusing the form, or the listing that is posted. */
  datatype PublishOutcome = Refused(alert: string) | Published(listing: Listing)

  const PhotoAndTitleRequired: string := "Une photo et un titre sont obligatoires pour publier."
  const LocationRequired: string := "Veuillez sélectionner une localisation pour votre lot."
  const DefaultQuantity: string := "1 lot"
  const UrgentDeadline: string := "Avant Vendredi (Urgent)"
  const FlexibleDeadline: string := "Flexible"

  /** `formData.priceType === 'don' ? 0 : parseFloat(formData.price || '0')`. */
  function ListingPrice(form: FormData): Option<real> {
    if form.priceType == Don then Some(0.0)
    else ParseFloat(if form.price == "" then "0" else form.price)
  }

  function ListingOf(form: FormData, place: GeocodedAddress): Listing
    requires |form.photos| > 0
  {
    Listing(
      form.title,
      form.category,
      "Mis à disposition pour éviter la benne. État correct.",
      form.photos[0],
      form.photos,
      if form.quantity == "" then DefaultQuantity else form.quantity,
      ListingPrice(form),
      "pro_1",
      "BatiConstruct PME",
      ListingLocation(place.lat, place.lng, place.addressLabel, place.city, place.postcode, "📍 Calcul en cours..."),
      "Sur rendez-vous",
      if form.isUrgent then UrgentDeadline else FlexibleDeadline,
      false,
      50.0)
  }

  /** `handlePublish`: the title and photo check, then the location check, then the record. */
  function Publish(form: FormData, selected: Option<GeocodedAddress>): (o: PublishOutcome)
    ensures o.Published? <==> form.title != "" && |form.photos| > 0 && selected.Some?
  {
    if form.title == "" || |form.photos| == 0 then Refused(PhotoAndTitleRequired)
    else if selected.None? then Refused(LocationRequired)
    else Published(ListingOf(form, selected.value))
  }

  /** The title and photo check comes first: without either, the alert is about them whatever the location. */
  lemma PublishChecksInOrder(form: FormData, selected: Option<GeocodedAddress>)
    ensures form.title == "" || |form.photos| == 0 ==> Publish(form, selected) == Refused(PhotoAndTitleRequired)
    ensures form.title != "" && |form.photos| > 0 && selected.None? ==>
      Publish(form, selected) == Refused(LocationRequired)
  {
  }

  /**
   * A published listing shows the first photo as its cover and the whole list
   * as its gallery, the form's quantity (or one lot), the urgent deadline
   * exactly for an urgent form, and the selected address.
   */
  lemma PublishedListing(form: FormData, place: GeocodedAddress)
    requires form.title != "" && |form.photos| > 0
    ensures Publish(form, Some(place)).Published?
    ensures var l := Publish(form, Some(place)).listing;
      && l.title == form.title
      && l.photoUrl == form.photos[0] && l.photoUrl in l.galleryUrls && l.galleryUrls == form.photos
      && (form.quantity != "" ==> l.quantity == form.quantity)
      && (form.quantity == "" ==> l.quantity == DefaultQuantity)
      && (l.pickupDeadline == UrgentDeadline <==> form.isUrgent)
      && l.location.address == place.addressLabel && l.location.city == place.city
      && l.location.postcode == place.postcode
      && l.location.lat == place.lat && l.location.lng == place.lng
  {
  }

  /** A gift is priced 0; a sale with no price typed in is priced 0 too; a typed whole price is read back. */
  lemma PriceRules(form: FormData, n: int)
    ensures form.priceType == Don ==> ListingPrice(form) == Some(0.0)
    ensures form.priceType == Vente && form.price == "" ==> ListingPrice(form) == Some(0.0)
    ensures form.priceType == Vente && form.price == IntString(n) ==> ListingPrice(form) == Some(n as real)
  {
    ParseFloatOfInt(0);
    assert IntString(0) == "0";
    ParseFloatOfInt(n);
    if form.price == IntString(n) {
      assert form.price != "";
    }
  }

  // ---------------------------------------------------------------------------
  // The form's state
  // ---------------------------------------------------------------------------

  datatype FormState = FormState(
    formData: FormData,
    locationQuery: string,
    locationSuggestions: seq<GeocodedAddress>,
    selectedLocation: Option<GeocodedAddress>)

  /** The query field shows the label of the selected address, whenever one is selected. */
  predicate ShowsSelection(s: FormState) {
    s.selectedLocation.Some? ==> s.locationQuery == s.selectedLocation.value.addressLabel
  }

  /** The minimum query length, in UTF-16 code units, before the address search runs. */
  const MinQueryLength: nat := 3

  class PostListingForm {
    var formData: FormData
    var locationQuery: string
    var locationSuggestions: seq<GeocodedAddress>
    var selectedLocation: Option<GeocodedAddress>

    function State(): FormState
      reads this
    {
      FormState(formData, locationQuery, locationSuggestions, selectedLocation)
    }

    constructor()
      ensures State() == FormState(InitialFormData, "", [], None)
      ensures ShowsSelection(State())
    {
      formData := InitialFormData;
      locationQuery := "";
      locationSuggestions := [];
      selectedLocation := None;
    }

    /**
     * `handleFileChange`: each picked file whose type starts with `image/` has its
     * data URL appended to the photos; nothing happens without a file list.
     */
    method HandleFileChange(files: Option<seq<PickedFile>>)
      modifies this
      ensures files.None? ==> State() == old(State())
      ensures files.Some? ==>
        State() == old(State()).(formData := old(formData).(photos := old(formData.photos) + ImageUrls(files.value)))
    {
      if files.None? {
        return;
      }
      var picked := files.value;
      for i := 0 to |picked|
        invariant State() == old(State()).(formData := old(formData).(photos := old(formData.photos) + ImageUrls(picked[..i])))
      {
        var file := picked[i];
        assert picked[..i + 1][..i] == picked[..i];
        if IsImage(file) {
          formData := formData.(photos := formData.photos + [file.dataUrl]);
        }
      }
      assert picked[..|picked|] == picked;
    }

    /** `removePhoto(index)`: drops the photo at that position, keeping the others in order. */
    method RemovePhoto(index: int)
      modifies this
      ensures State() == old(State()).(formData := old(formData).(photos := WithoutIndex(old(formData.photos), index)))
    {
      formData := formData.(photos := WithoutIndex(formData.photos, index));
    }

    /** `handleSelectLocation`: selects the address, shows its label in the query field and closes the suggestions. */
    method SelectLocation(location: GeocodedAddress)
      modifies this
      ensures State() == old(State()).(locationQuery := location.addressLabel, locationSuggestions := [],
                                       selectedLocation := Some(location))
      ensures ShowsSelection(State())
    {
      selectedLocation := Some(location);
      locationQuery := location.addressLabel;
      locationSuggestions := [];
    }

    /** Typing in the query field: the new text, and no address selected any more. */
    method EditQuery(query: string)
      modifies this
      ensures State() == old(State()).(locationQuery := query, selectedLocation := None)
      ensures ShowsSelection(State())
    {
      locationQuery := query;
      selectedLocation := None;
    }

    /**
     * `searchLocation`: a query under three characters clears the suggestions
     * without a lookup; otherwise the lookup's suggestions replace them, and a
     * failed lookup (`found == None`) leaves them as they were.
     */
    method SearchLocation(found: Option<seq<GeocodedAddress>>)
      modifies this
      ensures Utf16Length(old(locationQuery)) < MinQueryLength ==>
        State() == old(State()).(locationSuggestions := [])
      ensures Utf16Length(old(locationQuery)) >= MinQueryLength && found.Some? ==>
        State() == old(State()).(locationSuggestions := found.value)
      ensures Utf16Length(old(locationQuery)) >= MinQueryLength && found.None? ==>
        State() == old(State())
    {
      if Utf16Length(locationQuery) < MinQueryLength {
        locationSuggestions := [];
        return;
      }
      if found.Some? {
        locationSuggestions := found.value;
      }
    }
  }

  /** Every handler keeps the query field showing the selected address. */
  lemma HandlersKeepSelectionShown(s: FormState, files: seq<PickedFile>, index: int, found: seq<GeocodedAddress>)
    requires ShowsSelection(s)
    ensures ShowsSelection(s.(formData := s.formData.(photos := s.formData.photos + ImageUrls(files))))
    ensures ShowsSelection(s.(formData := s.formData.(photos := WithoutIndex(s.formData.photos, index))))
    ensures ShowsSelection(s.(locationSuggestions := found))
  {
  }

  /** When the first file picked is an image, its data URL is the first photo. */
  lemma FirstImageFirst(files: seq<PickedFile>)
    requires |files| > 0 && IsImage(files[0])
    ensures |ImageUrls(files)| > 0 && ImageUrls(files)[0] == files[0].dataUrl
  {
    ImageUrlsAppend([files[0]], files[1..]);
    assert [files[0]] + files[1..] == files;
    assert ImageUrls([files[0]]) == [files[0].dataUrl] by {
      assert [files[0]][..0] == [];
    }
  }

  /**
   * A titled form with a selected address, from which images were picked, is
   * published with the first picked image as its cover.
   */
  lemma PublishAfterUpload(form: FormData, files: seq<PickedFile>, place: GeocodedAddress)
    requires form.title != "" && form.photos == []
    requires |files| > 0 && IsImage(files[0])
    ensures var uploaded := form.(photos := ImageUrls(files));
      && Publish(uploaded, Some(place)).Published?
      && Publish(uploaded, Some(place)).listing.photoUrl == files[0].dataUrl
  {
    FirstImageFirst(files);
    PublishedListing(form.(photos := ImageUrls(files)), place);
  }
}
