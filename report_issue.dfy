/**
 * frontend/src/components/ReportIssue.jsx: the report form's state and
 * handlers (media upload and removal, submit, the two location panels'
 * Confirm and Clear buttons, the map confirmation) and the pure pieces they
 * use (the request payload, the address join, the reverse-geocode fallback
 * chains).
 */
module ReportIssue {
  import opened Js
  import opened JsStrings
  import opened Seqs
  import opened IssueModel
  import IssueStore

  /** A selected file: its `name` and its MIME `type`. */
  datatype MediaFile = MediaFile(name: string, mimeType: string)

  predicate IsImage(f: MediaFile) { StartsWith(f.mimeType, "image/") }
  predicate IsVideo(f: MediaFile) { StartsWith(f.mimeType, "video/") }

  /** `files.filter(file => file.type.startsWith('image/'))` */
  function Images(files: seq<MediaFile>): seq<MediaFile> { Filter(files, IsImage) }

  /** `files.filter(file => file.type.startsWith('video/'))` */
  function Videos(files: seq<MediaFile>): seq<MediaFile> { Filter(files, IsVideo) }

  /**
   * Upload sorts the selection: images go to the photos in their order,
   * videos to the videos, no file goes to both, and a file of any other
   * type goes nowhere.
   */
  lemma UploadSortsMedia(files: seq<MediaFile>, f: MediaFile)
    ensures IsSubsequence(Images(files), files) && IsSubsequence(Videos(files), files)
    ensures f in Images(files) <==> f in files && IsImage(f)
    ensures f in Videos(files) <==> f in files && IsVideo(f)
    ensures !(f in Images(files) && f in Videos(files))
    ensures !IsImage(f) && !IsVideo(f) ==> f !in Images(files) && f !in Videos(files)
  {
    FilterMembership(files, IsImage, f);
    FilterMembership(files, IsVideo, f);
  }

  /** The `fullAddress` of the location panel: `[address, city].filter(Boolean).join(', ')`. */
  function FullAddress(address: string, city: string): string {
    Join(Filter([address, city], (s: string) => s != ""), ", ")
  }

  /** The joined address is whichever of the two is non-empty, both with a comma between, or empty. */
  lemma FullAddressCases(address: string, city: string)
    ensures address != "" && city != "" ==> FullAddress(address, city) == address + ", " + city
    ensures address != "" && city == "" ==> FullAddress(address, city) == address
    ensures address == "" && city != "" ==> FullAddress(address, city) == city
    ensures FullAddress(address, city) == "" <==> address == "" && city == ""
  {
    var p := (s: string) => s != "";
    assert [address, city][1..] == [city];
    assert [city][1..] == [];
    assert Filter([city], p) == if city != "" then [city] else [];
    assert Filter([address, city], p) == (if address != "" then [address] else []) + Filter([city], p);
    assert Join([address, city], ", ") == address + ", " + Join([city], ", ");
  }

  /** The `address` object of a Nominatim reply, with the keys the handler reads. */
  datatype GeocodeAddress = GeocodeAddress(
    city: Option<string>, town: Option<string>, village: Option<string>,
    municipality: Option<string>, cityDistrict: Option<string>,
    state: Option<string>, province: Option<string>, stateDistrict: Option<string>,
    county: Option<string>, region: Option<string>,
    postcode: Option<string>, country: Option<string>)

  /** A Nominatim reverse-geocoding reply: `display_name` and `address`. */
  datatype GeocodeReply = GeocodeReply(displayName: Option<string>, address: Option<GeocodeAddress>)

  /** `addr.city || addr.town || addr.village || addr.municipality || addr.city_district || ''` */
  function CityOf(a: GeocodeAddress): (r: string)
    ensures Truthy(a.city) ==> r == a.city.value
    ensures !Truthy(a.city) && Truthy(a.town) ==> r == a.town.value
    ensures !Truthy(a.city) && !Truthy(a.town) && Truthy(a.village) ==> r == a.village.value
    ensures !Truthy(a.city) && !Truthy(a.town) && !Truthy(a.village) && Truthy(a.municipality) ==>
              r == a.municipality.value
    ensures (!Truthy(a.city) && !Truthy(a.town) && !Truthy(a.village) && !Truthy(a.municipality) &&
             Truthy(a.cityDistrict)) ==> r == a.cityDistrict.value
    ensures r == "" <==> !Truthy(a.city) && !Truthy(a.town) && !Truthy(a.village) &&
                         !Truthy(a.municipality) && !Truthy(a.cityDistrict)
    ensures r != "" ==> Some(r) in [a.city, a.town, a.village, a.municipality, a.cityDistrict]
  {
    var vs := [a.city, a.town, a.village, a.municipality, a.cityDistrict];
    assert vs[0] == a.city && vs[1] == a.town && vs[2] == a.village && vs[3] == a.municipality && vs[4] == a.cityDistrict;
    FirstTruthy(vs)
  }

  /** `addr.state || addr.province || addr.state_district || addr.county || addr.region || ''` */
  function StateOf(a: GeocodeAddress): (r: string)
    ensures Truthy(a.state) ==> r == a.state.value
    ensures !Truthy(a.state) && Truthy(a.province) ==> r == a.province.value
    ensures !Truthy(a.state) && !Truthy(a.province) && Truthy(a.stateDistrict) ==> r == a.stateDistrict.value
    ensures !Truthy(a.state) && !Truthy(a.province) && !Truthy(a.stateDistrict) && Truthy(a.county) ==>
              r == a.county.value
    ensures (!Truthy(a.state) && !Truthy(a.province) && !Truthy(a.stateDistrict) && !Truthy(a.county) &&
             Truthy(a.region)) ==> r == a.region.value
    ensures r == "" <==> !Truthy(a.state) && !Truthy(a.province) && !Truthy(a.stateDistrict) &&
                         !Truthy(a.county) && !Truthy(a.region)
    ensures r != "" ==> Some(r) in [a.state, a.province, a.stateDistrict, a.county, a.region]
  {
    var vs := [a.state, a.province, a.stateDistrict, a.county, a.region];
    assert vs[0] == a.state && vs[1] == a.province && vs[2] == a.stateDistrict && vs[3] == a.county && vs[4] == a.region;
    FirstTruthy(vs)
  }

  /** The `issueData` object that `handleSubmit` serialises. */
  datatype IssuePayload = IssuePayload(
    title: string, description: string, category: string, priority: string,
    location: string, address: string, city: string, state: string,
    zipCode: string, country: string,
    coordinates: Option<Coordinates>,
    image: Option<string>)

  /**
   * `issueData`: the trimmed text fields, category and priority as chosen,
   * the map position, and the first photo's name.
   */
  function Payload(title: string, description: string, category: string, priority: string,
                   location: string, address: string, city: string, state: string,
                   zipCode: string, country: string,
                   mapPosition: Option<(real, real)>, photos: seq<MediaFile>): IssuePayload
  {
    IssuePayload(
      title := Trim(title),
      description := Trim(description),
      category := category,
      priority := priority,
      location := Trim(location),
      address := Trim(address),
      city := Trim(city),
      state := Trim(state),
      zipCode := Trim(zipCode),
      country := Trim(country),
      coordinates := if mapPosition.Some? then Some(Coordinates(mapPosition.value.0, mapPosition.value.1)) else None,
      image := if |photos| > 0 then Some(photos[0].name) else None)
  }

  /** Submit's guard: title, description and location each have a non-blank character. */
  predicate FormComplete(title: string, description: string, location: string) {
    Trim(title) != "" && Trim(description) != "" && Trim(location) != ""
  }

  /**
   * The body the backend reads from that JSON: `image: undefined` is dropped
   * by `JSON.stringify` and `coordinates: null` is no coordinates.
   */
  function PayloadAsBody(p: IssuePayload): IssueStore.IssueBody {
    IssueStore.IssueBody(Some(p.title), Some(p.category), Some(p.location), Some(p.priority), p.image,
                         Some(p.description), Some(p.address), Some(p.city), Some(p.state),
                         Some(p.zipCode), Some(p.country), p.coordinates)
  }

  /** The whole form, as the submit handler reads it. */
  class Form {
    var title: string
    var description: string
    var location: string
    var category: string
    var priority: string
    var photos: seq<MediaFile>
    var videos: seq<MediaFile>
    var statusMsg: string
    var mapPosition: Option<(real, real)>
    var tempPosition: Option<(real, real)>
    var address: string
    var city: string
    var state: string
    var zipCode: string
    var country: string

    /** The text, the choices, the media and the message as a fresh form has them. */
    predicate FormCleared()
      reads this
    {
      && title == "" && description == "" && location == ""
      && category == "infrastructure" && priority == "medium"
      && photos == [] && videos == [] && statusMsg == ""
    }

    /** No confirmed position and no address details. */
    predicate LocationDetailsCleared()
      reads this
    {
      mapPosition == None && address == "" && city == "" && state == "" && zipCode == "" && country == ""
    }

    /** The location panel's Confirm and Clear buttons are disabled when there is neither address, city nor position. */
    predicate LocationButtonsEnabled()
      reads this
    {
      address != "" || city != "" || mapPosition.Some?
    }

    constructor ()
      ensures FormCleared() && LocationDetailsCleared() && tempPosition == None
    {
      title, description, location := "", "", "";
      category, priority := "infrastructure", "medium";
      photos, videos, statusMsg := [], [], "";
      mapPosition, tempPosition := None, None;
      address, city, state, zipCode, country := "", "", "", "", "";
    }

    /** `handlePhotoUpload`: images appended to the photos, videos to the videos. */
    method HandlePhotoUpload(files: seq<MediaFile>)
      modifies this`photos, this`videos
      ensures photos == old(photos) + Images(files)
      ensures videos == old(videos) + Videos(files)
    {
      photos := photos + Images(files);
      videos := videos + Videos(files);
    }

    /** `removePhoto(index)`: the photo at `index` leaves the list, if there is one. */
    method RemovePhoto(index: int)
      modifies this`photos
      ensures photos == RemoveAt(old(photos), index)
    {
      photos := RemoveAt(photos, index);
    }

    /** `removeVideo(index)`: the video at `index` leaves the list, if there is one. */
    method RemoveVideo(index: int)
      modifies this`videos
      ensures videos == RemoveAt(old(videos), index)
    {
      videos := RemoveAt(videos, index);
    }

    /**
     * `handleSubmit` up to the reply: an incomplete form only gets the error
     * message; a complete one sends the payload and shows the outcome. The
     * form itself is cleared later, by `ResetAfterSave`.
     */
    method HandleSubmit(outcome: SubmitOutcome) returns (sent: Option<IssuePayload>)
      modifies this`statusMsg
      ensures !FormComplete(title, description, location) ==>
                sent == None && statusMsg == "Please fill out title, description, and location."
      ensures FormComplete(title, description, location) ==> 
                sent == Some(Payload(title, description, category, priority, location, address,
                                     city, state, zipCode, country, mapPosition, photos))
      ensures FormComplete(title, description, location) ==> statusMsg == SubmitStatus(outcome)
    {
      if !FormComplete(title, description, location) {
        statusMsg := "Please fill out title, description, and location.";
        return None;
      }
      statusMsg := "Saving issue...";
      sent := Some(Payload(title, description, category, priority, location, address,
                                 city, state, zipCode, country, mapPosition, photos));
      statusMsg := SubmitStatus(outcome);
    }

    /** The timer callback after a successful save: every field back to its initial value but the proposal. */
    method ResetAfterSave()
      modifies this`title, this`description, this`location, this`category, this`priority
      modifies this`photos, this`videos, this`statusMsg, this`mapPosition
      modifies this`address, this`city, this`state, this`zipCode, this`country
      ensures FormCleared() && LocationDetailsCleared()
    {
      ClearForm();
      mapPosition := None;
      address, city, state, zipCode, country := "", "", "", "", "";
    }

    /** The form's Clear button: the text, the choices, the media and the message; the location panel is kept. */
    method ClearForm()
      modifies this`title, this`description, this`location, this`category, this`priority
      modifies this`photos, this`videos, this`statusMsg
      ensures FormCleared()
    {
      title, description, location := "", "", "";
      category, priority := "infrastructure", "medium";
      photos, videos, statusMsg := [], [], "";
    }

    /**
     * The location panel's Confirm button: the location becomes the joined
     * address and city, or, when both are empty, only the message changes.
     */
    method ConfirmAddress()
      requires LocationButtonsEnabled()
      modifies this`location, this`statusMsg
      ensures FullAddress(address, city) != "" ==>
                location == FullAddress(address, city) && statusMsg == "Location confirmed successfully!"
      ensures FullAddress(address, city) == "" ==>
                location == old(location) && statusMsg == "Please enter address details or select location on map."
    {
      var full := FullAddress(address, city);
      if full != "" {
        location := full;
        statusMsg := "Location confirmed successfully!";
      } else {
        statusMsg := "Please enter address details or select location on map.";
      }
    }

    /** The location panel's Clear button: position, proposal, location and address fields emptied. */
    method ClearLocation()
      requires LocationButtonsEnabled()
      modifies this`mapPosition, this`tempPosition, this`location
      modifies this`address, this`city, this`state, this`zipCode, this`country
      ensures LocationDetailsCleared() && tempPosition == None && location == ""
    {
      mapPosition := None;
      location := "";
      address, city, state, zipCode, country := "", "", "", "", "";
      tempPosition := None;
    }

    /** A double click on the map proposes a position. */
    method PickPosition(lat: real, lng: real)
      modifies this`tempPosition
      ensures tempPosition == Some((lat, lng))
    {
      tempPosition := Some((lat, lng));
    }

    /** `handleCancelLocation`: the proposal is dropped. */
    method CancelLocation()
      modifies this`tempPosition
      ensures tempPosition == None
    {
      tempPosition := None;
    }

    /**
     * `handleConfirmLocation` with the geocoder's reply as a parameter
     * (`None` when the request fails) and the `toFixed(6)` text of the
     * position as `coordText`. Without a proposal nothing happens.
     */
    method ConfirmMapLocation(coordText: string, reply: Option<GeocodeReply>)
      modifies this`mapPosition, this`location, this`address, this`city, this`state, this`zipCode, this`country
      ensures old(tempPosition).None? ==>
                mapPosition == old(mapPosition) && location == old(location) && address == old(address) &&
                city == old(city) && state == old(state) && zipCode == old(zipCode) && country == old(country)
      ensures old(tempPosition).Some? ==> mapPosition == old(tempPosition) && location == coordText
      ensures old(tempPosition).Some? && reply.Some? && reply.value.address.Some? ==>
                && address == OrElse(reply.value.displayName, "")
                && city == CityOf(reply.value.address.value)
                && state == StateOf(reply.value.address.value)
                && zipCode == OrElse(reply.value.address.value.postcode, "")
                && country == OrElse(reply.value.address.value.country, "")
      ensures old(tempPosition).Some? && reply.Some? && reply.value.address.None? ==>
                address == OrElse(reply.value.displayName, old(address)) &&
                city == old(city) && state == old(state) && zipCode == old(zipCode) && country == old(country)
      ensures old(tempPosition).Some? && reply.None? ==>
                address == old(address) && city == old(city) && state == old(state) &&
                zipCode == old(zipCode) && country == old(country)
    {
      if tempPosition.Some? {
        mapPosition := tempPosition;
        location := coordText;
        if reply.Some? {
          var r := reply.value;
          if r.address.Some? {
            var a := r.address.value;
            address := OrElse(r.displayName, "");
            city := CityOf(a);
            state := StateOf(a);
            zipCode := OrElse(a.postcode, "");
            country := OrElse(a.country, "");
          } else if Truthy(r.displayName) {
            address := r.displayName.value;
          }
        }
      }
    }
  }

  /** The reply to the submit request: `response.ok`, the body's `success` and `message`, or no connection. */
  datatype SubmitOutcome =
    | SubmitReplied(ok: bool, success: bool, message: Option<string>)
    | SubmitConnectionFailed

  /**
   * The status line once the request has settled: the success line for an
   * ok reply whose body says `success`, the server's message (or a
   * fallback) after a cross mark for any other reply, and the connection
   * error when the request itself failed.
   */
  function SubmitStatus(outcome: SubmitOutcome): string {
    match outcome
    case SubmitReplied(ok, success, message) =>
      if ok && success then SavedMessage else "\U{274C} " + OrElse(message, "Failed to save issue")
    case SubmitConnectionFailed => "\U{274C} Error: Unable to connect to server"
  }

  const SavedMessage := "\U{2705} Issue saved successfully!"

  /** The success line is shown exactly when the reply is ok and reports success; every other outcome shows an error line. */
  lemma SubmitStatusSuccess(outcome: SubmitOutcome)
    ensures SubmitStatus(outcome) == SavedMessage <==> outcome.SubmitReplied? && outcome.ok && outcome.success
    ensures SubmitStatus(outcome) != SavedMessage ==> SubmitStatus(outcome)[0] == '\U{274C}'
  {
    if !(outcome.SubmitReplied? && outcome.ok && outcome.success) {
      assert SubmitStatus(outcome)[0] != SavedMessage[0];
    }
  }

  /** Every text field of a sent payload is already trimmed. */
  lemma PayloadFieldsTrimmed(title: string, description: string, category: string, priority: string,
                             location: string, address: string, city: string, state: string,
                             zipCode: string, country: string,
                             mapPosition: Option<(real, real)>, photos: seq<MediaFile>)
    ensures var p := Payload(title, description, category, priority, location, address,
                             city, state, zipCode, country, mapPosition, photos);
            && Trim(p.title) == p.title && Trim(p.description) == p.description
            && Trim(p.location) == p.location && Trim(p.address) == p.address
            && Trim(p.city) == p.city && Trim(p.state) == p.state
            && Trim(p.zipCode) == p.zipCode && Trim(p.country) == p.country
  {
    TrimIdempotent(title);
    TrimIdempotent(description);
    TrimIdempotent(location);
    TrimIdempotent(address);
    TrimIdempotent(city);
    TrimIdempotent(state);
    TrimIdempotent(zipCode);
    TrimIdempotent(country);
  }

  /** A form whose title, description or location is all white space is never sent. */
  lemma BlankFieldBlocksSubmit(title: string, description: string, location: string)
    requires IsBlank(title) || IsBlank(description) || IsBlank(location)
    ensures !FormComplete(title, description, location)
  {
    TrimEmptyIffBlank(title);
    TrimEmptyIffBlank(description);
    TrimEmptyIffBlank(location);
  }

  /** A payload with every required text present is saved, with the placeholder image since no file comes with it. */
  lemma PayloadAccepted(p: IssuePayload, id: nat, now: int)
    requires p.title != "" && p.description != "" && p.location != "" && p.category != "" && p.priority != ""
    ensures IssueStore.HasRequiredFields(PayloadAsBody(p))
    ensures IssueStore.NewIssue(PayloadAsBody(p), None, id, now).image == Some(IssueStore.PlaceholderImage)
    ensures IssueStore.NewIssue(PayloadAsBody(p), None, id, now).imagePublicId == None
  {
  }

  /**
   * A payload the form sends passes the backend's required-field check
   * whenever a category and a priority are chosen, and since the request is
   * JSON without a file the saved issue shows the placeholder image whatever
   * photo name the payload carried. This relates the payload to the create
   * handler directly: the form posts to `/api/issues`, while the handler is
   * mounted at `/api/issues/create` (backend/route/data.route.js:14 under
   * backend/index.js:34), so the request as written does not reach it.
   */
  lemma SentPayloadAccepted(title: string, description: string, category: string, priority: string,
                            location: string, address: string, city: string, state: string,
                            zipCode: string, country: string,
                            mapPosition: Option<(real, real)>, photos: seq<MediaFile>, id: nat, now: int)
    requires FormComplete(title, description, location)
    requires category != "" && priority != ""
    ensures var b := PayloadAsBody(Payload(title, description, category, priority, location, address,
                                           city, state, zipCode, country, mapPosition, photos));
            && IssueStore.HasRequiredFields(b)
            && IssueStore.NewIssue(b, None, id, now).image == Some(IssueStore.PlaceholderImage)
            && IssueStore.NewIssue(b, None, id, now).imagePublicId == None
  {
    var p := Payload(title, description, category, priority, location, address,
                     city, state, zipCode, country, mapPosition, photos);
    PayloadAccepted(p, id, now);
  }
}
