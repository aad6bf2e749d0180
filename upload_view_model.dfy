/**
 * The upload form's view model: the validation in front of `createLostItem`, the upload state with
 * its event counter (every finished submission bumps it once, so the screen reacts once), and
 * the location picked on the map.
 */
module UploadViewModel {
  import opened Wrappers
  import opened Text
  import opened DocumentStore
  import opened Auth
  import opened Geo
  import opened LostItemStorageManager

  /** A Kotlin `Int`. */
  newtype int32 = x: int | -0x8000_0000 <= x < 0x8000_0000

  /** `eventId + 1` on a Kotlin `Int`: two's-complement addition, wrapping at the top. */
  function Increment(n: int32): (r: int32)
    ensures (r as int - n as int) % 0x1_0000_0000 == 1
  {
    if n == 0x7FFF_FFFF then -0x8000_0000 else n + 1
  }

  /** The counter always moves, and distinct values stay distinct. */
  lemma IncrementChanges(m: int32, n: int32)
    ensures Increment(n) != n
    ensures m != n ==> Increment(m) != Increment(n)
  {
  }

  /** `ItemState`. */
  datatype ItemState = ItemState(error: Option<string>, successMsg: Option<string>, eventId: int32, isUploading: bool)

  /** The defaults of `ItemState()`. */
  const InitialState: ItemState := ItemState(None, None, 0, false)

  const MissingFields: string := "Make sure all fields are filled out!"
  const MissingPhoto: string := "Please take a photo of the item!"
  const CreatedMessage: string := "Successfully created lost item!"

  /** The required text fields: name, location, description, city and state. */
  predicate AllFilled(req: CreateRequest) {
    !IsBlank(req.itemName) && !IsBlank(req.location) && !IsBlank(req.description)
    && !IsBlank(req.city) && !IsBlank(req.state)
  }

  /** The validation, first failing rule first: a blank field, then a missing photo. */
  function ValidationError(req: CreateRequest, imageUri: Option<string>): Option<string> {
    if IsBlank(req.itemName) || IsBlank(req.location) || IsBlank(req.description)
       || IsBlank(req.city) || IsBlank(req.state) then Some(MissingFields)
    else if imageUri.None? then Some(MissingPhoto)
    else None
  }

  /**
   * A submission passes exactly when all five fields are filled and there is a photo; a blank field
   * is reported even without a photo; contact info and coordinates are never looked at.
   */
  lemma ValidationSpec(req: CreateRequest, imageUri: Option<string>, contactInfo: string, latitude: real, longitude: real)
    ensures ValidationError(req, imageUri) == None <==> AllFilled(req) && imageUri.Some?
    ensures !AllFilled(req) ==> ValidationError(req, imageUri) == Some(MissingFields)
    ensures AllFilled(req) && imageUri.None? ==> ValidationError(req, imageUri) == Some(MissingPhoto)
    ensures ValidationError(req.(contactInfo := contactInfo, latitude := latitude, longitude := longitude), imageUri)
            == ValidationError(req, imageUri)
  {
  }

  /** A rejected submission: the message, no success, not uploading, and the next event. */
  function Rejected(st: ItemState, message: string): ItemState {
    st.(successMsg := None, error := Some(message), isUploading := false, eventId := Increment(st.eventId))
  }

  /** The start step of the upload: uploading, both messages cleared, the event counter kept. */
  function Started(st: ItemState): ItemState {
    st.(isUploading := true, error := None, successMsg := None)
  }

  /** How the create call ends: its returned result, or an exception thrown out of it. */
  datatype CreateCompletion = Returned(result: Result<string, Exception>) | Threw(exception: Exception)

  /** The end of the upload: one of the messages, not uploading, and the next event. */
  function Completed(st: ItemState, c: CreateCompletion): ItemState {
    match c
    case Returned(Success(_)) =>
      st.(isUploading := false, successMsg := Some(CreatedMessage), error := None, eventId := Increment(st.eventId))
    case Returned(Failure(e)) =>
      st.(isUploading := false, error := Some(MessageOr(e, "Failed to create lost item")), successMsg := None,
          eventId := Increment(st.eventId))
    case Threw(e) =>
      st.(isUploading := false, error := Some("An error occurred: " + MessageText(e)), successMsg := None,
          eventId := Increment(st.eventId))
  }

  /**
   * Each submission moves the counter by exactly one when it reaches its end, whichever end that is;
   * the start step does not move it; and the two messages are never both set at the end.
   */
  lemma OneEventPerSubmission(st: ItemState, req: CreateRequest, imageUri: Option<string>, c: CreateCompletion)
    ensures var v := ValidationError(req, imageUri);
      v.Some? ==> Rejected(st, v.value).eventId == Increment(st.eventId) && !Rejected(st, v.value).isUploading
    ensures Started(st).eventId == st.eventId && Started(st).isUploading
    ensures var done := Completed(Started(st), c);
      && done.eventId == Increment(st.eventId) && !done.isUploading
      && (done.error.None? <==> done.successMsg.Some?)
  {
  }

  /**
   * The upload's messages follow the storage manager: with no one signed in the error shown is
   * "User not authenticated"; when every step succeeds the success message is shown.
   */
  lemma UploadMessages(st: ItemState, s: Stores, user: Option<User>, req: CreateRequest, itemId: string, millis: nat,
                       now: Timestamp, faults: CreateFaults)
    ensures user.None? ==>
      Completed(st, Returned(CreateLostItemSpec(s, user, req, itemId, millis, now, faults).0)).error ==
        Some("User not authenticated")
    ensures user.Some? && faults.upload.None? && faults.downloadUrl.Success? && faults.write.None? ==>
      Completed(st, Returned(CreateLostItemSpec(s, user, req, itemId, millis, now, faults).0)).successMsg ==
        Some(CreatedMessage)
  {
    if user.None? {
      NoUserChangesNothing(s, req, itemId, millis, now, faults,
                           UpdateImageFaults(None, None, None, Success(""), None), DeleteFaults(None, None, None));
    } else {
      CreateSucceeds(s, user, req, itemId, millis, now, faults);
    }
  }

  /** `UploadViewModel` with its two state flows. */
  class UploadViewModel {
    var uiState: ItemState
    var selectedLocation: Option<LatLng>

    constructor ()
      ensures uiState == InitialState && selectedLocation == None
    {
      uiState := InitialState;
      selectedLocation := None;
    }

    /**
     * `submitLostItem` up to the create call: a failed validation is the end of the submission; a
     * passed one starts the upload and hands on the request the create call is made with.
     */
    method SubmitLostItem(imageUri: Option<string>, req: CreateRequest) returns (create: Option<CreateRequest>)
      modifies this
      ensures var v := ValidationError(req, imageUri);
        && (v.Some? ==> uiState == Rejected(old(uiState), v.value) && create == None)
        && (v.None? ==> uiState == Started(old(uiState)) && create == Some(req))
      ensures selectedLocation == old(selectedLocation)
    {
      if IsBlank(req.itemName) || IsBlank(req.location) || IsBlank(req.description)
         || IsBlank(req.city) || IsBlank(req.state) {
        uiState := uiState.(successMsg := None, error := Some(MissingFields), isUploading := false,
                            eventId := Increment(uiState.eventId));
        return None;
      }
      if imageUri.None? {
        uiState := uiState.(successMsg := None, error := Some(MissingPhoto), isUploading := false,
                            eventId := Increment(uiState.eventId));
        return None;
      }
      uiState := uiState.(isUploading := true, error := None, successMsg := None);
      return Some(req);
    }

    /** The completion of the create call. */
    method OnCreateCompleted(c: CreateCompletion)
      modifies this
      ensures uiState == Completed(old(uiState), c)
      ensures selectedLocation == old(selectedLocation)
    {
      match c
      case Returned(result) =>
        if result.Success? {
          uiState := uiState.(isUploading := false, successMsg := Some(CreatedMessage), error := None,
                              eventId := Increment(uiState.eventId));
        } else {
          uiState := uiState.(isUploading := false, error := Some(MessageOr(result.error, "Failed to create lost item")),
                              successMsg := None, eventId := Increment(uiState.eventId));
        }
      case Threw(e) =>
        uiState := uiState.(isUploading := false, error := Some("An error occurred: " + MessageText(e)),
                            successMsg := None, eventId := Increment(uiState.eventId));
    }

    /** `onMapClick`: only the picked location changes. */
    method OnMapClick(latLng: LatLng)
      modifies this
      ensures selectedLocation == Some(latLng) && uiState == old(uiState)
    {
      selectedLocation := Some(latLng);
    }
  }
}
