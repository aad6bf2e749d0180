/** A map position. */
module Geo {

  /** `LatLng`: two coordinates, compared by value. */
  datatype LatLng = LatLng(latitude: real, longitude: real)
}

/**
 * The map's view model: a mode machine (normal, adding a marker, deleting a marker) over a list
 * of user-placed markers that never holds the same position twice, a selected marker, and the
 * location-permission gate in front of the current-location fetch.
 */
module MapViewModel {
  import opened Wrappers
  import opened DocumentStore
  import opened Geo

  /** `Mode`. */
  datatype Mode = Normal | AddMarker | DeleteMarker

  /** `MapState`. */
  datatype MapState = MapState(
    markers: seq<LatLng>,
    currentLocation: Option<LatLng>,
    locationPermissionGranted: bool,
    isLoading: bool,
    error: Option<string>,
    mode: Mode)

  /** The defaults of `MapState()`. */
  const InitialState: MapState := MapState([], None, false, false, None, Normal)

  /** The position used when the fetch gives no location or the emulator's default one (Madison, WI). */
  const FallbackLocation: LatLng := LatLng(43.0731, -89.4012)

  predicate NoDuplicates(s: seq<LatLng>) {
    forall i, j :: 0 <= i < j < |s| ==> s[i] != s[j]
  }

  /** The mode transitions: each changes `mode` and nothing else. */
  function WithMode(st: MapState, mode: Mode): (r: MapState)
    ensures r.mode == mode && r.(mode := st.mode) == st
  {
    st.(mode := mode)
  }

  /**
   * `addMarker`: a position already on the list (same latitude and longitude) only leaves the mode;
   * a new one is appended. Either way the mode becomes normal.
   */
  function AddMarkerTo(st: MapState, position: LatLng): MapState {
    if position in st.markers then st.(mode := Normal)
    else st.(markers := st.markers + [position], mode := Normal)
  }

  /** `MutableList.remove(x)`: drops the first occurrence, if any. */
  function RemoveFirst(s: seq<LatLng>, x: LatLng): seq<LatLng> {
    if s == [] then []
    else if s[0] == x then s[1..]
    else [s[0]] + RemoveFirst(s[1..], x)
  }

  /** The position of the first occurrence. */
  function IndexOf(s: seq<LatLng>, x: LatLng): (i: nat)
    requires x in s
    ensures i < |s| && s[i] == x && x !in s[..i]
  {
    if s[0] == x then 0
    else
      var j := IndexOf(s[1..], x);
      assert s[..j + 1] == [s[0]] + s[1..][..j];
      j + 1
  }

  /** `removeMarker`: the first occurrence goes, and the mode becomes normal. */
  function RemoveMarkerFrom(st: MapState, marker: LatLng): MapState {
    st.(markers := RemoveFirst(st.markers, marker), mode := Normal)
  }

  /** Removal takes out exactly the first occurrence and keeps everything else in order. */
  lemma {:induction false} RemoveFirstSpec(s: seq<LatLng>, x: LatLng)
    ensures x !in s ==> RemoveFirst(s, x) == s
    ensures x in s ==> RemoveFirst(s, x) == s[..IndexOf(s, x)] + s[IndexOf(s, x) + 1..]
  {
    if s != [] && s[0] != x {
      RemoveFirstSpec(s[1..], x);
      if x in s {
        var j := IndexOf(s[1..], x);
        assert s[..j + 1] == [s[0]] + s[1..][..j];
        assert s[j + 2..] == s[1..][j + 1..];
      } else {
        assert s == [s[0]] + s[1..];
      }
    }
  }

  /** Adding keeps the list duplicate-free and appends only a position not yet on it. */
  lemma AddMarkerKeepsNoDuplicates(st: MapState, position: LatLng)
    requires NoDuplicates(st.markers)
    ensures var r := AddMarkerTo(st, position);
      && NoDuplicates(r.markers) && position in r.markers && r.mode == Normal
      && (position in st.markers ==> r == st.(mode := Normal))
      && (position !in st.markers ==> r.markers == st.markers + [position])
  {
  }

  /** Removing keeps the list duplicate-free, and on such a list leaves no copy of the marker behind. */
  lemma RemoveMarkerKeepsNoDuplicates(st: MapState, marker: LatLng)
    requires NoDuplicates(st.markers)
    ensures var r := RemoveMarkerFrom(st, marker);
      NoDuplicates(r.markers) && marker !in r.markers && r.mode == Normal
      && |r.markers| == (if marker in st.markers then |st.markers| - 1 else |st.markers|)
  {
    var s := st.markers;
    RemoveFirstSpec(s, marker);
    if marker in s {
      var i := IndexOf(s, marker);
      var r := s[..i] + s[i + 1..];
      forall a, b | 0 <= a < b < |r| ensures r[a] != r[b] {
        var a' := if a < i then a else a + 1;
        var b' := if b < i then b else b + 1;
        assert r[a] == s[a'] && r[b] == s[b'];
      }
      forall k | 0 <= k < |r| ensures r[k] != marker {
        if k >= i { assert r[k] == s[k + 1]; }
      }
    }
  }

  /** The marker edits the screen can make. */
  datatype MarkerEdit = Add(position: LatLng) | Remove(marker: LatLng)

  function ApplyEdits(st: MapState, edits: seq<MarkerEdit>): MapState
    decreases |edits|
  {
    if edits == [] then st
    else
      var next := match edits[0] case Add(p) => AddMarkerTo(st, p) case Remove(m) => RemoveMarkerFrom(st, m);
      ApplyEdits(next, edits[1..])
  }

  /** Starting from the empty list, no sequence of adds and removes ever produces a duplicate. */
  lemma {:induction false} EditsKeepNoDuplicates(st: MapState, edits: seq<MarkerEdit>)
    requires NoDuplicates(st.markers)
    ensures NoDuplicates(ApplyEdits(st, edits).markers)
    decreases |edits|
  {
    if edits != [] {
      match edits[0]
      case Add(p) =>
        AddMarkerKeepsNoDuplicates(st, p);
        EditsKeepNoDuplicates(AddMarkerTo(st, p), edits[1..]);
      case Remove(m) =>
        RemoveMarkerKeepsNoDuplicates(st, m);
        EditsKeepNoDuplicates(RemoveMarkerFrom(st, m), edits[1..]);
    }
  }

  lemma FromEmptyNoDuplicates(edits: seq<MarkerEdit>)
    ensures NoDuplicates(ApplyEdits(InitialState, edits).markers)
  {
    EditsKeepNoDuplicates(InitialState, edits);
  }

  /**
   * The synchronous part of `getCurrentLocation`: without permission only the error is set and no
   * fetch starts; with it, loading starts, the error clears and the fetch is requested.
   */
  function RequestLocation(st: MapState): (MapState, bool) {
    if !st.locationPermissionGranted then (st.(error := Some("Location permission not granted.")), false)
    else (st.(isLoading := true, error := None), true)
  }

  /** How the location fetch ends. */
  datatype LocationOutcome =
    | Located(received: Option<LatLng>, googleDefault: bool)  // success; whether it is the emulator default is an input
    | LocationFailed(failure: Exception)                       // the failure listener
    | LocationThrew(exception: Exception)                      // an exception caught around the request

  /** A received position, unless it is missing or the emulator default, in which case the fallback. */
  function FinalLocation(received: Option<LatLng>, googleDefault: bool): (r: LatLng)
    ensures received.Some? && !googleDefault ==> r == received.value
    ensures received.None? || googleDefault ==> r == FallbackLocation
  {
    if received.None? || googleDefault then FallbackLocation else received.value
  }

  /** The end of the fetch: loading stops and either the location or an error is set. */
  function LocationDone(st: MapState, outcome: LocationOutcome): MapState {
    match outcome
    case Located(received, googleDefault) =>
      st.(currentLocation := Some(FinalLocation(received, googleDefault)), isLoading := false)
    case LocationFailed(e) => st.(error := Some(MessageOr(e, "Failed to get location.")), isLoading := false)
    case LocationThrew(e) => st.(error := Some(MessageOr(e, "Error getting location.")), isLoading := false)
  }

  /**
   * The permission gate: without permission nothing but the error changes and no fetch starts;
   * with permission a fetch starts and the markers, mode and stored location are untouched.
   */
  lemma LocationGate(st: MapState, outcome: LocationOutcome)
    ensures var (r, requested) := RequestLocation(st);
      && (requested <==> st.locationPermissionGranted)
      && (!requested ==> r == st.(error := Some("Location permission not granted.")))
      && (requested ==> r.isLoading && r.error == None && r.(isLoading := st.isLoading, error := st.error) == st)
      && var done := LocationDone(r, outcome);
         !done.isLoading && done.markers == st.markers && done.mode == st.mode
         && (outcome.Located? ==> done.currentLocation.Some? && done.error == r.error)
         && (!outcome.Located? ==> done.error.Some? && done.currentLocation == st.currentLocation)
  {
  }

  /** `MapViewModel` with its two state flows. */
  class MapViewModel {
    var uiState: MapState
    var selectedMarker: Option<LatLng>

    /** The marker list holds each position at most once. */
    predicate Valid()
      reads this
    {
      NoDuplicates(uiState.markers)
    }

    constructor ()
      ensures uiState == InitialState && selectedMarker == None && Valid()
    {
      uiState := InitialState;
      selectedMarker := None;
    }

    /** `getCurrentLocation`'s synchronous part; `requested` says whether the fetch starts. */
    method GetCurrentLocation() returns (requested: bool)
      modifies this
      ensures (uiState, requested) == RequestLocation(old(uiState))
      ensures selectedMarker == old(selectedMarker)
      ensures Valid() == old(Valid())
    {
      if !uiState.locationPermissionGranted {
        uiState := uiState.(error := Some("Location permission not granted."));
        return false;
      }
      uiState := uiState.(isLoading := true, error := None);
      return true;
    }

    /** The fetch's listener. */
    method OnLocationResult(outcome: LocationOutcome)
      modifies this
      ensures uiState == LocationDone(old(uiState), outcome)
      ensures selectedMarker == old(selectedMarker)
      ensures Valid() == old(Valid())
    {
      match outcome
      case Located(received, googleDefault) =>
        var finalLocation := if received.None? then FallbackLocation
                             else if googleDefault then FallbackLocation
                             else received.value;
        uiState := uiState.(currentLocation := Some(finalLocation), isLoading := false);
      case LocationFailed(e) =>
        uiState := uiState.(error := Some(MessageOr(e, "Failed to get location.")), isLoading := false);
      case LocationThrew(e) =>
        uiState := uiState.(error := Some(MessageOr(e, "Error getting location.")), isLoading := false);
    }

    /** `updateLocationPermission`: only the flag changes. */
    method UpdateLocationPermission(granted: bool)
      modifies this
      ensures uiState == old(uiState).(locationPermissionGranted := granted)
      ensures selectedMarker == old(selectedMarker)
      ensures Valid() == old(Valid())
    {
      uiState := uiState.(locationPermissionGranted := granted);
    }

    method EnterAddMarkerMode()
      modifies this
      ensures uiState == WithMode(old(uiState), Mode.AddMarker) && selectedMarker == old(selectedMarker)
      ensures Valid() == old(Valid())
    {
      uiState := uiState.(mode := Mode.AddMarker);
    }

    method EnterDeleteMarkerMode()
      modifies this
      ensures uiState == WithMode(old(uiState), DeleteMarker) && selectedMarker == old(selectedMarker)
      ensures Valid() == old(Valid())
    {
      uiState := uiState.(mode := DeleteMarker);
    }

    method ExitMode()
      modifies this
      ensures uiState == WithMode(old(uiState), Normal) && selectedMarker == old(selectedMarker)
      ensures Valid() == old(Valid())
    {
      uiState := uiState.(mode := Normal);
    }

    /** `addMarker`, keeping the list duplicate-free. */
    method AddMarker(position: LatLng)
      requires Valid()
      modifies this
      ensures uiState == AddMarkerTo(old(uiState), position) && selectedMarker == old(selectedMarker)
      ensures Valid()
    {
      AddMarkerKeepsNoDuplicates(uiState, position);
      var existing := position in uiState.markers;
      if existing {
        uiState := uiState.(mode := Normal);
        return;
      }
      var currentMarkers := uiState.markers + [position];
      uiState := uiState.(markers := currentMarkers, mode := Normal);
    }

    /** `removeMarker`, keeping the list duplicate-free. */
    method RemoveMarker(marker: LatLng)
      requires Valid()
      modifies this
      ensures uiState == RemoveMarkerFrom(old(uiState), marker) && selectedMarker == old(selectedMarker)
      ensures Valid() && marker !in uiState.markers
    {
      RemoveMarkerKeepsNoDuplicates(uiState, marker);
      var currentMarkers := RemoveFirst(uiState.markers, marker);
      uiState := uiState.(markers := currentMarkers, mode := Normal);
    }

    /** `selectMarker`: only the selection changes. */
    method SelectMarker(marker: LatLng)
      modifies this
      ensures selectedMarker == Some(marker) && uiState == old(uiState)
    {
      selectedMarker := Some(marker);
    }

    /** `clearSelection`: only the selection changes. */
    method ClearSelection()
      modifies this
      ensures selectedMarker == None && uiState == old(uiState)
    {
      selectedMarker := None;
    }
  }
}
