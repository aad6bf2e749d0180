/**
 * The map screen's callbacks: what a map tap, a marker tap, the mode buttons, the recenter button
 * and the permission result do to the map view model, depending on the current mode.
 */
module MapScreen {
  import opened Wrappers
  import opened Geo
  import opened MapViewModel

  /** The whole view-model state the callbacks act on: the map state and the selected marker. */
  datatype Screen = Screen(ui: MapState, selected: Option<LatLng>)

  /** `onMapClick`: add in add mode, leave delete mode, clear the selection in normal mode. */
  function MapClick(s: Screen, position: LatLng): Screen {
    match s.ui.mode
    case AddMarker => s.(ui := AddMarkerTo(s.ui, position))
    case DeleteMarker => s.(ui := WithMode(s.ui, Normal))
    case Normal => s.(selected := None)
  }

  /** A marker's `onClick`: remove it in delete mode, select it otherwise. */
  function MarkerClick(s: Screen, marker: LatLng): Screen {
    if s.ui.mode == DeleteMarker then s.(ui := RemoveMarkerFrom(s.ui, marker))
    else s.(selected := Some(marker))
  }

  /** The recenter button: clear the selection, then leave any mode. */
  function Recenter(s: Screen): Screen {
    Screen(WithMode(s.ui, Normal), None)
  }

  /** The permission names the screen asks for. */
  const FineLocation: string := "android.permission.ACCESS_FINE_LOCATION"
  const CoarseLocation: string := "android.permission.ACCESS_COARSE_LOCATION"

  /** `permissions[name] ?: false`. */
  function Answer(permissions: map<string, bool>, name: string): bool {
    if name in permissions then permissions[name] else false
  }

  /** The permission callback: granted exactly when fine or coarse location was granted. */
  function PermissionGranted(permissions: map<string, bool>): (g: bool)
    ensures g <==> (FineLocation in permissions && permissions[FineLocation])
                   || (CoarseLocation in permissions && permissions[CoarseLocation])
  {
    Answer(permissions, FineLocation) || Answer(permissions, CoarseLocation)
  }

  /** The permission result: store the flag and, only when granted, run the location request. */
  function PermissionResult(s: Screen, permissions: map<string, bool>): (Screen, bool) {
    if PermissionGranted(permissions) then
      var (ui, requested) := RequestLocation(s.ui.(locationPermissionGranted := true));
      (s.(ui := ui), requested)
    else
      (s.(ui := s.ui.(locationPermissionGranted := false)), false)
  }

  /** A map tap in add mode adds the tapped position, and in delete mode removes nothing. */
  lemma MapClickByMode(s: Screen, position: LatLng)
    ensures var r := MapClick(s, position);
      && (s.ui.mode == AddMarker ==> r.ui == AddMarkerTo(s.ui, position) && r.selected == s.selected
                                      && position in r.ui.markers)
      && (s.ui.mode == DeleteMarker ==> r.ui.markers == s.ui.markers && r.ui.mode == Normal && r.selected == s.selected)
      && (s.ui.mode == Normal ==> r.ui == s.ui && r.selected == None)
  {
  }

  /** A marker tap removes the marker in delete mode; otherwise it selects it and changes no state. */
  lemma MarkerClickByMode(s: Screen, marker: LatLng)
    requires NoDuplicates(s.ui.markers)
    ensures var r := MarkerClick(s, marker);
      && (s.ui.mode == DeleteMarker ==> marker !in r.ui.markers && r.ui.mode == Normal && r.selected == s.selected
                                         && NoDuplicates(r.ui.markers))
      && (s.ui.mode != DeleteMarker ==> r.ui == s.ui && r.selected == Some(marker))
  {
    if s.ui.mode == DeleteMarker {
      RemoveMarkerKeepsNoDuplicates(s.ui, marker);
    }
  }

  /** Recenter leaves no selection and normal mode, and keeps the markers. */
  lemma RecenterSpec(s: Screen)
    ensures var r := Recenter(s);
      r.selected == None && r.ui.mode == Normal && r.ui.markers == s.ui.markers
      && r.ui.(mode := s.ui.mode) == s.ui
  {
  }

  /** The flag stored is whether fine or coarse location was granted; a fetch is requested only then. */
  lemma PermissionResultSpec(s: Screen, permissions: map<string, bool>)
    ensures var (r, requested) := PermissionResult(s, permissions);
      && r.ui.locationPermissionGranted == PermissionGranted(permissions)
      && (requested <==> PermissionGranted(permissions))
      && r.ui.markers == s.ui.markers && r.ui.mode == s.ui.mode && r.selected == s.selected
  {
  }

  /** The screen's callbacks, run against the view model. */
  method OnMapClick(vm: MapViewModel, position: LatLng)
    requires vm.Valid()
    modifies vm
    ensures Screen(vm.uiState, vm.selectedMarker) == MapClick(old(Screen(vm.uiState, vm.selectedMarker)), position)
    ensures vm.Valid()
  {
    match vm.uiState.mode
    case AddMarker => vm.AddMarker(position);
    case DeleteMarker => vm.ExitMode();
    case Normal => vm.ClearSelection();
  }

  /** A marker's `onClick`; `consumed` is the listener's `true`. */
  method OnMarkerClick(vm: MapViewModel, marker: LatLng) returns (consumed: bool)
    requires vm.Valid()
    modifies vm
    ensures Screen(vm.uiState, vm.selectedMarker) == MarkerClick(old(Screen(vm.uiState, vm.selectedMarker)), marker)
    ensures vm.Valid() && consumed
  {
    if vm.uiState.mode == DeleteMarker {
      vm.RemoveMarker(marker);
    } else {
      vm.SelectMarker(marker);
    }
    return true;
  }

  method OnAddMarkerButton(vm: MapViewModel)
    modifies vm
    ensures vm.uiState == WithMode(old(vm.uiState), AddMarker) && vm.selectedMarker == old(vm.selectedMarker)
    ensures vm.Valid() == old(vm.Valid())
  {
    vm.EnterAddMarkerMode();
  }

  method OnDeleteMarkerButton(vm: MapViewModel)
    modifies vm
    ensures vm.uiState == WithMode(old(vm.uiState), DeleteMarker) && vm.selectedMarker == old(vm.selectedMarker)
    ensures vm.Valid() == old(vm.Valid())
  {
    vm.EnterDeleteMarkerMode();
  }

  method OnRecenter(vm: MapViewModel)
    modifies vm
    ensures Screen(vm.uiState, vm.selectedMarker) == Recenter(old(Screen(vm.uiState, vm.selectedMarker)))
    ensures vm.Valid() == old(vm.Valid())
  {
    vm.ClearSelection();
    vm.ExitMode();
  }

  /** The permission launcher's result; `requested` says whether a location fetch started. */
  method OnPermissionResult(vm: MapViewModel, permissions: map<string, bool>) returns (requested: bool)
    modifies vm
    ensures (Screen(vm.uiState, vm.selectedMarker), requested) ==
      PermissionResult(old(Screen(vm.uiState, vm.selectedMarker)), permissions)
    ensures vm.Valid() == old(vm.Valid())
  {
    var fineLocationGranted := Answer(permissions, FineLocation);
    var coarseLocationGranted := Answer(permissions, CoarseLocation);
    if fineLocationGranted || coarseLocationGranted {
      vm.UpdateLocationPermission(true);
      requested := vm.GetCurrentLocation();
    } else {
      vm.UpdateLocationPermission(false);
      requested := false;
    }
  }
}
