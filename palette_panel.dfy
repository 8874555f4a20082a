/** The palette panel: it keeps track of the zone the next colour goes to
    and forwards colour and favourite choices to the state store. */
module PalettePanel {
  import opened Wrappers
  import opened Catalogue
  import opened ProjectState

  /** The id of a surface's first zone, if it has any zones. */
  function FirstZoneId(zones: seq<SurfaceZone>): (r: Option<string>)
    ensures r.None? <==> zones == []
    ensures r.Some? ==> r.value == zones[0].id && r.value in ZoneIdSet(zones)
  {
    if zones == [] then None else Some(zones[0].id)
  }

  /** The active zone once the surface changes: a (truthy) active id that
      names a zone of the new surface is kept; otherwise the first zone's id
      is taken, or none when the surface has no zones. So the result is
      none exactly when there are no zones, and otherwise a zone id of the
      surface. */
  function ActiveAfterSurfaceChange(active: Option<string>, zones: seq<SurfaceZone>): (r: Option<string>)
    ensures Truthy(active) && active.value in ZoneIdSet(zones) ==> r == active
    ensures !(Truthy(active) && active.value in ZoneIdSet(zones)) ==> r == FirstZoneId(zones)
    ensures r.None? <==> zones == []
    ensures r.Some? ==> r.value in ZoneIdSet(zones)
  {
    if !Truthy(active) || active.value !in ZoneIdSet(zones) then FirstZoneId(zones) else active
  }

  /** The zone a query takes as active: the stored one when there is one
      (even an empty id), otherwise the surface's first zone. */
  function CurrentZone(active: Option<string>, surface: Option<Surface>): (r: Option<string>)
    requires active.Some? || surface.Some?
    ensures active.Some? ==> r == active
    ensures active.None? ==> r == FirstZoneId(surface.value.zones)
  {
    if active.Some? then active else FirstZoneId(surface.value.zones)
  }

  /** A query leaves a state in which asking again changes nothing. */
  lemma CurrentZoneSettles(active: Option<string>, surface: Option<Surface>)
    requires active.Some? || surface.Some?
    ensures CurrentZone(CurrentZone(active, surface), surface) == CurrentZone(active, surface)
  {
  }

  class PalettePanelComponent {
    const projectState: ProjectStateService
    var surface: Option<Surface>
    var selectedColours: map<string, Colour>
    var activeZoneId: Option<string>

    constructor (projectState: ProjectStateService)
      ensures this.projectState == projectState
      ensures surface == None && selectedColours == map[] && activeZoneId == None
    {
      this.projectState := projectState;
      surface := None;
      selectedColours := map[];
      activeZoneId := None;
    }

    /** Angular delivering changed inputs (`Some` for each input that
        changed) and running the change hook: a new surface re-derives the
        active zone; any other change leaves it alone. */
    method NgOnChanges(newSurface: Option<Surface>, newColours: Option<map<string, Colour>>)
      modifies this`surface, this`selectedColours, this`activeZoneId
      ensures surface == (if newSurface.Some? then newSurface else old(surface))
      ensures selectedColours == (if newColours.Some? then newColours.value else old(selectedColours))
      ensures newSurface.Some? ==> activeZoneId == ActiveAfterSurfaceChange(old(activeZoneId), newSurface.value.zones)
      ensures newSurface.None? ==> activeZoneId == old(activeZoneId)
    {
      if newSurface.Some? {
        surface := newSurface;
      }
      if newColours.Some? {
        selectedColours := newColours.value;
      }
      if newSurface.Some? && surface.Some? {
        var defaultZone := FirstZoneId(surface.value.zones);
        if !Truthy(activeZoneId) || activeZoneId.value !in ZoneIdSet(surface.value.zones) {
          activeZoneId := defaultZone;
        }
      }
    }

    /** Makes the given zone the active one, whether or not the surface has it. */
    method SetActiveZone(zoneId: string)
      modifies this`activeZoneId
      ensures activeZoneId == Some(zoneId)
    {
      activeZoneId := Some(zoneId);
    }

    /** Forwards a colour choice for a zone to the store. */
    method ApplyColour(colour: Colour, zoneId: string)
      requires projectState.Valid()
      modifies projectState
      ensures projectState.Valid()
      ensures projectState.selectedColours == old(projectState.selectedColours)[zoneId := colour]
      ensures projectState.selectedColours[zoneId] == colour
      ensures projectState.favourites == old(projectState.favourites)
      ensures projectState.surface == old(projectState.surface) && projectState.surfaces == old(projectState.surfaces)
      ensures projectState.customSurfaceData == old(projectState.customSurfaceData)
    {
      projectState.ApplyColour(zoneId, colour);
    }

    /** Forwards a favourite toggle to the store. */
    method ToggleFavourite(colour: Colour)
      requires projectState.Valid()
      modifies projectState
      ensures projectState.Valid()
      ensures projectState.favourites == Toggled(old(projectState.favourites), colour.id)
      ensures projectState.selectedColours == old(projectState.selectedColours)
      ensures projectState.surface == old(projectState.surface) && projectState.surfaces == old(projectState.surfaces)
      ensures projectState.customSurfaceData == old(projectState.customSurfaceData)
    {
      projectState.ToggleFavourite(colour.id);
    }

    /** Whether the colour is a favourite, as the store says. */
    method IsFavourite(colour: Colour) returns (r: bool)
      ensures r <==> colour.id in projectState.favourites
    {
      r := projectState.IsFavourite(colour.id);
    }

    /** Whether the given zone is the active one. With no active zone
        recorded, the surface's first zone (or none) is recorded first. */
    method IsZoneActive(zoneId: string) returns (r: bool)
      requires activeZoneId.Some? || surface.Some?
      modifies this`activeZoneId
      ensures activeZoneId == CurrentZone(old(activeZoneId), surface)
      ensures old(activeZoneId).Some? ==> activeZoneId == old(activeZoneId)
      ensures r <==> activeZoneId == Some(zoneId)
    {
      var current := if activeZoneId.Some? then activeZoneId else FirstZoneId(surface.value.zones);
      if current != activeZoneId {
        activeZoneId := current;
      }
      r := current == Some(zoneId);
    }
  }
}
