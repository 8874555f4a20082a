/** The surface viewer: it paints a predefined surface by giving each of its
    styling variables the hex code of the colour chosen for the zones that
    use it. */
module SurfaceViewer {
  import opened Wrappers
  import opened Catalogue

  /** The variable values the viewer holds: the three bound variables and
      the properties it creates for any other variable name. */
  datatype Slots = Slots(zoneMain: string, zoneSecondary: string, zoneDetails: string, extra: map<string, string>)

  const MainVariable := "--zone-main"
  const SecondaryVariable := "--zone-secondary"
  const DetailsVariable := "--zone-details"

  /** The values before any colour is applied. */
  const InitialSlots := Slots("#d9dde1", "#c5cad0", "#a3aab3", map[])

  /** The value a styling variable currently has, if the viewer holds one. */
  function SlotValue(s: Slots, variable: string): Option<string>
  {
    if variable == MainVariable then Some(s.zoneMain)
    else if variable == SecondaryVariable then Some(s.zoneSecondary)
    else if variable == DetailsVariable then Some(s.zoneDetails)
    else if variable in s.extra then Some(s.extra[variable])
    else None
  }

  /** The hex code of the colour chosen for a zone, when there is a colour
      and its code is not empty. */
  function ZoneValue(zone: SurfaceZone, colours: map<string, Colour>): (r: Option<string>)
    ensures r.Some? <==> zone.id in colours && colours[zone.id].hex != ""
    ensures r.Some? ==> r.value == colours[zone.id].hex
  {
    if zone.id in colours && colours[zone.id].hex != "" then Some(colours[zone.id].hex) else None
  }

  /** Setting one variable: it takes the value and no other variable changes. */
  function Write(s: Slots, variable: string, value: string): (r: Slots)
    ensures SlotValue(r, variable) == Some(value)
    ensures forall v :: v != variable ==> SlotValue(r, v) == SlotValue(s, v)
  {
    if variable == MainVariable then s.(zoneMain := value)
    else if variable == SecondaryVariable then s.(zoneSecondary := value)
    else if variable == DetailsVariable then s.(zoneDetails := value)
    else s.(extra := s.extra[variable := value])
  }

  /** Whether a zone writes a value to the given variable. */
  predicate Writes(zone: SurfaceZone, colours: map<string, Colour>, variable: string)
  {
    zone.cssVariable == variable && ZoneValue(zone, colours).Some?
  }

  /** The values after painting the zones in order, starting from `s`;
      nothing is reset first. */
  function Painted(s: Slots, zones: seq<SurfaceZone>, colours: map<string, Colour>): Slots
  {
    if zones == [] then s
    else
      var p := Painted(s, zones[..|zones| - 1], colours);
      var last := zones[|zones| - 1];
      match ZoneValue(last, colours)
      case None => p
      case Some(value) => Write(p, last.cssVariable, value)
  }

  /** Painting one more zone changes a variable only when that zone writes it. */
  lemma PaintedStep(s: Slots, zones: seq<SurfaceZone>, colours: map<string, Colour>, variable: string)
    requires zones != []
    ensures SlotValue(Painted(s, zones, colours), variable) ==
      if Writes(zones[|zones| - 1], colours, variable) then ZoneValue(zones[|zones| - 1], colours)
      else SlotValue(Painted(s, zones[..|zones| - 1], colours), variable)
  {
  }

  /** A variable that no zone writes keeps its previous value: nothing is reset. */
  lemma {:induction false} UnwrittenKept(s: Slots, zones: seq<SurfaceZone>, colours: map<string, Colour>, variable: string)
    requires forall i :: 0 <= i < |zones| ==> !Writes(zones[i], colours, variable)
    ensures SlotValue(Painted(s, zones, colours), variable) == SlotValue(s, variable)
  {
    if zones != [] {
      var init := zones[..|zones| - 1];
      assert forall i :: 0 <= i < |init| ==> init[i] == zones[i];
      UnwrittenKept(s, init, colours, variable);
      PaintedStep(s, zones, colours, variable);
    }
  }

  /** The last write wins: a variable ends with the hex code of the last zone
      that writes it. */
  lemma {:induction false} LastWriteWins(s: Slots, zones: seq<SurfaceZone>, colours: map<string, Colour>, variable: string, i: nat)
    requires i < |zones| && Writes(zones[i], colours, variable)
    requires forall j :: i < j < |zones| ==> !Writes(zones[j], colours, variable)
    ensures SlotValue(Painted(s, zones, colours), variable) == ZoneValue(zones[i], colours)
  {
    var init := zones[..|zones| - 1];
    PaintedStep(s, zones, colours, variable);
    if i < |zones| - 1 {
      assert forall j :: 0 <= j < |init| ==> init[j] == zones[j];
      LastWriteWins(s, init, colours, variable, i);
    }
  }

  /** A zone bound to any other variable never changes the three bound ones. */
  lemma OtherVariableKeepsBound(s: Slots, zone: SurfaceZone, colours: map<string, Colour>)
    requires zone.cssVariable !in {MainVariable, SecondaryVariable, DetailsVariable}
    ensures var r := Painted(s, [zone], colours);
      r.zoneMain == s.zoneMain && r.zoneSecondary == s.zoneSecondary && r.zoneDetails == s.zoneDetails
  {
    assert [zone][..0] == [];
  }

  class SurfaceViewerComponent {
    var surface: Option<Surface>
    var selectedColours: map<string, Colour>
    var zoneMain: string
    var zoneSecondary: string
    var zoneDetails: string
    /** The properties created for variables other than the three bound ones. */
    var extra: map<string, string>

    function Current(): Slots
      reads this
    {
      Slots(zoneMain, zoneSecondary, zoneDetails, extra)
    }

    constructor ()
      ensures surface == None && selectedColours == map[] && Current() == InitialSlots
    {
      surface := None;
      selectedColours := map[];
      zoneMain, zoneSecondary, zoneDetails := InitialSlots.zoneMain, InitialSlots.zoneSecondary, InitialSlots.zoneDetails;
      extra := map[];
    }

    /** Angular delivering changed inputs (`Some` for each input that
        changed) and running the change hook: without a surface nothing is
        painted; otherwise the zones are painted in order over the current
        values. */
    method NgOnChanges(newSurface: Option<Surface>, newColours: Option<map<string, Colour>>)
      modifies this
      ensures surface == (if newSurface.Some? then newSurface else old(surface))
      ensures selectedColours == (if newColours.Some? then newColours.value else old(selectedColours))
      ensures surface.None? ==> Current() == old(Current())
      ensures surface.Some? ==> Current() == Painted(old(Current()), surface.value.zones, selectedColours)
    {
      if newSurface.Some? {
        surface := newSurface;
      }
      if newColours.Some? {
        selectedColours := newColours.value;
      }
      if surface.None? {
        return;
      }
      var zones := surface.value.zones;
      ghost var shown, colours := surface, selectedColours;
      for i := 0 to |zones|
        invariant surface == shown && selectedColours == colours
        invariant Current() == Painted(old(Current()), zones[..i], selectedColours)
      {
        assert zones[..i + 1][..i] == zones[..i];
        var zone := zones[i];
        if zone.id !in selectedColours || selectedColours[zone.id].hex == "" {
          continue;
        }
        var value := selectedColours[zone.id].hex;
        if zone.cssVariable == MainVariable {
          zoneMain := value;
        } else if zone.cssVariable == SecondaryVariable {
          zoneSecondary := value;
        } else if zone.cssVariable == DetailsVariable {
          zoneDetails := value;
        } else {
          extra := extra[zone.cssVariable := value];
        }
      }
      assert zones[..|zones|] == zones;
    }
  }
}
