/** The application's state store: the current surface, the colour chosen
    for each zone, the favourite colours, the selectable surfaces and the
    data of an imported (custom) surface. */
module ProjectState {
  import opened Wrappers
  import opened Text
  import opened Catalogue

  datatype CustomSurfacePoint = CustomSurfacePoint(x: int, y: int)

  /** The serialised snapshot of a drawn polygon. It is an open record in the
      application; the model keeps the two parts that restoring reads: the
      polygon's local points, when recorded, and its style and transform
      attributes, by name. */
  datatype FabricState = FabricState(points: Option<seq<CustomSurfacePoint>>, attributes: map<string, string>)

  datatype CustomSurfaceZone = CustomSurfaceZone(id: string, zoneLabel: string, points: seq<CustomSurfacePoint>,
                                                 fabricState: FabricState)

  datatype CustomSurfaceData = CustomSurfaceData(imageDataUrl: string, imageName: Option<string>,
                                                 zones: seq<CustomSurfaceZone>)

  const CustomSurfaceId := "custom-surface"

  /** The styling variables of the first three custom zones. */
  const KnownVariables := ["--zone-main", "--zone-secondary", "--zone-details"]

  function ZoneIdSet(zones: seq<SurfaceZone>): set<string>
  {
    set z | z in zones :: z.id
  }

  function CustomZoneIdSet(zones: seq<CustomSurfaceZone>): set<string>
  {
    set z | z in zones :: z.id
  }

  /** The palette a surface starts with: every zone id mapped to the default
      colour (a left-to-right reduce over the zones). */
  function BuildInitialPalette(zones: seq<SurfaceZone>): (m: map<string, Colour>)
    ensures m.Keys == ZoneIdSet(zones)
    ensures forall id :: id in m ==> m[id] == DefaultColour
  {
    if zones == [] then map[]
    else
      var init := zones[..|zones| - 1];
      assert zones == init + [zones[|zones| - 1]];
      BuildInitialPalette(init)[zones[|zones| - 1].id := DefaultColour]
  }

  /** `{ ...initialPalette(surface), ...colours }`: the surface's zones are
      added with the default colour and every existing entry wins. */
  function WithDefaults(colours: map<string, Colour>, surface: Surface): (m: map<string, Colour>)
    ensures m.Keys == colours.Keys + ZoneIdSet(surface.zones)
    ensures forall id :: id in colours ==> m[id] == colours[id]
    ensures forall id :: id in m && id !in colours ==> m[id] == DefaultColour
  {
    BuildInitialPalette(surface.zones) + colours
  }

  /** The first surface with the given id (`Array.prototype.find`). */
  function FindSurface(surfaces: seq<Surface>, id: string): (r: Option<Surface>)
    ensures r.None? <==> forall k :: 0 <= k < |surfaces| ==> surfaces[k].id != id
    ensures r.Some? ==> exists k :: 0 <= k < |surfaces| && surfaces[k] == r.value && r.value.id == id &&
                                    forall j :: 0 <= j < k ==> surfaces[j].id != id
  {
    if surfaces == [] then None
    else if surfaces[0].id == id then Some(surfaces[0])
    else
      var r := FindSurface(surfaces[1..], id);
      assert r.Some? ==> exists k :: 0 <= k < |surfaces[1..]| && surfaces[1..][k] == r.value &&
                                     forall j :: 0 <= j < k ==> surfaces[1..][j].id != id;
      assert r.Some? ==> exists k :: 1 <= k < |surfaces| && surfaces[k] == r.value &&
                                     forall j :: 1 <= j < k ==> surfaces[j].id != id;
      r
  }

  /** The styling variable of the custom zone at position `i`: one of the
      three named variables for the first three positions, a numbered
      `--zone-custom-` variable after them; the eighth character tells the
      two kinds apart. */
  function CssVariableFor(i: nat): (v: string)
    ensures |v| > 7 && v[..7] == "--zone-"
    ensures (v[7] == 'c') <==> i >= 3
  {
    if i < 3 then KnownVariables[i] else "--zone-custom-" + NatToString(i + 1)
  }

  /** The zone definitions of the custom surface, one per drawn zone, in order. */
  function ZoneDefinitions(zones: seq<CustomSurfaceZone>): (defs: seq<SurfaceZone>)
    ensures |defs| == |zones|
    ensures forall i :: 0 <= i < |zones| ==> defs[i].id == zones[i].id && defs[i].zoneLabel == zones[i].zoneLabel
    ensures forall i :: 0 <= i < |zones| ==>
      defs[i].cssVariable == (if i < 3 then KnownVariables[i] else "--zone-custom-" + NatToString(i + 1))
    ensures forall i :: 0 <= i < |zones| ==> defs[i].description == "Zone personnalisée " + NatToString(i + 1)
  {
    seq(|zones|, i requires 0 <= i < |zones| =>
      SurfaceZone(zones[i].id, zones[i].zoneLabel, "Zone personnalisée " + NatToString(i + 1), CssVariableFor(i)))
  }

  /** Distinct positions get distinct styling variables. */
  lemma CssVariableInjective(i: nat, j: nat)
    requires CssVariableFor(i) == CssVariableFor(j)
    ensures i == j
  {
    if i >= 3 && j >= 3 {
      var p := "--zone-custom-";
      assert NatToString(i + 1) == (p + NatToString(i + 1))[|p|..];
      NatToStringInjective(i + 1, j + 1);
    }
  }

  /** The colours already chosen for the given zones (the reduce that builds
      `preservedColours`). */
  function PreservedColours(zones: seq<CustomSurfaceZone>, colours: map<string, Colour>): (m: map<string, Colour>)
    ensures m.Keys == CustomZoneIdSet(zones) * colours.Keys
    ensures forall id :: id in m ==> m[id] == colours[id]
  {
    if zones == [] then map[]
    else
      var init := zones[..|zones| - 1];
      var z := zones[|zones| - 1];
      assert zones == init + [z];
      var acc := PreservedColours(init, colours);
      if z.id in colours then acc[z.id := colours[z.id]] else acc
  }

  /** The colours after the custom zones change: exactly the new zone ids,
      each keeping its previous colour or getting the default one. */
  function CustomZoneColours(zones: seq<CustomSurfaceZone>, colours: map<string, Colour>): (m: map<string, Colour>)
    ensures m.Keys == CustomZoneIdSet(zones)
    ensures forall id :: id in m && id in colours ==> m[id] == colours[id]
    ensures forall id :: id in m && id !in colours ==> m[id] == DefaultColour
  {
    var defs := ZoneDefinitions(zones);
    DefinitionIds(zones);
    BuildInitialPalette(defs) + PreservedColours(zones, colours)
  }

  /** The definitions built from stored zones carry exactly the stored ids. */
  lemma DefinitionIds(zones: seq<CustomSurfaceZone>)
    ensures ZoneIdSet(ZoneDefinitions(zones)) == CustomZoneIdSet(zones)
  {
    var defs := ZoneDefinitions(zones);
    forall id | id in CustomZoneIdSet(zones) ensures id in ZoneIdSet(defs) {
      var i :| 0 <= i < |zones| && zones[i].id == id;
      assert defs[i] in defs;
    }
    forall id | id in ZoneIdSet(defs) ensures id in CustomZoneIdSet(zones) {
      var i :| 0 <= i < |defs| && defs[i].id == id;
      assert zones[i] in zones;
    }
  }

  /** The surface `useCustomSurface` builds from the current one. */
  function CustomSurfaceFrom(base: Surface, previewDataUrl: string, name: Option<string>): (s: Surface)
    ensures s.id == CustomSurfaceId && s.zones == base.zones && s.category == Decor
  {
    base.(id := CustomSurfaceId,
          name := if Truthy(name) then "Image importée – " + name.value else "Image importée",
          category := Decor,
          preview := "linear-gradient(135deg, rgba(0,0,0,0.25), rgba(0,0,0,0.35)), url(" + previewDataUrl + ")",
          accentColour := "#f7931e")
  }

  ghost predicate NoDuplicates(s: seq<string>)
  {
    forall i, j :: 0 <= i < j < |s| ==> s[i] != s[j]
  }

  /** `s` without any occurrence of `x`, order kept. */
  function Without(s: seq<string>, x: string): (r: seq<string>)
    ensures forall c :: c in r <==> c in s && c != x
    ensures x !in s ==> r == s
    ensures NoDuplicates(s) ==> NoDuplicates(r)
  {
    if s == [] then []
    else
      var init := s[..|s| - 1];
      var last := s[|s| - 1];
      assert s == init + [last];
      assert NoDuplicates(s) ==> last !in init && NoDuplicates(init);
      if last == x then Without(init, x) else Without(init, x) + [last]
  }

  /** `Array.from(new Set(s))`: the first occurrence of every element, in order. */
  function Dedup(s: seq<string>): (r: seq<string>)
    ensures forall c :: c in r <==> c in s
    ensures NoDuplicates(r)
  {
    if s == [] then []
    else
      var init := s[..|s| - 1];
      var last := s[|s| - 1];
      assert s == init + [last];
      var d := Dedup(init);
      if last in d then d else d + [last]
  }

  lemma {:induction false} DedupOfDistinct(s: seq<string>)
    requires NoDuplicates(s)
    ensures Dedup(s) == s
  {
    if s != [] {
      var init := s[..|s| - 1];
      assert s == init + [s[|s| - 1]];
      DedupOfDistinct(init);
    }
  }

  /** The favourites after toggling `id`: removed if present, appended otherwise. */
  function Toggled(favourites: seq<string>, id: string): (r: seq<string>)
    ensures id in r <==> id !in favourites
    ensures forall x :: x != id ==> (x in r <==> x in favourites)
  {
    if id in favourites then Without(favourites, id) else favourites + [id]
  }

  /** Toggling flips the membership of `id` only and never creates duplicates. */
  lemma ToggleFlipsMembership(favourites: seq<string>, id: string)
    requires NoDuplicates(favourites)
    ensures forall c :: c in Toggled(favourites, id) <==> (if c == id then c !in favourites else c in favourites)
    ensures NoDuplicates(Toggled(favourites, id))
  {
  }

  /** The other favourites keep their relative order. */
  lemma {:induction false} ToggleKeepsOrder(favourites: seq<string>, id: string)
    ensures Without(Toggled(favourites, id), id) == Without(favourites, id)
    ensures id !in favourites ==> Toggled(favourites, id) == favourites + [id]
  {
    if id !in favourites {
      var s := favourites + [id];
      assert s[..|s| - 1] == favourites;
    } else {
      var w := Without(favourites, id);
      assert id !in w;
    }
  }

  /** Toggling an id that is not a favourite twice gives the list back. */
  lemma ToggleTwiceRestores(favourites: seq<string>, id: string)
    requires id !in favourites
    ensures Toggled(Toggled(favourites, id), id) == favourites
  {
    ToggleKeepsOrder(favourites, id);
    assert id in Toggled(favourites, id);
  }

  /** After `useCustomSurface`, only the custom surface can be selected. */
  lemma OnlyCustomSelectable(custom: Surface, id: string)
    requires custom.id == CustomSurfaceId
    ensures FindSurface([custom], id).Some? <==> id == CustomSurfaceId
  {
  }

  class ProjectStateService {
    var surface: Surface
    var selectedColours: map<string, Colour>
    var favourites: seq<string>
    var surfaces: seq<Surface>
    var customSurfaceData: Option<CustomSurfaceData>

    /** Favourites are a set in insertion order, and every zone of the
        current surface has a colour. */
    ghost predicate Valid()
      reads this
    {
      NoDuplicates(favourites) && ZoneIdSet(surface.zones) <= selectedColours.Keys
    }

    constructor ()
      ensures Valid()
      ensures surface == DefaultSurface && selectedColours == BuildInitialPalette(DefaultSurface.zones)
      ensures favourites == [] && surfaces == Surfaces && customSurfaceData == None
    {
      surface := DefaultSurface;
      selectedColours := BuildInitialPalette(DefaultSurface.zones);
      favourites := [];
      surfaces := Surfaces;
      customSurfaceData := None;
    }

    method SelectSurface(surfaceId: string)
      requires Valid()
      modifies this
      ensures Valid()
      ensures FindSurface(old(surfaces), surfaceId).None? ==> unchanged(this)
      ensures FindSurface(old(surfaces), surfaceId).Some? ==>
        var s := FindSurface(old(surfaces), surfaceId).value;
        && surface == s
        && customSurfaceData == (if s.id != CustomSurfaceId then None else old(customSurfaceData))
        && selectedColours == WithDefaults(old(selectedColours), s)
        && favourites == old(favourites) && surfaces == old(surfaces)
    {
      var found := FindSurface(surfaces, surfaceId);
      if found.None? {
        return;
      }
      var s := found.value;
      surface := s;
      if s.id != CustomSurfaceId {
        customSurfaceData := None;
      }
      selectedColours := WithDefaults(selectedColours, s);
    }

    method ApplyColour(zoneId: string, colour: Colour)
      requires Valid()
      modifies this
      ensures Valid()
      ensures selectedColours == old(selectedColours)[zoneId := colour]
      ensures surface == old(surface) && favourites == old(favourites)
      ensures surfaces == old(surfaces) && customSurfaceData == old(customSurfaceData)
    {
      selectedColours := selectedColours[zoneId := colour];
    }

    method ToggleFavourite(colourId: string)
      requires Valid()
      modifies this
      ensures Valid()
      ensures favourites == Toggled(old(favourites), colourId)
      ensures surface == old(surface) && selectedColours == old(selectedColours)
      ensures surfaces == old(surfaces) && customSurfaceData == old(customSurfaceData)
    {
      var favs := Dedup(favourites);
      DedupOfDistinct(favourites);
      if colourId in favs {
        favs := Without(favs, colourId);
      } else {
        favs := favs + [colourId];
      }
      ToggleFlipsMembership(favourites, colourId);
      favourites := favs;
    }

    method IsFavourite(colourId: string) returns (r: bool)
      ensures r <==> colourId in favourites
    {
      r := colourId in favourites;
    }

    method UseCustomSurface(previewDataUrl: string, name: Option<string>)
      requires Valid()
      modifies this
      ensures Valid()
      ensures previewDataUrl == "" ==> unchanged(this)
      ensures previewDataUrl != "" ==>
        var custom := CustomSurfaceFrom(old(surface), previewDataUrl, name);
        && surfaces == [custom] && surface == custom
        && selectedColours == WithDefaults(old(selectedColours), custom)
        && customSurfaceData == Some(CustomSurfaceData(previewDataUrl, name, []))
        && favourites == old(favourites)
        && forall id :: FindSurface(surfaces, id).Some? <==> id == CustomSurfaceId
    {
      if previewDataUrl == "" {
        return;
      }
      var custom := CustomSurfaceFrom(surface, previewDataUrl, name);
      surfaces := [custom];
      surface := custom;
      selectedColours := WithDefaults(selectedColours, custom);
      customSurfaceData := Some(CustomSurfaceData(previewDataUrl, name, []));
      forall id ensures FindSurface(surfaces, id).Some? <==> id == CustomSurfaceId {
        OnlyCustomSelectable(custom, id);
      }
    }

    method UpdateCustomSurfaceZones(zones: seq<CustomSurfaceZone>)
      requires Valid()
      modifies this`customSurfaceData, this`surface, this`selectedColours
      ensures Valid()
      ensures old(customSurfaceData).None? ==> unchanged(this)
      ensures old(customSurfaceData).Some? ==>
        && customSurfaceData == Some(old(customSurfaceData).value.(zones := zones))
        && favourites == old(favourites) && surfaces == old(surfaces)
        && (old(surface).id != CustomSurfaceId ==>
              surface == old(surface) && selectedColours == old(selectedColours))
        && (old(surface).id == CustomSurfaceId ==>
              surface == old(surface).(zones := ZoneDefinitions(zones))
              && selectedColours == CustomZoneColours(zones, old(selectedColours)))
    {
      if customSurfaceData.None? {
        return;
      }
      customSurfaceData := Some(customSurfaceData.value.(zones := zones));
      if surface.id != CustomSurfaceId {
        return;
      }
      DefinitionIds(zones);
      surface := surface.(zones := ZoneDefinitions(zones));
      selectedColours := CustomZoneColours(zones, selectedColours);
    }
  }
}
