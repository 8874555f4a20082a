/** The custom-surface editor component: it owns the drawing canvas, keeps
    the zone list derived from the canvas polygons, and reconciles both with
    the custom surface it is given, before and after the canvas exists. */
module SurfaceEditor {
  import opened Wrappers
  import opened ProjectState
  import opened EditorModel

  datatype Size = Size(width: nat, height: nat)

  /** A surface value with a (truthy) image. */
  predicate HasImage(cs: Option<CustomSurfaceData>)
  {
    cs.Some? && cs.value.imageDataUrl != ""
  }

  /** The file name shown for a surface value, or the empty string. */
  function BackgroundNameOf(cs: Option<CustomSurfaceData>): (name: string)
    ensures cs.Some? && cs.value.imageName.Some? ==> name == cs.value.imageName.value
    ensures cs.None? || cs.value.imageName.None? ==> name == ""
  {
    if cs.Some? then cs.value.imageName.GetOr("") else ""
  }

  /** The background loaded when the canvas is created: the pending one when
      it is truthy, otherwise the current surface's image when it has one. */
  function InitialBackground(pending: Option<string>, cs: Option<CustomSurfaceData>): (r: Option<string>)
    ensures Truthy(pending) ==> r == pending
    ensures !Truthy(pending) && HasImage(cs) ==> r == Some(cs.value.imageDataUrl)
    ensures !Truthy(pending) && !HasImage(cs) ==> r.None?
  {
    if Truthy(pending) then pending
    else if HasImage(cs) then Some(cs.value.imageDataUrl)
    else None
  }

  /** The zones restored when the canvas is created: pending zones (even an
      empty list) first, otherwise the current surface's zones when there
      are any. */
  function InitialZones(pending: Option<seq<CustomSurfaceZone>>, cs: Option<CustomSurfaceData>)
    : (r: Option<seq<CustomSurfaceZone>>)
    ensures pending.Some? ==> r == pending
    ensures pending.None? && cs.Some? && |cs.value.zones| > 0 ==> r == Some(cs.value.zones)
    ensures pending.None? && (cs.None? || cs.value.zones == []) ==> r.None?
  {
    if pending.Some? then pending
    else if cs.Some? && |cs.value.zones| > 0 then Some(cs.value.zones)
    else None
  }

  /** The read-back loop of the editor: gives each polygon, left to right,
      the id and label it lacks (drawing ids from the counter) and collects
      one zone per polygon. */
  method ReadBack(objs: seq<CanvasObject>, start: nat, absolute: Projection)
    returns (filled: seq<CanvasObject>, counter: nat, result: seq<CustomSurfaceZone>)
    requires start >= 1
    ensures (filled, counter) == Fill(objs, start)
    ensures AllTagged(filled) && result == ZonesOf(filled, absolute)
  {
    counter := start;
    filled := [];
    result := [];
    var i := 0;
    while i < |objs|
      invariant 0 <= i <= |objs|
      invariant counter >= 1
      invariant Fill(objs[..i], start) == (filled, counter)
      invariant result == ZonesOf(filled, absolute)
    {
      assert objs[..i + 1][..i] == objs[..i];
      var obj, next := FillObject(objs[i], counter);
      if obj.kind == Polygon {
        result := result + [ZoneOf(obj, absolute)];
      }
      ReadBackStep(objs, i, start, filled, counter, absolute);
      filled, counter := filled + [obj], next;
      i := i + 1;
    }
    assert objs[..i] == objs;
  }

  /** The body of the read-back loop for one object: a polygon keeps the id
      and label it has and takes the missing ones from the counter. */
  method FillObject(o: CanvasObject, counter: nat) returns (r: CanvasObject, next: nat)
    requires counter >= 1
    ensures (r, next) == FillOne(o, counter)
  {
    r, next := o, counter;
    if o.kind == Polygon {
      var zoneId: string;
      if o.zoneId.Some? {
        zoneId := o.zoneId.value;
      } else {
        zoneId := ZoneIdFor(next);
        next := next + 1;
      }
      var zoneLabel: string;
      if o.zoneLabel.Some? {
        zoneLabel := o.zoneLabel.value;
      } else {
        zoneLabel := LabelFor(next - 1);
      }
      r := o.(zoneId := Some(zoneId), zoneLabel := Some(zoneLabel));
    }
  }

  /** One step of the read-back loop: filling one more object extends the
      filled list by that object filled in, and the zone list by its zone
      when it is a polygon. */
  lemma ReadBackStep(objs: seq<CanvasObject>, i: nat, start: nat, filled: seq<CanvasObject>, counter: nat, absolute: Projection)
    requires start >= 1 && i < |objs| && Fill(objs[..i], start) == (filled, counter)
    ensures var q := FillOne(objs[i], counter);
      Fill(objs[..i + 1], start) == (filled + [q.0], q.1) &&
      ZonesOf(filled + [q.0], absolute) ==
        ZonesOf(filled, absolute) + (if q.0.kind == Polygon then [ZoneOf(q.0, absolute)] else [])
  {
    assert objs[..i + 1][..i] == objs[..i];
    var q := FillOne(objs[i], counter);
    assert (filled + [q.0])[..|filled|] == filled;
  }

  /** The removal loop of a restore: every polygon leaves the canvas, in
      order, and the other objects stay. */
  method RemovePolygons(objs: seq<CanvasObject>) returns (rest: seq<CanvasObject>)
    ensures rest == NonPolygons(objs)
  {
    rest := objs;
    var i, kept := 0, 0;
    while i < |objs|
      invariant 0 <= i <= |objs|
      invariant rest == NonPolygons(objs[..i]) + objs[i..]
      invariant kept == |NonPolygons(objs[..i])|
    {
      assert objs[..i + 1][..i] == objs[..i];
      assert objs[i..][0] == objs[i] && objs[i..][1..] == objs[i + 1..];
      if objs[i].kind == Polygon {
        rest := rest[..kept] + rest[kept + 1..];
      } else {
        kept := kept + 1;
      }
      i := i + 1;
    }
    assert objs[..i] == objs;
  }

  /** The adding loop of a restore: one polygon per stored zone, appended in order. */
  method AddRestored(base: seq<CanvasObject>, zs: seq<CustomSurfaceZone>) returns (objs: seq<CanvasObject>)
    ensures objs == base + RestoredAll(zs)
  {
    objs := base;
    var j := 0;
    while j < |zs|
      invariant 0 <= j <= |zs|
      invariant objs == base + RestoredAll(zs[..j])
    {
      assert RestoredAll(zs[..j + 1]) == RestoredAll(zs[..j]) + [RestoredObject(zs[j])];
      objs := objs + [RestoredObject(zs[j])];
      j := j + 1;
    }
    assert zs[..j] == zs;
  }

  /** The background chosen at canvas creation is the only decode in
      flight (`loads`) and a truthy pending URL is consumed (`pendingUrl` is
      what is left pending). */
  ghost predicate BackgroundInitialised(pending: Option<string>, cs: Option<CustomSurfaceData>,
                                        loads: seq<string>, pendingUrl: Option<string>)
  {
    && loads == (if InitialBackground(pending, cs).Some? then [InitialBackground(pending, cs).value] else [])
    && pendingUrl == (if Truthy(pending) then None else pending)
  }

  /** The stored zones restored over the canvas objects `before`: the
      polygons replaced by one per stored zone, the read-back agreeing with
      the stored ids and labels, the counter recomputed from `next`, and the
      selection `selected` dropped when its polygon was among those removed
      or its id is no longer stored. The last four parameters are the
      resulting objects, zone list, counter and selection. */
  ghost predicate ZonesApplied(zs: seq<CustomSurfaceZone>, before: seq<CanvasObject>, next: nat, selected: Option<string>,
                               objects: seq<CanvasObject>, zones: seq<CustomSurfaceZone>, counter: nat, selection: Option<string>)
  {
    && objects == NonPolygons(before) + RestoredAll(zs)
    && Ids(zones) == Ids(zs) && Labels(zones) == Labels(zs)
    && counter == RecomputedIndex(Ids(zs), next)
    && selection == Pruned(Deselected(selected, Polygons(before)), Ids(zs))
  }

  /** Restoring zones while a canvas polygon carries the selected id ends
      with no selection: that polygon is the active object the library
      discards on removing it. */
  lemma RestoreClearsSelection(zs: seq<CustomSurfaceZone>, before: seq<CanvasObject>, next: nat, selected: Option<string>,
                               objects: seq<CanvasObject>, zones: seq<CustomSurfaceZone>, counter: nat, selection: Option<string>,
                               k: nat)
    requires ZonesApplied(zs, before, next, selected, objects, zones, counter, selection)
    requires k < |before| && before[k].kind == Polygon && selected.Some? && before[k].zoneId == selected
    ensures selection == None
  {
    PolygonsMembers(before);
    var ps := Polygons(before);
    assert before[k] in ps;
    var j :| 0 <= j < |ps| && ps[j] == before[k];
    assert Deselected(selected, ps) == None;
  }

  /** The zones chosen at canvas creation, if any, restored on the empty
      canvas with the counter recomputed from `next`; nothing is left
      pending. The last five parameters are the resulting pending zones,
      objects, zone list, counter and selection. */
  ghost predicate ZonesInitialised(initial: Option<seq<CustomSurfaceZone>>, next: nat,
                                   pending: Option<seq<CustomSurfaceZone>>, objects: seq<CanvasObject>,
                                   zones: seq<CustomSurfaceZone>, counter: nat, selection: Option<string>)
  {
    && pending == None
    && (initial.Some? ==> ZonesApplied(initial.value, [], next, None, objects, zones, counter, selection))
    && (initial.None? ==> objects == [] && zones == [] && counter == next && selection == None)
  }

  /** The background image being (re)loaded only when its URL differs from
      `shown`, the one on display before: `loads` become `loadsAfter` and
      the displayed URL `shownAfter` is still `shown`. */
  ghost predicate BackgroundStarted(imageUrl: string, loads: seq<string>, shown: Option<string>,
                                    loadsAfter: seq<string>, shownAfter: Option<string>)
  {
    && loadsAfter == loads + (if Some(imageUrl) != shown then [imageUrl] else [])
    && shownAfter == shown
  }

  class SurfaceEditorComponent {
    /** The drawing library's geometry, fixed for the component's lifetime. */
    const absolute: Projection

    var customSurface: Option<CustomSurfaceData>
    var zones: seq<CustomSurfaceZone>
    var canvasReady: bool
    var objects: seq<CanvasObject>
    var nextZoneIndex: nat
    var selectedZoneId: Option<string>
    var backgroundName: string
    var fabricUnavailable: bool
    var backgroundUrl: Option<string>
    var pendingBackgroundUrl: Option<string>
    var pendingZones: Option<seq<CustomSurfaceZone>>
    var isRestoringZones: bool
    var canvasSize: Option<Size>
    /** Image decodes that were started and whose completion has not run yet. */
    var inFlightLoads: seq<string>
    /** Every zone list sent to the `zonesChange` listener, oldest first. */
    ghost var emitted: seq<seq<CustomSurfaceZone>>

    /** What holds even in the middle of a restore. */
    ghost predicate Coherent()
      reads this`nextZoneIndex, this`fabricUnavailable, this`canvasReady, this`objects, this`inFlightLoads,
            this`selectedZoneId, this`backgroundUrl, this`canvasSize
    {
      && nextZoneIndex >= 1
      && (fabricUnavailable ==> !canvasReady)
      && (!canvasReady ==> objects == [] && inFlightLoads == [] && selectedZoneId == None &&
                           backgroundUrl == None && canvasSize == None)
    }

    /** Between events: no restore is under way, every polygon carries an id
        and a label, the zone list is the one read back from the canvas, and
        the counter exceeds every numeric id suffix. */
    ghost predicate Valid()
      reads this`nextZoneIndex, this`fabricUnavailable, this`canvasReady, this`objects, this`inFlightLoads,
            this`selectedZoneId, this`backgroundUrl, this`canvasSize, this`isRestoringZones, this`zones
    {
      && Coherent()
      && !isRestoringZones
      && ReadBackAgrees(objects, zones, nextZoneIndex, absolute)
    }

    constructor (absolute: Projection)
      ensures Valid() && this.absolute == absolute
      ensures customSurface == None && zones == [] && !canvasReady && objects == []
      ensures nextZoneIndex == 1 && selectedZoneId == None && backgroundName == "" && !fabricUnavailable
      ensures backgroundUrl == None && pendingBackgroundUrl == None && pendingZones == None
      ensures canvasSize == None && inFlightLoads == [] && emitted == []
    {
      this.absolute := absolute;
      customSurface := None;
      zones := [];
      canvasReady := false;
      objects := [];
      nextZoneIndex := 1;
      selectedZoneId := None;
      backgroundName := "";
      fabricUnavailable := false;
      backgroundUrl := None;
      pendingBackgroundUrl := None;
      pendingZones := None;
      isRestoringZones := false;
      canvasSize := None;
      inFlightLoads := [];
      emitted := [];
    }

    /** A zone can be added once the canvas exists and the surface has an image. */
    predicate CanAddZones()
      reads this`canvasReady, this`customSurface
    {
      canvasReady && HasImage(customSurface)
    }

    /** Creating the canvas; `fabricLoaded` says whether the drawing library
        is present. Without it only the flag is raised; with it the canvas
        starts out empty, the pending (or current) background starts loading,
        the pending (or current) zones are restored, and the shown file name
        follows the surface's when it has one. */
    method NgAfterViewInit(fabricLoaded: bool)
      requires Valid() && !canvasReady && !fabricUnavailable
      modifies this`fabricUnavailable, this`canvasReady, this`pendingBackgroundUrl, this`inFlightLoads,
               this`pendingZones, this`isRestoringZones, this`objects, this`zones, this`nextZoneIndex,
               this`selectedZoneId, this`emitted, this`backgroundName
      ensures Valid()
      ensures !fabricLoaded ==> fabricUnavailable && !canvasReady
      ensures !fabricLoaded ==>
        unchanged(this`pendingBackgroundUrl, this`inFlightLoads, this`pendingZones, this`objects, this`zones,
                  this`nextZoneIndex, this`selectedZoneId, this`emitted, this`backgroundName)
      ensures fabricLoaded ==> canvasReady && !fabricUnavailable
      ensures fabricLoaded ==> BackgroundInitialised(old(pendingBackgroundUrl), customSurface, inFlightLoads, pendingBackgroundUrl)
      ensures fabricLoaded ==> ZonesInitialised(InitialZones(old(pendingZones), customSurface), old(nextZoneIndex),
                                 pendingZones, objects, zones, nextZoneIndex, selectedZoneId)
      ensures fabricLoaded ==> emitted == old(emitted)
      ensures fabricLoaded ==>
        backgroundName == (if customSurface.Some? && customSurface.value.imageName.Some?
                           then customSurface.value.imageName.value else old(backgroundName))
    {
      if !fabricLoaded {
        fabricUnavailable := true;
        return;
      }
      CreateCanvas();
    }

    /** Canvas creation proper, once the drawing library is known to be present. */
    method CreateCanvas()
      requires Valid() && !canvasReady && !fabricUnavailable
      modifies this`canvasReady, this`pendingBackgroundUrl, this`inFlightLoads,
               this`pendingZones, this`isRestoringZones, this`objects, this`zones, this`nextZoneIndex,
               this`selectedZoneId, this`emitted, this`backgroundName
      ensures Valid() && canvasReady
      ensures BackgroundInitialised(old(pendingBackgroundUrl), customSurface, inFlightLoads, pendingBackgroundUrl)
      ensures ZonesInitialised(InitialZones(old(pendingZones), customSurface), old(nextZoneIndex),
                                 pendingZones, objects, zones, nextZoneIndex, selectedZoneId)
      ensures emitted == old(emitted)
      ensures backgroundName == (if customSurface.Some? && customSurface.value.imageName.Some?
                                 then customSurface.value.imageName.value else old(backgroundName))
    {
      OpenCanvas();
      ghost var loads, pendingUrl := inFlightLoads, pendingBackgroundUrl;
      FillCanvas();
      assert inFlightLoads == loads && pendingBackgroundUrl == pendingUrl;
    }

    /** The rest of canvas creation on the new, empty canvas: the initial
        zones are restored, then the shown file name is updated. */
    method FillCanvas()
      requires Valid() && canvasReady && objects == [] && selectedZoneId == None
      modifies this`pendingZones, this`isRestoringZones, this`objects, this`zones, this`nextZoneIndex,
               this`selectedZoneId, this`emitted, this`backgroundName
      ensures Valid() && emitted == old(emitted)
      ensures ZonesInitialised(InitialZones(old(pendingZones), customSurface), old(nextZoneIndex),
                               pendingZones, objects, zones, nextZoneIndex, selectedZoneId)
      ensures backgroundName == (if customSurface.Some? && customSurface.value.imageName.Some?
                                 then customSurface.value.imageName.value else old(backgroundName))
    {
      RestoreInitialZones();
      ghost var objs, zs, next, sel, pz := objects, zones, nextZoneIndex, selectedZoneId, pendingZones;
      ShowImageName();
      assert objects == objs && zones == zs && nextZoneIndex == next && selectedZoneId == sel && pendingZones == pz;
    }

    /** The canvas coming into existence, empty, with its initial background
        loading. */
    method OpenCanvas()
      requires Valid() && !canvasReady && !fabricUnavailable
      modifies this`canvasReady, this`pendingBackgroundUrl, this`inFlightLoads
      ensures Valid() && canvasReady && objects == [] && selectedZoneId == None
      ensures BackgroundInitialised(old(pendingBackgroundUrl), customSurface, inFlightLoads, pendingBackgroundUrl)
    {
      canvasReady := true;
      LoadInitialBackground();
    }

    /** The shown file name follows the surface's, when it has one. */
    method ShowImageName()
      modifies this`backgroundName
      ensures backgroundName == (if customSurface.Some? && customSurface.value.imageName.Some?
                                 then customSurface.value.imageName.value else old(backgroundName))
    {
      if customSurface.Some? && customSurface.value.imageName.Some? {
        backgroundName := customSurface.value.imageName.value;
      }
    }

    /** The background half of canvas creation. */
    method LoadInitialBackground()
      requires Valid() && canvasReady && inFlightLoads == []
      modifies this`pendingBackgroundUrl, this`inFlightLoads
      ensures Valid()
      ensures BackgroundInitialised(old(pendingBackgroundUrl), customSurface, inFlightLoads, pendingBackgroundUrl)
    {
      if Truthy(pendingBackgroundUrl) {
        SetCanvasBackground(pendingBackgroundUrl.value);
        pendingBackgroundUrl := None;
      } else if HasImage(customSurface) {
        SetCanvasBackground(customSurface.value.imageDataUrl);
      }
    }

    /** The zones half of canvas creation. */
    method RestoreInitialZones()
      requires Valid() && canvasReady && objects == [] && selectedZoneId == None
      modifies this`pendingZones, this`isRestoringZones, this`objects, this`zones, this`nextZoneIndex,
               this`selectedZoneId, this`emitted
      ensures Valid() && emitted == old(emitted)
      ensures ZonesInitialised(InitialZones(old(pendingZones), customSurface), old(nextZoneIndex),
                                 pendingZones, objects, zones, nextZoneIndex, selectedZoneId)
    {
      if pendingZones.Some? {
        ApplyZones(pendingZones.value);
        pendingZones := None;
      } else if customSurface.Some? && |customSurface.value.zones| > 0 {
        ApplyZones(customSurface.value.zones);
      }
    }

    /** Angular delivering a new `customSurface` input: the input field
        takes the new value and the change handler runs. */
    method NgOnChanges(cs: Option<CustomSurfaceData>)
      requires Valid()
      modifies this`customSurface, this`backgroundName, this`pendingBackgroundUrl, this`pendingZones, this`inFlightLoads,
               this`backgroundUrl, this`objects, this`zones, this`selectedZoneId, this`emitted,
               this`isRestoringZones, this`nextZoneIndex
      ensures Valid() && customSurface == cs && backgroundName == BackgroundNameOf(cs)
      ensures canvasReady == old(canvasReady) && fabricUnavailable == old(fabricUnavailable)
      ensures canvasSize == old(canvasSize)
      ensures !canvasReady ==> pendingBackgroundUrl == (if cs.Some? then Some(cs.value.imageDataUrl) else None)
      ensures !canvasReady ==> pendingZones == (if cs.Some? then Some(cs.value.zones) else None)
      ensures !canvasReady ==> backgroundUrl == old(backgroundUrl) && inFlightLoads == old(inFlightLoads)
      ensures !canvasReady ==> unchanged(this`objects, this`zones, this`nextZoneIndex, this`selectedZoneId, this`isRestoringZones, this`emitted)
      ensures canvasReady && !HasImage(cs) ==> CanvasCleared(old(emitted), old(nextZoneIndex))
      ensures canvasReady && !HasImage(cs) ==> pendingBackgroundUrl == old(pendingBackgroundUrl)
      ensures canvasReady && !HasImage(cs) ==> inFlightLoads == old(inFlightLoads)
      ensures canvasReady && HasImage(cs) ==>
        BackgroundStarted(cs.value.imageDataUrl, old(inFlightLoads), old(backgroundUrl), inFlightLoads, backgroundUrl)
      ensures canvasReady && HasImage(cs) ==> pendingBackgroundUrl == old(pendingBackgroundUrl)
      ensures canvasReady && HasImage(cs) ==>
        ZonesApplied(cs.value.zones, old(objects), old(nextZoneIndex), old(selectedZoneId),
                               objects, zones, nextZoneIndex, selectedZoneId)
      ensures canvasReady && HasImage(cs) ==> emitted == old(emitted) && pendingZones == old(pendingZones)
    {
      customSurface := cs;
      assert objects == old(objects) && nextZoneIndex == old(nextZoneIndex) && selectedZoneId == old(selectedZoneId);
      assert emitted == old(emitted) && inFlightLoads == old(inFlightLoads) && backgroundUrl == old(backgroundUrl);
      HandleCustomSurfaceChange(cs);
    }

    /** The canvas emptied and the empty zone list appended to the emissions
        `before`; the counter keeps the value `next`. */
    ghost predicate CanvasCleared(before: seq<seq<CustomSurfaceZone>>, next: nat)
      reads this`objects, this`zones, this`selectedZoneId, this`pendingZones, this`backgroundUrl, this`emitted,
            this`nextZoneIndex
    {
      && objects == [] && zones == [] && selectedZoneId == None && pendingZones == None
      && backgroundUrl == None && emitted == before + [[]] && nextZoneIndex == next
    }

    /** What a new `customSurface` value sets off: the displayed name always
        follows it; before the canvas exists only the pending values are
        recorded; without an image the canvas is cleared (an empty
        emission); otherwise a new URL starts a background load and the
        zones are replaced without an emission. */
    method HandleCustomSurfaceChange(cs: Option<CustomSurfaceData>)
      requires Valid()
      modifies this`backgroundName, this`pendingBackgroundUrl, this`pendingZones, this`inFlightLoads,
               this`backgroundUrl, this`objects, this`zones, this`selectedZoneId, this`emitted,
               this`isRestoringZones, this`nextZoneIndex
      ensures Valid() && backgroundName == BackgroundNameOf(cs)
      ensures !canvasReady ==> pendingBackgroundUrl == (if cs.Some? then Some(cs.value.imageDataUrl) else None)
      ensures !canvasReady ==> pendingZones == (if cs.Some? then Some(cs.value.zones) else None)
      ensures !canvasReady ==> backgroundUrl == old(backgroundUrl) && inFlightLoads == old(inFlightLoads)
      ensures !canvasReady ==> unchanged(this`objects, this`zones, this`nextZoneIndex, this`selectedZoneId, this`isRestoringZones, this`emitted)
      ensures canvasReady && !HasImage(cs) ==> CanvasCleared(old(emitted), old(nextZoneIndex))
      ensures canvasReady && !HasImage(cs) ==> pendingBackgroundUrl == old(pendingBackgroundUrl)
      ensures canvasReady && !HasImage(cs) ==> inFlightLoads == old(inFlightLoads)
      ensures canvasReady && HasImage(cs) ==>
        BackgroundStarted(cs.value.imageDataUrl, old(inFlightLoads), old(backgroundUrl), inFlightLoads, backgroundUrl)
      ensures canvasReady && HasImage(cs) ==> pendingBackgroundUrl == old(pendingBackgroundUrl)
      ensures canvasReady && HasImage(cs) ==>
        ZonesApplied(cs.value.zones, old(objects), old(nextZoneIndex), old(selectedZoneId),
                               objects, zones, nextZoneIndex, selectedZoneId)
      ensures canvasReady && HasImage(cs) ==> emitted == old(emitted) && pendingZones == old(pendingZones)
    {
      backgroundName := BackgroundNameOf(cs);
      if !canvasReady {
        pendingBackgroundUrl := if cs.Some? then Some(cs.value.imageDataUrl) else None;
        pendingZones := if cs.Some? then Some(cs.value.zones) else None;
        return;
      }

      if cs.None? || cs.value.imageDataUrl == "" {
        ClearCanvas();
        return;
      }

      ShowSurface(cs.value);
    }

    /** A surface with an image on the existing canvas: its background
        starts loading unless it is already the one shown, and its zones
        replace the canvas polygons. */
    method ShowSurface(data: CustomSurfaceData)
      requires Valid() && canvasReady
      modifies this`pendingBackgroundUrl, this`inFlightLoads, this`objects, this`zones, this`selectedZoneId,
               this`emitted, this`isRestoringZones, this`nextZoneIndex, this`pendingZones
      ensures Valid()
      ensures BackgroundStarted(data.imageDataUrl, old(inFlightLoads), old(backgroundUrl), inFlightLoads, backgroundUrl)
      ensures pendingBackgroundUrl == old(pendingBackgroundUrl)
      ensures ZonesApplied(data.zones, old(objects), old(nextZoneIndex), old(selectedZoneId),
                           objects, zones, nextZoneIndex, selectedZoneId)
      ensures emitted == old(emitted) && pendingZones == old(pendingZones)
    {
      if Some(data.imageDataUrl) != backgroundUrl {
        SetCanvasBackground(data.imageDataUrl);
      }
      assert objects == old(objects) && nextZoneIndex == old(nextZoneIndex) && selectedZoneId == old(selectedZoneId);
      ghost var loads, pendingUrl := inFlightLoads, pendingBackgroundUrl;
      ApplyZones(data.zones);
      assert inFlightLoads == loads && pendingBackgroundUrl == pendingUrl;
    }

    /** Starts decoding a background image, or records it for later when
        there is no canvas yet. */
    method SetCanvasBackground(imageUrl: string)
      requires Valid()
      modifies this`pendingBackgroundUrl, this`inFlightLoads
      ensures Valid()
      ensures !canvasReady ==> pendingBackgroundUrl == Some(imageUrl) && inFlightLoads == old(inFlightLoads)
      ensures canvasReady ==> inFlightLoads == old(inFlightLoads) + [imageUrl]
      ensures canvasReady ==> pendingBackgroundUrl == old(pendingBackgroundUrl)
    {
      if !canvasReady {
        pendingBackgroundUrl := Some(imageUrl);
        return;
      }
      inFlightLoads := inFlightLoads + [imageUrl];
    }

    /** The completion of the `k`-th image decode still in flight; the image
        reports its natural size when it knows it. */
    method OnBackgroundLoaded(k: nat, imageWidth: Option<nat>, imageHeight: Option<nat>)
      requires Valid() && k < |inFlightLoads|
      modifies this`canvasSize, this`backgroundUrl, this`inFlightLoads
      ensures Valid()
      ensures canvasSize == Some(Size(imageWidth.GetOr(800), imageHeight.GetOr(500)))
      ensures backgroundUrl == Some(old(inFlightLoads)[k])
      ensures inFlightLoads == old(inFlightLoads)[..k] + old(inFlightLoads)[k + 1..]
    {
      var imageUrl := inFlightLoads[k];
      canvasSize := Some(Size(imageWidth.GetOr(800), imageHeight.GetOr(500)));
      backgroundUrl := Some(imageUrl);
      inFlightLoads := inFlightLoads[..k] + inFlightLoads[k + 1..];
    }

    /** Removes the background and every object, and emits the empty zone list. */
    method ClearCanvas()
      requires Valid()
      modifies this`backgroundUrl, this`zones, this`pendingZones, this`selectedZoneId, this`objects, this`emitted
      ensures Valid()
      ensures !canvasReady ==> unchanged(this)
      ensures canvasReady ==> CanvasCleared(old(emitted), old(nextZoneIndex))
    {
      if !canvasReady {
        return;
      }
      backgroundUrl := None;
      zones := [];
      pendingZones := None;
      selectedZoneId := None;
      var remaining := objects;
      while remaining != []
        invariant |remaining| <= |objects| && remaining == objects[|objects| - |remaining|..]
        decreases |remaining|
      {
        remaining := remaining[1..];
      }
      objects := remaining;
      EmitZonesChange();
    }

    /** Replaces the canvas polygons by one polygon per stored zone; the
        read-back that follows does not emit. */
    method ApplyZones(zs: seq<CustomSurfaceZone>)
      requires Valid()
      modifies this`pendingZones, this`isRestoringZones, this`objects, this`zones, this`nextZoneIndex,
               this`selectedZoneId, this`emitted
      ensures Valid()
      ensures !canvasReady ==> pendingZones == Some(zs) && unchanged(this`objects, this`zones, this`nextZoneIndex, this`selectedZoneId, this`isRestoringZones, this`emitted)
      ensures canvasReady ==> ZonesApplied(zs, old(objects), old(nextZoneIndex), old(selectedZoneId),
                               objects, zones, nextZoneIndex, selectedZoneId)
      ensures canvasReady ==> emitted == old(emitted) && pendingZones == old(pendingZones)
    {
      if !canvasReady {
        pendingZones := Some(zs);
        return;
      }
      ReplaceZones(zs);
    }

    method ReplaceZones(zs: seq<CustomSurfaceZone>)
      requires Valid() && canvasReady
      modifies this`isRestoringZones, this`objects, this`zones, this`nextZoneIndex,
               this`selectedZoneId, this`emitted
      ensures Valid()
      ensures ZonesApplied(zs, old(objects), old(nextZoneIndex), old(selectedZoneId),
                               objects, zones, nextZoneIndex, selectedZoneId)
      ensures emitted == old(emitted)
    {
      RestorePolygons(zs);
      SyncZonesFromCanvas();
      assert Ids(zones) == Ids(zs) && Labels(zones) == Labels(zs) by {
        RestoredZoneIds(old(objects), zs, absolute);
      }
      RecomputedIndexIdempotent(Ids(zones), old(nextZoneIndex), nextZoneIndex);
    }

    /** The restoring half of `applyZones`: every polygon leaves the canvas,
        one polygon per stored zone joins it, the stored list becomes the
        zone list and the counter is recomputed from its ids. Removing the
        selected polygon clears the selection through the library's event. */
    method RestorePolygons(zs: seq<CustomSurfaceZone>)
      requires Valid() && canvasReady
      modifies this`isRestoringZones, this`objects, this`zones, this`nextZoneIndex, this`selectedZoneId
      ensures Coherent() && isRestoringZones && zones == zs
      ensures selectedZoneId == Deselected(old(selectedZoneId), Polygons(old(objects)))
      ensures objects == NonPolygons(old(objects)) + RestoredAll(zs) && AllTagged(objects)
      ensures nextZoneIndex == RecomputedIndex(Ids(zs), old(nextZoneIndex))
    {
      var existing := objects;
      var kept := RemovePolygons(existing);
      var restored := AddRestored(kept, zs);
      assert AllTagged(restored) by {
        RestoredZoneIds(existing, zs, absolute);
      }
      var next := RecomputedIndex(Ids(zs), nextZoneIndex);
      var selection := Deselected(selectedZoneId, Polygons(existing));
      assert next >= 1;
      isRestoringZones, objects, zones, nextZoneIndex, selectedZoneId := true, restored, zs, next, selection;
    }

    /** Reads the zone list back from the canvas: gives every polygon an id
        and a label, drops a stale selection, recomputes the counter, and
        emits unless this read-back follows a restore. */
    method SyncZonesFromCanvas()
      requires Coherent()
      modifies this`objects, this`zones, this`selectedZoneId, this`nextZoneIndex, this`isRestoringZones, this`emitted
      ensures Coherent()
      ensures !canvasReady ==> unchanged(this)
      ensures canvasReady ==> Valid()
      ensures canvasReady ==> selectedZoneId == Pruned(old(selectedZoneId), Ids(zones))
      ensures canvasReady && !AllTagged(old(objects)) ==> objects == Fill(old(objects), old(nextZoneIndex)).0
      ensures canvasReady && !AllTagged(old(objects)) ==>
        nextZoneIndex == RecomputedIndex(Ids(zones), Fill(old(objects), old(nextZoneIndex)).1)
      ensures canvasReady && AllTagged(old(objects)) ==> objects == old(objects)
      ensures canvasReady && AllTagged(old(objects)) ==> nextZoneIndex == RecomputedIndex(Ids(zones), old(nextZoneIndex))
      ensures canvasReady && old(isRestoringZones) ==> emitted == old(emitted)
      ensures canvasReady && !old(isRestoringZones) ==> emitted == old(emitted) + [zones]
    {
      if !canvasReady {
        return;
      }
      RefreshZones();
      if isRestoringZones {
        isRestoringZones := false;
        return;
      }
      EmitZonesChange();
    }

    /** The read-back proper: every polygon gets an id and a label, the zone
        list is rebuilt, a stale selection is dropped and the counter is
        recomputed. */
    method RefreshZones()
      requires Coherent() && canvasReady
      modifies this`objects, this`zones, this`selectedZoneId, this`nextZoneIndex
      ensures Coherent() && ReadBackAgrees(objects, zones, nextZoneIndex, absolute)
      ensures selectedZoneId == Pruned(old(selectedZoneId), Ids(zones))
      ensures !AllTagged(old(objects)) ==> objects == Fill(old(objects), old(nextZoneIndex)).0
      ensures !AllTagged(old(objects)) ==>
        nextZoneIndex == RecomputedIndex(Ids(zones), Fill(old(objects), old(nextZoneIndex)).1)
      ensures AllTagged(old(objects)) ==> objects == old(objects)
      ensures AllTagged(old(objects)) ==> nextZoneIndex == RecomputedIndex(Ids(zones), old(nextZoneIndex))
    {
      if AllTagged(objects) {
        FillTagged(objects, nextZoneIndex);
      }
      var filled, counter, result := ReadBack(objects, nextZoneIndex, absolute);
      var ids := Ids(result);
      var selection := selectedZoneId;
      if Truthy(selection) && selection.value !in ids {
        selection := None;
      }
      var next := RecomputedIndex(ids, counter);
      RecomputedIndexAbove(ids, counter);
      assert ReadBackAgrees(filled, result, next, absolute) && next >= 1;
      objects, zones, selectedZoneId, nextZoneIndex := filled, result, selection, next;
    }

    /** Sends the zone list to the `zonesChange` listener. Each zone goes
        out with a deep copy of its snapshot, which on values is the zone
        itself. */
    method EmitZonesChange()
      modifies this`emitted
      ensures emitted == old(emitted) + [zones]
    {
      emitted := emitted + [zones];
    }

    /** Adds the fixed rectangle as a new zone: id `zone-N` and label
        `Zone N` for the counter value N, which then advances; the new zone
        is selected and the canvas is read back, which emits. Nothing
        happens unless the canvas exists and the surface has an image. */
    method AddPolygonZone()
      requires Valid()
      modifies this`objects, this`zones, this`selectedZoneId, this`nextZoneIndex, this`isRestoringZones, this`emitted
      ensures Valid()
      ensures !old(CanAddZones()) ==> unchanged(this)
      ensures old(CanAddZones()) ==>
        RectangleAdded(old(nextZoneIndex), old(objects), old(zones), old(emitted))
    {
      if !canvasReady || !HasImage(customSurface) {
        return;
      }
      AddRectangle();
    }

    /** The zone `zone-n` added as the last canvas object and the last zone
        of the list, with a fresh id, selected, the counter one past it, and
        the new list emitted after `log`. */
    ghost predicate RectangleAdded(n: nat, before: seq<CanvasObject>, zonesBefore: seq<CustomSurfaceZone>,
                                   log: seq<seq<CustomSurfaceZone>>)
      reads this`objects, this`zones, this`nextZoneIndex, this`selectedZoneId, this`emitted
    {
      && objects == before + [NewPolygon(n)]
      && zones == zonesBefore + [ZoneOf(NewPolygon(n), absolute)]
      && ZoneIdFor(n) !in Ids(zonesBefore)
      && nextZoneIndex == n + 1
      && selectedZoneId == Some(ZoneIdFor(n))
      && emitted == log + [zones]
    }

    /** The body of `AddPolygonZone` once the guard has passed. */
    method AddRectangle()
      requires Valid() && canvasReady
      modifies this`objects, this`zones, this`selectedZoneId, this`nextZoneIndex, this`isRestoringZones, this`emitted
      ensures Valid()
      ensures RectangleAdded(old(nextZoneIndex), old(objects), old(zones), old(emitted))
    {
      ghost var n, before, zonesBefore := nextZoneIndex, objects, zones;
      PlaceRectangle();
      SyncZonesFromCanvas();
      AddedZone(before, zonesBefore, n, absolute, zones, nextZoneIndex);
    }

    /** Puts the rectangle for the current counter value on the canvas,
        advances the counter and selects the new polygon; the zone list is
        not read back yet. */
    method PlaceRectangle()
      requires Valid() && canvasReady
      modifies this`objects, this`nextZoneIndex, this`selectedZoneId
      ensures Coherent() && canvasReady && !isRestoringZones
      ensures objects == old(objects) + [NewPolygon(old(nextZoneIndex))] && AllTagged(objects)
      ensures nextZoneIndex == old(nextZoneIndex) + 1
      ensures selectedZoneId == Some(ZoneIdFor(old(nextZoneIndex)))
    {
      var n := nextZoneIndex;
      AddedTagged(objects, n);
      var zoneId := ZoneIdFor(n);
      nextZoneIndex := nextZoneIndex + 1;
      var zoneLabel := LabelFor(nextZoneIndex - 1);
      var polygon := CanvasObject(Polygon, Some(zoneId), Some(zoneLabel), RectanglePoints, NewPolygonAttributes);
      assert polygon == NewPolygon(n);
      objects := objects + [polygon];
      // Making the polygon the active object raises a selection event.
      OnSelection([polygon]);
    }

    /** Removes the first object carrying the selected zone id and clears
        the selection, then reads the canvas back; without a canvas, a
        (truthy) selection or a matching object nothing happens. */
    method RemoveSelectedZone()
      requires Valid()
      modifies this`objects, this`zones, this`selectedZoneId, this`nextZoneIndex, this`isRestoringZones, this`emitted
      ensures Valid()
      ensures !canvasReady || !Truthy(old(selectedZoneId)) ==> unchanged(this)
      ensures canvasReady && Truthy(old(selectedZoneId)) && FindByZoneId(old(objects), old(selectedZoneId).value).None? ==>
        unchanged(this)
      ensures canvasReady && Truthy(old(selectedZoneId)) && FindByZoneId(old(objects), old(selectedZoneId).value).Some? ==>
        var k := FindByZoneId(old(objects), old(selectedZoneId).value).value;
        && objects == old(objects)[..k] + old(objects)[k + 1..]
        && zones == ZonesOf(old(objects)[..k], absolute) + ZonesOf(old(objects)[k + 1..], absolute)
        && selectedZoneId == None
        && nextZoneIndex == RecomputedIndex(Ids(zones), old(nextZoneIndex))
        && emitted == old(emitted) + [zones]
    {
      if !canvasReady || !Truthy(selectedZoneId) {
        return;
      }
      var found := FindByZoneId(objects, selectedZoneId.value);
      if found.Some? {
        var k := found.value;
        ZonesOfRemove(objects, k, absolute);
        RemovedKeepsTagged(objects, k);
        objects := objects[..k] + objects[k + 1..];
        // Discarding the active object raises a selection-cleared event.
        selectedZoneId := None;
        SyncZonesFromCanvas();
      }
    }

    /** Gives the first object carrying the zone's id the zone's label and
        reads the canvas back: only that zone's label changes in the zone
        list. A missing id is a silent no-op. */
    method OnZoneLabelChange(zone: CustomSurfaceZone)
      requires Valid()
      modifies this`objects, this`zones, this`selectedZoneId, this`nextZoneIndex, this`isRestoringZones, this`emitted
      ensures Valid()
      ensures !canvasReady || FindByZoneId(old(objects), zone.id).None? ==> unchanged(this)
      ensures canvasReady && FindByZoneId(old(objects), zone.id).Some? ==>
        var k := FindByZoneId(old(objects), zone.id).value;
        && objects == old(objects)[k := old(objects)[k].(zoneLabel := Some(zone.zoneLabel))]
        && (old(objects)[k].kind == Polygon ==>
              zones == old(zones)[ZonePosition(old(objects), k, absolute) := ZoneOf(objects[k], absolute)])
        && (old(objects)[k].kind == Other ==> zones == old(zones))
        && Ids(zones) == Ids(old(zones))
        && selectedZoneId == Pruned(old(selectedZoneId), Ids(zones))
        && nextZoneIndex == RecomputedIndex(Ids(zones), old(nextZoneIndex))
        && emitted == old(emitted) + [zones]
    {
      if !canvasReady {
        return;
      }
      var found := FindByZoneId(objects, zone.id);
      if found.Some? {
        var k := found.value;
        ReplaceObject(k, objects[k].(zoneLabel := Some(zone.zoneLabel)));
      }
    }

    /** Replaces object `k` by one of the same kind and zone id (a label,
        vertex or transform change made by the user or the drawing library)
        and reads the canvas back. */
    method ReplaceObject(k: nat, o: CanvasObject)
      requires Valid() && canvasReady && k < |objects|
      requires o.kind == objects[k].kind && o.zoneId == objects[k].zoneId
      requires o.kind == Polygon ==> o.zoneLabel.Some?
      modifies this`objects, this`zones, this`selectedZoneId, this`nextZoneIndex, this`isRestoringZones, this`emitted
      ensures Valid()
      ensures objects == old(objects)[k := o]
      ensures o.kind == Polygon ==> zones == old(zones)[ZonePosition(old(objects), k, absolute) := ZoneOf(o, absolute)]
      ensures o.kind == Other ==> zones == old(zones)
      ensures Ids(zones) == Ids(old(zones))
      ensures selectedZoneId == Pruned(old(selectedZoneId), Ids(zones))
      ensures nextZoneIndex == RecomputedIndex(Ids(zones), old(nextZoneIndex))
      ensures emitted == old(emitted) + [zones]
    {
      ZonesOfUpdate(objects, k, o, absolute);
      objects := objects[k := o];
      SyncZonesFromCanvas();
    }

    /** Makes the first object carrying the zone's id the selection; a
        missing id is a silent no-op. */
    method SelectZone(zone: CustomSurfaceZone)
      requires Valid()
      modifies this`selectedZoneId
      ensures Valid()
      ensures !canvasReady || FindByZoneId(objects, zone.id).None? ==> selectedZoneId == old(selectedZoneId)
      ensures canvasReady && FindByZoneId(objects, zone.id).Some? ==> selectedZoneId == Some(zone.id)
    {
      if !canvasReady {
        return;
      }
      var found := FindByZoneId(objects, zone.id);
      if found.Some? {
        // Making the object active raises a selection event first.
        OnSelection([objects[found.value]]);
        selectedZoneId := Some(zone.id);
      }
    }

    /** A selection event of the canvas: the selection becomes the first
        selected object's zone id, or none. */
    method OnSelection(selected: seq<CanvasObject>)
      modifies this`selectedZoneId
      ensures selectedZoneId == SelectionFrom(selected)
    {
      if |selected| > 0 && Truthy(selected[0].zoneId) {
        selectedZoneId := selected[0].zoneId;
      } else {
        selectedZoneId := None;
      }
    }

    /** The canvas's selection-cleared event. */
    method OnSelectionCleared()
      requires Valid() && canvasReady
      modifies this`selectedZoneId
      ensures Valid() && selectedZoneId == None
    {
      selectedZoneId := None;
    }

    /** The drag of vertex `i` of polygon `k`: the vertex takes the local
        position `p` the mouse maps to, and the canvas is read back, so
        that zone alone changes, to the polygon's new absolute points. */
    method OnVertexDragged(k: nat, i: nat, p: Point)
      requires Valid() && canvasReady && k < |objects| && objects[k].kind == Polygon && i < |objects[k].points|
      modifies this`objects, this`zones, this`selectedZoneId, this`nextZoneIndex, this`isRestoringZones, this`emitted
      ensures Valid()
      ensures objects == old(objects)[k := old(objects)[k].(points := old(objects)[k].points[i := p])]
      ensures zones == old(zones)[ZonePosition(old(objects), k, absolute) := ZoneOf(objects[k], absolute)]
      ensures zones[ZonePosition(old(objects), k, absolute)].points == absolute(objects[k].points, objects[k].attributes)
      ensures selectedZoneId == Pruned(old(selectedZoneId), Ids(zones))
      ensures nextZoneIndex == RecomputedIndex(Ids(zones), old(nextZoneIndex))
      ensures emitted == old(emitted) + [zones]
    {
      var o := objects[k];
      ReplaceObject(k, o.(points := o.points[i := p]));
    }

    /** A move or scale of object `k` by the drawing library (its new
        transform attributes), followed by the read-back its events trigger. */
    method OnObjectTransformed(k: nat, attributes: map<string, string>)
      requires Valid() && canvasReady && k < |objects|
      modifies this`objects, this`zones, this`selectedZoneId, this`nextZoneIndex, this`isRestoringZones, this`emitted
      ensures Valid()
      ensures objects == old(objects)[k := old(objects)[k].(attributes := attributes)]
      ensures old(objects)[k].kind == Polygon ==>
        zones == old(zones)[ZonePosition(old(objects), k, absolute) := ZoneOf(objects[k], absolute)]
      ensures old(objects)[k].kind == Other ==> zones == old(zones)
      ensures selectedZoneId == Pruned(old(selectedZoneId), Ids(zones))
      ensures nextZoneIndex == RecomputedIndex(Ids(zones), old(nextZoneIndex))
      ensures emitted == old(emitted) + [zones]
    {
      var o := objects[k];
      ReplaceObject(k, o.(attributes := attributes));
    }
  }
}
