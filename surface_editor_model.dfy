/** The value-level part of the custom-surface editor: canvas objects, the
    derivation of the zone list from them, the zone-id counter and the
    restoring of polygons from stored zones. */
module EditorModel {
  import opened Wrappers
  import opened Text
  import opened ProjectState

  type Point = CustomSurfacePoint

  datatype ObjectKind = Polygon | Other

  /** An object on the drawing canvas: its type, the zone id and label the
      editor attaches to polygons (absent until set), its local points and its
      style and transform attributes. */
  datatype CanvasObject = CanvasObject(kind: ObjectKind, zoneId: Option<string>, zoneLabel: Option<string>,
                                       points: seq<Point>, attributes: map<string, string>)

  /** The drawing library's geometry: the absolute, rounded positions of an
      object's local points under its transform attributes. */
  type Projection = (seq<Point>, map<string, string>) -> seq<Point>

  /** The rectangle a new zone starts as. */
  const RectanglePoints: seq<Point> :=
    [CustomSurfacePoint(100, 100), CustomSurfacePoint(260, 100), CustomSurfacePoint(260, 200), CustomSurfacePoint(100, 200)]

  /** The attributes of a new zone: the style options it is created with and the
      placement the drawing library derives for the rectangle. */
  const NewPolygonAttributes: map<string, string> := map[
    "fill" := "rgba(0, 153, 255, 0.25)", "stroke" := "#0099ff", "strokeWidth" := "2",
    "perPixelTargetFind" := "true", "objectCaching" := "false", "cornerSize" := "8",
    "transparentCorners" := "false", "lockRotation" := "true", "lockScalingFlip" := "true",
    "lockScalingX" := "true", "lockScalingY" := "true",
    "left" := "100", "top" := "100", "angle" := "0", "scaleX" := "1", "scaleY" := "1",
    "originX" := "left", "originY" := "top"]

  /** The value each attribute takes when a stored snapshot lacks it. */
  const RestoreDefaults: map<string, string> := map[
    "fill" := "rgba(0, 153, 255, 0.25)", "stroke" := "#0099ff", "strokeWidth" := "2",
    "perPixelTargetFind" := "true", "objectCaching" := "false", "cornerSize" := "8",
    "transparentCorners" := "false", "lockRotation" := "true", "lockScalingFlip" := "true",
    "lockScalingX" := "true", "lockScalingY" := "true",
    "left" := "0", "top" := "0", "angle" := "0", "scaleX" := "1", "scaleY" := "1",
    "originX" := "left", "originY" := "top"]

  function ZoneIdFor(n: nat): string
  {
    "zone-" + NatToString(n)
  }

  function LabelFor(n: nat): string
  {
    "Zone " + NatToString(n)
  }

  /** A new zone's id ends in its counter value. */
  lemma ZoneIdSuffix(n: nat)
    ensures SuffixIndex(ZoneIdFor(n)) == Some(n)
  {
    SuffixIndexOfRendered("zone-", n);
  }

  /** The object `addPolygonZone` creates for counter value `n`. */
  function NewPolygon(n: nat): CanvasObject
  {
    CanvasObject(Polygon, Some(ZoneIdFor(n)), Some(LabelFor(n)), RectanglePoints, NewPolygonAttributes)
  }

  /** The new object is a tagged polygon on the fixed rectangle, and its id
      has numeric suffix `n`. */
  lemma NewPolygonTagged(n: nat)
    ensures NewPolygon(n).kind == Polygon && Tagged(NewPolygon(n)) && NewPolygon(n).points == RectanglePoints
    ensures SuffixIndex(NewPolygon(n).zoneId.value) == Some(n)
  {
    ZoneIdSuffix(n);
  }

  predicate Tagged(o: CanvasObject)
  {
    o.zoneId.Some? && o.zoneLabel.Some?
  }

  /** Every polygon on the canvas carries a zone id and a label. */
  predicate AllTagged(objs: seq<CanvasObject>)
  {
    forall i :: 0 <= i < |objs| && objs[i].kind == Polygon ==> Tagged(objs[i])
  }

  /** The canvas polygons, in canvas order (the `type === 'polygon'` filter). */
  function Polygons(objs: seq<CanvasObject>): (ps: seq<CanvasObject>)
    ensures forall o :: o in ps ==> o in objs && o.kind == Polygon
  {
    if objs == [] then []
    else
      var init := objs[..|objs| - 1];
      var last := objs[|objs| - 1];
      Polygons(init) + (if last.kind == Polygon then [last] else [])
  }

  /** The objects that are not polygons, in canvas order. */
  function NonPolygons(objs: seq<CanvasObject>): (rest: seq<CanvasObject>)
    ensures forall o :: o in rest ==> o in objs
    ensures forall i :: 0 <= i < |rest| ==> rest[i].kind == Other
  {
    if objs == [] then []
    else
      var init := objs[..|objs| - 1];
      var last := objs[|objs| - 1];
      NonPolygons(init) + (if last.kind == Other then [last] else [])
  }

  /** Splitting a canvas into its polygons and its other objects loses and
      duplicates nothing. */
  lemma {:induction false} PolygonsPartition(objs: seq<CanvasObject>)
    ensures multiset(Polygons(objs)) + multiset(NonPolygons(objs)) == multiset(objs)
  {
    if objs != [] {
      var init, last := objs[..|objs| - 1], objs[|objs| - 1];
      var ps, rest := Polygons(init), NonPolygons(init);
      assert multiset(ps) + multiset(rest) == multiset(init) by {
        PolygonsPartition(init);
      }
      assert multiset(objs) == multiset(init) + multiset{last} by {
        assert objs == init + [last];
      }
      if last.kind == Polygon {
        assert multiset(Polygons(objs)) == multiset(ps) + multiset{last} by {
          assert Polygons(objs) == ps + [last];
        }
        assert NonPolygons(objs) == rest;
      } else {
        assert Polygons(objs) == ps;
        assert multiset(NonPolygons(objs)) == multiset(rest) + multiset{last} by {
          assert NonPolygons(objs) == rest + [last];
        }
      }
    }
  }

  /** Every polygon is among the polygons and every other object among the
      other objects. */
  lemma PolygonsMembers(objs: seq<CanvasObject>)
    ensures forall o :: o in Polygons(objs) <==> o in objs && o.kind == Polygon
    ensures forall o :: o in NonPolygons(objs) <==> o in objs && o.kind == Other
  {
    PolygonsPartition(objs);
    forall o | o in objs
      ensures o in Polygons(objs) || o in NonPolygons(objs)
    {
      assert o in multiset(objs);
    }
  }

  /** The read-back has one zone per polygon. */
  lemma {:induction false} ZonesOfLength(objs: seq<CanvasObject>, absolute: Projection)
    ensures |ZonesOf(objs, absolute)| == |Polygons(objs)|
  {
    if objs != [] {
      ZonesOfLength(objs[..|objs| - 1], absolute);
    }
  }

  /** The serialised snapshot of an object: its local points and every
      attribute. */
  function Snapshot(o: CanvasObject): (f: FabricState)
  {
    FabricState(Some(o.points), o.attributes)
  }

  /** The zone an object stands for: its id and label, its absolute points and
      its snapshot. */
  function ZoneOf(o: CanvasObject, absolute: Projection): (z: CustomSurfaceZone)
  {
    CustomSurfaceZone(o.zoneId.GetOr(""), o.zoneLabel.GetOr(""), absolute(o.points, o.attributes), Snapshot(o))
  }

  /** What the read-back records for one object: the id and label it
      carries, its absolute points, and a snapshot holding its local points
      and every attribute. */
  lemma ZoneOfRecords(o: CanvasObject, absolute: Projection)
    ensures Tagged(o) ==> ZoneOf(o, absolute).id == o.zoneId.value && ZoneOf(o, absolute).zoneLabel == o.zoneLabel.value
    ensures ZoneOf(o, absolute).points == absolute(o.points, o.attributes)
    ensures ZoneOf(o, absolute).fabricState.points == Some(o.points)
    ensures ZoneOf(o, absolute).fabricState.attributes == o.attributes
  {
  }

  /** The zone list read back from the canvas: one zone per polygon, in canvas order. */
  function ZonesOf(objs: seq<CanvasObject>, absolute: Projection): (zs: seq<CustomSurfaceZone>)
  {
    if objs == [] then []
    else
      var init := objs[..|objs| - 1];
      var last := objs[|objs| - 1];
      ZonesOf(init, absolute) + (if last.kind == Polygon then [ZoneOf(last, absolute)] else [])
  }

  function Ids(zones: seq<CustomSurfaceZone>): (ids: seq<string>)
    ensures |ids| == |zones|
  {
    seq(|zones|, i requires 0 <= i < |zones| => zones[i].id)
  }

  function Labels(zones: seq<CustomSurfaceZone>): (labels: seq<string>)
    ensures |labels| == |zones|
  {
    seq(|zones|, i requires 0 <= i < |zones| => zones[i].zoneLabel)
  }

  /** Reading back a concatenation reads back each part. */
  lemma {:induction false} ZonesOfAppend(a: seq<CanvasObject>, b: seq<CanvasObject>, absolute: Projection)
    ensures ZonesOf(a + b, absolute) == ZonesOf(a, absolute) + ZonesOf(b, absolute)
  {
    if b == [] {
      assert a + b == a;
    } else {
      var b' := b[..|b| - 1];
      assert (a + b)[..|a + b| - 1] == a + b';
      ZonesOfAppend(a, b', absolute);
    }
  }

  /** The zone list has exactly one entry per polygon, in canvas order, and
      ignores every other object. */
  lemma {:induction false} ZonesOfPolygons(objs: seq<CanvasObject>, absolute: Projection)
    requires AllTagged(objs)
    ensures |ZonesOf(objs, absolute)| == |Polygons(objs)|
    ensures forall k :: 0 <= k < |Polygons(objs)| ==>
      Tagged(Polygons(objs)[k]) && ZonesOf(objs, absolute)[k] == ZoneOf(Polygons(objs)[k], absolute)
  {
    if objs != [] {
      var init := objs[..|objs| - 1];
      ZonesOfPolygons(init, absolute);
      forall k | 0 <= k < |Polygons(objs)| ensures Tagged(Polygons(objs)[k]) {
        var o := Polygons(objs)[k];
        assert o in objs;
        var i :| 0 <= i < |objs| && objs[i] == o;
      }
    }
  }

  /** Filling in one object during the read-back: a polygon without an id
      gets `zone-<counter>` and advances the counter; one without a label
      gets `Zone <counter - 1>`, whether or not its id was just assigned;
      every other object is left as it is. */
  function FillOne(o: CanvasObject, next: nat): (r: (CanvasObject, nat))
    requires next >= 1
    ensures r.0.kind == o.kind && r.0.points == o.points && r.0.attributes == o.attributes
    ensures o.kind == Polygon ==> Tagged(r.0)
    ensures (o.kind == Other || Tagged(o)) ==> r == (o, next)
    ensures o.zoneId.Some? ==> r.0.zoneId == o.zoneId && r.1 == next
    ensures o.zoneLabel.Some? ==> r.0.zoneLabel == o.zoneLabel
    ensures o.kind == Polygon && o.zoneId.None? ==> r.0.zoneId == Some(ZoneIdFor(next)) && r.1 == next + 1
    ensures o.kind == Polygon && o.zoneLabel.None? ==> r.0.zoneLabel == Some(LabelFor(r.1 - 1))
  {
    if o.kind == Other then (o, next)
    else
      var id := if o.zoneId.Some? then o.zoneId.value else ZoneIdFor(next);
      var c := if o.zoneId.Some? then next else next + 1;
      var lbl := if o.zoneLabel.Some? then o.zoneLabel.value else LabelFor(c - 1);
      (o.(zoneId := Some(id), zoneLabel := Some(lbl)), c)
  }

  /** Filling in a whole object list, left to right, threading the counter. */
  function Fill(objs: seq<CanvasObject>, next: nat): (r: (seq<CanvasObject>, nat))
    requires next >= 1
    ensures |r.0| == |objs| && r.1 >= next && AllTagged(r.0)
  {
    if objs == [] then ([], next)
    else
      var init := objs[..|objs| - 1];
      var p := Fill(init, next);
      var q := FillOne(objs[|objs| - 1], p.1);
      (p.0 + [q.0], q.1)
  }

  /** Object `i` of the filled list is object `i` filled in with the counter
      reached after the objects before it. */
  lemma {:induction false} FillAt(objs: seq<CanvasObject>, next: nat, i: nat)
    requires next >= 1 && i < |objs|
    ensures Fill(objs, next).0[i] == FillOne(objs[i], Fill(objs[..i], next).1).0
    ensures Fill(objs[..i], next).1 <= FillOne(objs[i], Fill(objs[..i], next).1).1 <= Fill(objs, next).1
  {
    var init := objs[..|objs| - 1];
    if i < |objs| - 1 {
      assert init[..i] == objs[..i];
      FillAt(init, next, i);
      FillMonotone(objs, next, |objs| - 1);
    } else {
      assert init == objs[..i];
    }
  }

  /** The counter only grows along the list. */
  lemma {:induction false} FillMonotone(objs: seq<CanvasObject>, next: nat, i: nat)
    requires next >= 1 && i <= |objs|
    ensures Fill(objs[..i], next).1 <= Fill(objs, next).1
  {
    if i < |objs| {
      var init := objs[..|objs| - 1];
      assert init[..i] == objs[..i];
      FillMonotone(init, next, i);
    } else {
      assert objs[..i] == objs;
    }
  }

  /** What the read-back does to the canvas objects: it keeps their number,
      kinds, points and attributes, leaves non-polygons and complete polygons
      untouched, keeps every id and label already present, and gives each
      id-less polygon an id rendered from a counter value in the range it
      consumed. */
  lemma FillSpec(objs: seq<CanvasObject>, next: nat, i: nat)
    requires next >= 1 && i < |objs|
    ensures Fill(objs, next).0[i].kind == objs[i].kind
    ensures Fill(objs, next).0[i].points == objs[i].points
    ensures Fill(objs, next).0[i].attributes == objs[i].attributes
    ensures objs[i].kind == Other || Tagged(objs[i]) ==> Fill(objs, next).0[i] == objs[i]
    ensures objs[i].zoneId.Some? ==> Fill(objs, next).0[i].zoneId == objs[i].zoneId
    ensures objs[i].zoneLabel.Some? ==> Fill(objs, next).0[i].zoneLabel == objs[i].zoneLabel
    ensures objs[i].kind == Polygon && objs[i].zoneId.None? ==>
      exists n :: next <= n < Fill(objs, next).1 && Fill(objs, next).0[i].zoneId == Some(ZoneIdFor(n))
  {
    FillAt(objs, next, i);
    var c := Fill(objs[..i], next).1;
    if objs[i].kind == Polygon && objs[i].zoneId.None? {
      assert next <= c < Fill(objs, next).1 && Fill(objs, next).0[i].zoneId == Some(ZoneIdFor(c));
    }
  }

  /** On a list whose polygons all carry ids and labels, the read-back changes nothing. */
  lemma {:induction false} FillTagged(objs: seq<CanvasObject>, next: nat)
    requires next >= 1 && AllTagged(objs)
    ensures Fill(objs, next) == (objs, next)
  {
    if objs != [] {
      var init := objs[..|objs| - 1];
      FillTagged(init, next);
      assert objs == init + [objs[|objs| - 1]];
    }
  }

  /** The numeric suffixes of the ids that have one (the map and filter of
      `updateNextZoneIndexFromZones`). */
  function SuffixIndices(ids: seq<string>): (ks: seq<nat>)
    ensures |ks| <= |ids|
  {
    if ids == [] then []
    else
      var init := ids[..|ids| - 1];
      var last := ids[|ids| - 1];
      match SuffixIndex(last)
      case Some(k) => SuffixIndices(init) + [k]
      case None => SuffixIndices(init)
  }

  /** A number is among the suffixes exactly when some id ends in it. */
  lemma {:induction false} SuffixIndicesMembers(ids: seq<string>)
    ensures forall k :: k in SuffixIndices(ids) <==> exists i :: 0 <= i < |ids| && SuffixIndex(ids[i]) == Some(k)
  {
    if ids != [] {
      var init := ids[..|ids| - 1];
      SuffixIndicesMembers(init);
      assert forall i :: 0 <= i < |init| ==> init[i] == ids[i];
    }
  }

  function MaxOf(s: seq<nat>): (m: nat)
    requires |s| > 0
    ensures m in s && forall x :: x in s ==> x <= m
  {
    if |s| == 1 then s[0]
    else
      var m := MaxOf(s[1..]);
      assert forall x :: x in s ==> x == s[0] || x in s[1..];
      if s[0] > m then s[0] else m
  }

  /** The canvas objects, the zone list and the counter agree: every
      polygon is tagged, the list is the read-back and the counter lies
      above every numeric id suffix. */
  ghost predicate ReadBackAgrees(objects: seq<CanvasObject>, zones: seq<CustomSurfaceZone>, next: nat, absolute: Projection)
  {
    AllTagged(objects) && zones == ZonesOf(objects, absolute) && SuffixesBelow(Ids(zones), next)
  }

  /** Every numeric id suffix is below `n`. */
  ghost predicate SuffixesBelow(ids: seq<string>, n: nat)
  {
    forall i :: 0 <= i < |ids| && SuffixIndex(ids[i]).Some? ==> SuffixIndex(ids[i]).value < n
  }

  /** The counter recomputed from the current ids: one past the largest
      numeric suffix when there is one, 1 for an empty list, and unchanged
      when ids exist but none ends in digits. */
  function RecomputedIndex(ids: seq<string>, current: nat): (r: nat)
    ensures |ids| == 0 ==> r == 1
    ensures current >= 1 ==> r >= 1
  {
    var ks := SuffixIndices(ids);
    if |ks| > 0 then MaxOf(ks) + 1
    else if |ids| == 0 then 1
    else current
  }

  /** The recomputed counter lies above every numeric id suffix. */
  lemma RecomputedIndexAbove(ids: seq<string>, current: nat)
    ensures SuffixesBelow(ids, RecomputedIndex(ids, current))
  {
    forall i | 0 <= i < |ids| && SuffixIndex(ids[i]).Some?
      ensures SuffixIndex(ids[i]).value < RecomputedIndex(ids, current)
    {
      SuffixInIndices(ids, i);
    }
  }

  /** The numeric suffix of any id is among the suffixes. */
  lemma {:induction false} SuffixInIndices(ids: seq<string>, i: nat)
    requires i < |ids| && SuffixIndex(ids[i]).Some?
    ensures SuffixIndex(ids[i]).value in SuffixIndices(ids)
  {
    var init := ids[..|ids| - 1];
    if i < |ids| - 1 {
      assert init[i] == ids[i];
      SuffixInIndices(init, i);
    }
  }


  /** The three cases of the recomputed counter: with some numeric suffix it
      is one past some suffix (so past the largest), and it keeps the
      current value when ids exist but none ends in digits. */
  lemma RecomputedIndexCases(ids: seq<string>, current: nat)
    ensures (exists i :: 0 <= i < |ids| && SuffixIndex(ids[i]).Some?) ==>
      exists i :: 0 <= i < |ids| && SuffixIndex(ids[i]) == Some(RecomputedIndex(ids, current) - 1)
    ensures ids != [] && (forall i :: 0 <= i < |ids| ==> SuffixIndex(ids[i]).None?) ==>
      RecomputedIndex(ids, current) == current
  {
    SuffixIndicesMembers(ids);
    var ks := SuffixIndices(ids);
    if |ks| > 0 {
      var m := MaxOf(ks);
      assert m in ks;
    } else {
      assert forall i :: 0 <= i < |ids| ==> SuffixIndex(ids[i]).None? by {
        forall i | 0 <= i < |ids| ensures SuffixIndex(ids[i]).None? {
          match SuffixIndex(ids[i])
          case None =>
          case Some(k) => assert false;
        }
      }
    }
  }

  /** Recomputing twice from the same ids changes nothing. */
  lemma RecomputedIndexIdempotent(ids: seq<string>, current: nat, n: nat)
    requires n == RecomputedIndex(ids, current)
    ensures RecomputedIndex(ids, n) == n
  {
  }

  /** A canvas that agrees with its zone list stays tagged when the new
      rectangle for counter value `n` is added. */
  lemma AddedTagged(objs: seq<CanvasObject>, n: nat)
    requires AllTagged(objs)
    ensures AllTagged(objs + [NewPolygon(n)])
  {
    var objs' := objs + [NewPolygon(n)];
    assert forall i :: 0 <= i < |objs| ==> objs'[i] == objs[i];
  }

  /** Reading back a canvas that agreed with its zone list after the new
      rectangle for counter value `n` was added: the list gains exactly the
      new zone, whose id was fresh, and the recomputed counter `next` is
      `n + 1`. */
  lemma AddedZone(objs: seq<CanvasObject>, zones: seq<CustomSurfaceZone>, n: nat, absolute: Projection,
                  zs: seq<CustomSurfaceZone>, next: nat)
    requires ReadBackAgrees(objs, zones, n, absolute)
    requires zs == ZonesOf(objs + [NewPolygon(n)], absolute)
    requires next == RecomputedIndex(Ids(zs), n + 1)
    ensures zs == zones + [ZoneOf(NewPolygon(n), absolute)]
    ensures ZoneIdFor(n) !in Ids(zones) && ZoneIdFor(n) in Ids(zs)
    ensures next == n + 1
  {
    var p := NewPolygon(n);
    assert (objs + [p])[..|objs|] == objs;
    IdsAppend(zones, [ZoneOf(p, absolute)]);
    assert Ids([ZoneOf(p, absolute)]) == [ZoneIdFor(n)];
    AppendFreshId(Ids(zones), n, n + 1);
  }

  /** Taking one object off a canvas keeps every remaining polygon tagged. */
  lemma RemovedKeepsTagged(objs: seq<CanvasObject>, k: nat)
    requires AllTagged(objs) && k < |objs|
    ensures AllTagged(objs[..k] + objs[k + 1..])
  {
    var rest := objs[..k] + objs[k + 1..];
    forall i | 0 <= i < |rest| && rest[i].kind == Polygon ensures Tagged(rest[i]) {
      assert rest[i] == objs[if i < k then i else i + 1];
    }
  }

  /** Appending the id rendered from a counter that exceeds every suffix
      gives a fresh id and moves the counter one past it. */
  lemma AppendFreshId(ids: seq<string>, n: nat, current: nat)
    requires SuffixesBelow(ids, n)
    ensures ZoneIdFor(n) !in ids
    ensures RecomputedIndex(ids + [ZoneIdFor(n)], current) == n + 1
  {
    ZoneIdSuffix(n);
    var ids' := ids + [ZoneIdFor(n)];
    RecomputedIndexAbove(ids', current);
    assert SuffixIndex(ids'[|ids|]) == Some(n);
    var ks := SuffixIndices(ids');
    SuffixIndicesMembers(ids');
    assert n in ks;
    var m := MaxOf(ks);
    assert forall i :: 0 <= i < |ids| ==> ids'[i] == ids[i];
  }

  /** Ids can come back: once the zone with the highest suffix is gone the
      counter falls back and the next zone reuses that id. */
  lemma DeletedIdIsReused(n: nat, current: nat)
    ensures RecomputedIndex([ZoneIdFor(n), ZoneIdFor(n + 1)], current) == n + 2
    ensures RecomputedIndex([ZoneIdFor(n)], current) == n + 1
  {
    ZoneIdSuffix(n);
    ZoneIdSuffix(n + 1);
    RecomputedFromTwo(ZoneIdFor(n), ZoneIdFor(n + 1), current);
  }

  /** The counter recomputed from two ids with increasing numeric suffixes,
      and from the first of them alone. */
  lemma RecomputedFromTwo(a: string, b: string, current: nat)
    requires SuffixIndex(a).Some? && SuffixIndex(b).Some?
    requires SuffixIndex(a).value < SuffixIndex(b).value
    ensures RecomputedIndex([a, b], current) == SuffixIndex(b).value + 1
    ensures RecomputedIndex([a], current) == SuffixIndex(a).value + 1
  {
    var x, y := SuffixIndex(a).value, SuffixIndex(b).value;
    assert SuffixIndices([a]) == [x] by {
      assert [a][..0] == [];
    }
    assert SuffixIndices([a, b]) == [x, y] by {
      assert [a, b][..1] == [a];
    }
    assert MaxOf([x, y]) == y by {
      assert [x, y][1..] == [y];
    }
  }

  /** A stale selection (a truthy id that names no zone) is dropped. */
  function Pruned(selected: Option<string>, ids: seq<string>): (r: Option<string>)
    ensures Truthy(r) ==> r.value in ids
    ensures r == selected || r == None
    ensures Truthy(selected) && selected.value in ids ==> r == selected
    ensures !Truthy(selected) ==> r == selected
  {
    if Truthy(selected) && selected.value !in ids then None else selected
  }

  /** The selection once the drawing library has taken `removed` off the
      canvas: removing the active object, the polygon tagged with the
      selected id, raises the selection-cleared event, which drops the
      selection; removing anything else keeps it. */
  function Deselected(selected: Option<string>, removed: seq<CanvasObject>): (r: Option<string>)
    ensures r == None || r == selected
    ensures r.Some? <==> selected.Some? && forall k :: 0 <= k < |removed| ==> removed[k].zoneId != selected
  {
    if selected.Some? && FindByZoneId(removed, selected.value).Some? then None else selected
  }

  /** The selection a canvas selection event leads to: the first selected
      object's zone id, or none when there is no such object or its id is
      absent or empty. */
  function SelectionFrom(selected: seq<CanvasObject>): (r: Option<string>)
    ensures r.Some? ==> |selected| > 0 && r == selected[0].zoneId && r.value != ""
    ensures r.None? <==> |selected| == 0 || !Truthy(selected[0].zoneId)
  {
    if |selected| > 0 && Truthy(selected[0].zoneId) then selected[0].zoneId else None
  }

  /** The position of the first object carrying the given zone id. */
  function FindByZoneId(objs: seq<CanvasObject>, id: string): (r: Option<nat>)
    ensures r.None? <==> forall k :: 0 <= k < |objs| ==> objs[k].zoneId != Some(id)
    ensures r.Some? ==> r.value < |objs| && objs[r.value].zoneId == Some(id) &&
                        forall k :: 0 <= k < r.value ==> objs[k].zoneId != Some(id)
  {
    if objs == [] then None
    else if objs[0].zoneId == Some(id) then Some(0)
    else
      match FindByZoneId(objs[1..], id)
      case None => None
      case Some(k) => Some(k + 1)
  }

  /** Each attribute a snapshot records is used, each one it lacks takes its default. */
  function RestoredAttributes(recorded: map<string, string>): (a: map<string, string>)
    ensures a.Keys == RestoreDefaults.Keys
    ensures forall k :: k in a && k in recorded ==> a[k] == recorded[k]
    ensures forall k :: k in a && k !in recorded ==> a[k] == RestoreDefaults[k]
  {
    map k | k in RestoreDefaults :: if k in recorded then recorded[k] else RestoreDefaults[k]
  }

  /** The polygon rebuilt from a stored zone: its id and label, the local points
      of its snapshot (or, when the snapshot has none, the zone's points) and
      the restored attributes. */
  function RestoredObject(z: CustomSurfaceZone): (o: CanvasObject)
    ensures o.kind == Polygon && Tagged(o) && o.zoneId == Some(z.id) && o.zoneLabel == Some(z.zoneLabel)
  {
    CanvasObject(Polygon, Some(z.id), Some(z.zoneLabel), z.fabricState.points.GetOr(z.points),
                 RestoredAttributes(z.fabricState.attributes))
  }

  function RestoredAll(zones: seq<CustomSurfaceZone>): (objs: seq<CanvasObject>)
    ensures |objs| == |zones| && forall i :: 0 <= i < |zones| ==> objs[i] == RestoredObject(zones[i])
  {
    seq(|zones|, i requires 0 <= i < |zones| => RestoredObject(zones[i]))
  }

  /** A list without polygons yields no zones. */
  lemma {:induction false} ZonesOfNoPolygons(objs: seq<CanvasObject>, absolute: Projection)
    requires forall i :: 0 <= i < |objs| ==> objs[i].kind == Other
    ensures AllTagged(objs) && ZonesOf(objs, absolute) == []
  {
    if objs != [] {
      ZonesOfNoPolygons(objs[..|objs| - 1], absolute);
    }
  }

  /** Reading back freshly restored polygons gives, zone by zone, the stored
      ids and labels. */
  lemma {:induction false} ZonesOfRestored(zones: seq<CustomSurfaceZone>, absolute: Projection)
    ensures AllTagged(RestoredAll(zones))
    ensures Ids(ZonesOf(RestoredAll(zones), absolute)) == Ids(zones)
    ensures Labels(ZonesOf(RestoredAll(zones), absolute)) == Labels(zones)
  {
    if zones != [] {
      var init := zones[..|zones| - 1];
      var last := zones[|zones| - 1];
      ZonesOfRestored(init, absolute);
      var objs := RestoredAll(zones);
      assert objs[..|zones| - 1] == RestoredAll(init);
      var zs := ZonesOf(objs, absolute);
      assert zs == ZonesOf(RestoredAll(init), absolute) + [ZoneOf(RestoredObject(last), absolute)];
      IdsAppend(ZonesOf(RestoredAll(init), absolute), [ZoneOf(RestoredObject(last), absolute)]);
      IdsAppend(init, [last]);
      assert zones == init + [last];
    }
  }

  lemma IdsAppend(a: seq<CustomSurfaceZone>, b: seq<CustomSurfaceZone>)
    ensures Ids(a + b) == Ids(a) + Ids(b)
    ensures Labels(a + b) == Labels(a) + Labels(b)
  {
  }

  /** After a restore, the canvas holds the other objects followed by one
      polygon per stored zone, and reading it back yields the stored ids and
      labels, in order. */
  lemma RestoredZoneIds(others: seq<CanvasObject>, zones: seq<CustomSurfaceZone>, absolute: Projection)
    ensures AllTagged(NonPolygons(others) + RestoredAll(zones))
    ensures Ids(ZonesOf(NonPolygons(others) + RestoredAll(zones), absolute)) == Ids(zones)
    ensures Labels(ZonesOf(NonPolygons(others) + RestoredAll(zones), absolute)) == Labels(zones)
  {
    var kept := NonPolygons(others);
    var restored := RestoredAll(zones);
    ZonesOfNoPolygons(kept, absolute);
    ZonesOfRestored(zones, absolute);
    ZonesOfAppend(kept, restored, absolute);
    assert AllTagged(kept + restored) by {
      forall i | 0 <= i < |kept + restored| && (kept + restored)[i].kind == Polygon
        ensures Tagged((kept + restored)[i])
      {
        if i >= |kept| {
          assert (kept + restored)[i] == restored[i - |kept|];
        }
      }
    }
    assert [] + ZonesOf(restored, absolute) == ZonesOf(restored, absolute);
    assert ZonesOf(kept + restored, absolute) == ZonesOf(restored, absolute);
  }

  /** An object whose attributes are exactly the ones a restore reads. */
  predicate Restorable(o: CanvasObject)
  {
    o.kind == Polygon && Tagged(o) && o.attributes.Keys == RestoreDefaults.Keys
  }

  /** Restoring the zone an object produced rebuilds that very object. */
  lemma RestoreRoundTrip(o: CanvasObject, absolute: Projection)
    requires Restorable(o)
    ensures RestoredObject(ZoneOf(o, absolute)) == o
  {
    var a := RestoredAttributes(o.attributes);
    assert a == o.attributes;
  }

  /** Restoring an emitted zone list and reading the canvas back yields the
      same list: same ids, labels, absolute points and snapshots. */
  lemma {:induction false} ZoneListRoundTrip(objs: seq<CanvasObject>, absolute: Projection)
    requires AllTagged(objs) && forall i :: 0 <= i < |objs| ==> Restorable(objs[i])
    ensures AllTagged(RestoredAll(ZonesOf(objs, absolute)))
    ensures RestoredAll(ZonesOf(objs, absolute)) == objs
    ensures ZonesOf(RestoredAll(ZonesOf(objs, absolute)), absolute) == ZonesOf(objs, absolute)
  {
    if objs != [] {
      var init := objs[..|objs| - 1];
      var last := objs[|objs| - 1];
      ZoneListRoundTrip(init, absolute);
      RestoreRoundTrip(last, absolute);
      var zs := ZonesOf(objs, absolute);
      assert zs == ZonesOf(init, absolute) + [ZoneOf(last, absolute)];
      assert RestoredAll(zs) == RestoredAll(ZonesOf(init, absolute)) + [last];
    }
  }

  /** Reading back a list in which the object at `k` is replaced by one of
      the same kind and zone id: the ids are unchanged; a polygon's zone,
      at its position among the zones, is the only entry that changes;
      replacing any other object changes nothing. */
  lemma ZonesOfUpdate(objs: seq<CanvasObject>, k: nat, o: CanvasObject, absolute: Projection)
    requires k < |objs| && o.kind == objs[k].kind && o.zoneId == objs[k].zoneId
    ensures Ids(ZonesOf(objs[k := o], absolute)) == Ids(ZonesOf(objs, absolute))
    ensures o.kind == Polygon ==>
      ZonesOf(objs[k := o], absolute) == ZonesOf(objs, absolute)[ZonePosition(objs, k, absolute) := ZoneOf(o, absolute)]
    ensures o.kind == Other ==> ZonesOf(objs[k := o], absolute) == ZonesOf(objs, absolute)
  {
    var objs' := objs[k := o];
    assert objs'[..k] == objs[..k] && objs'[k + 1..] == objs[k + 1..];
    assert objs'[k] == o;
    ZonesOfRemove(objs, k, absolute);
    ZonesOfRemove(objs', k, absolute);
    var zs, zs' := ZonesOf(objs, absolute), ZonesOf(objs', absolute);
    var a, b := ZonesOf(objs[..k], absolute), ZonesOf(objs[k + 1..], absolute);
    var x, x' := ZonesOf([objs[k]], absolute), ZonesOf([o], absolute);
    assert zs == a + x + b;
    assert zs' == a + x' + b;
    SpliceIds(a, x, x', b);
    if o.kind == Polygon {
      var z, z' := ZoneOf(objs[k], absolute), ZoneOf(o, absolute);
      assert ZonePosition(objs, k, absolute) == |a|;
      assert x == [z] && x' == [z'];
      SpliceAt(a, z, z', b);
    } else {
      assert x == [] && x' == [];
    }
  }

  /** The position, in the read-back zone list, of the zone of polygon `k`:
      the number of polygons before it. */
  function ZonePosition(objs: seq<CanvasObject>, k: nat, absolute: Projection): (j: nat)
    requires k < |objs| && objs[k].kind == Polygon
    ensures j < |ZonesOf(objs, absolute)| && ZonesOf(objs, absolute)[j] == ZoneOf(objs[k], absolute)
  {
    ZonesOfRemove(objs, k, absolute);
    |ZonesOf(objs[..k], absolute)|
  }

  lemma SpliceIds(a: seq<CustomSurfaceZone>, x: seq<CustomSurfaceZone>, x': seq<CustomSurfaceZone>, b: seq<CustomSurfaceZone>)
    requires Ids(x) == Ids(x')
    ensures Ids(a + x' + b) == Ids(a + x + b)
  {
    IdsAppend(a, x);
    IdsAppend(a, x');
    IdsAppend(a + x, b);
    IdsAppend(a + x', b);
  }

  /** Removing the object at `k` removes its zone, if it is a polygon, and
      no other: the zones before and after it stay, in order. */
  lemma ZonesOfRemove(objs: seq<CanvasObject>, k: nat, absolute: Projection)
    requires k < |objs|
    ensures ZonesOf(objs, absolute) ==
      ZonesOf(objs[..k], absolute) + ZonesOf([objs[k]], absolute) + ZonesOf(objs[k + 1..], absolute)
    ensures ZonesOf(objs[..k] + objs[k + 1..], absolute) ==
      ZonesOf(objs[..k], absolute) + ZonesOf(objs[k + 1..], absolute)
    ensures ZonesOf([objs[k]], absolute) == if objs[k].kind == Polygon then [ZoneOf(objs[k], absolute)] else []
  {
    var pre, x, post := objs[..k], [objs[k]], objs[k + 1..];
    assert ZonesOf(objs, absolute) == ZonesOf(pre, absolute) + ZonesOf(x, absolute) + ZonesOf(post, absolute) by {
      SplitAt(objs, k);
      ZonesOfAppend(pre + x, post, absolute);
      ZonesOfAppend(pre, x, absolute);
    }
    ZonesOfAppend(pre, post, absolute);
    ZonesOfSingle(objs[k], absolute);
  }

  /** Writing `z'` over the element between `a` and `b`. */
  lemma SpliceAt<T>(a: seq<T>, z: T, z': T, b: seq<T>)
    ensures a + [z'] + b == (a + [z] + b)[|a| := z']
  {
  }

  /** A sequence around its element at `k`. */
  lemma SplitAt<T>(s: seq<T>, k: nat)
    requires k < |s|
    ensures s == s[..k] + [s[k]] + s[k + 1..]
  {
  }

  /** The read-back of a canvas holding one object. */
  lemma ZonesOfSingle(o: CanvasObject, absolute: Projection)
    ensures ZonesOf([o], absolute) == if o.kind == Polygon then [ZoneOf(o, absolute)] else []
  {
    assert [o][..0] == [];
  }
}
