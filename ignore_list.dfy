/**
 * `IgnoreList`: the points of camera frames where the user asked that a class no longer be
 * reported, the filter that drops detections covering such a point or too small to matter, and the
 * ignore file the points are kept in. The JSON layer is abstract: a stored file is the decoded list
 * of dictionaries, each value an integer or a float number.
 */
module IgnoreListing {
  import opened Wrappers
  import opened Text
  import opened Common
  import opened Interface
  import opened Utility
  import opened Lists

  // ---------------------------------------------------------------------------------------------
  // The filter
  // ---------------------------------------------------------------------------------------------

  /** A detection box as fractions of the frame: `[minX, maxX] × [minY, maxY]`. */
  datatype Region = Region(minX: real, minY: real, maxX: real, maxY: real)

  /** The box `(x1, y1, x2, y2)` divided by the frame size. */
  function Normalised(box: seq<real>, frameSize: Point2D): (r: Region)
    requires |box| == 4 && frameSize.x != 0.0 && frameSize.y != 0.0
    ensures r.minX * frameSize.x == box[0] && r.maxX * frameSize.x == box[2]
    ensures r.minY * frameSize.y == box[1] && r.maxY * frameSize.y == box[3]
  {
    Region(box[0] / frameSize.x, box[1] / frameSize.y, box[2] / frameSize.x, box[3] / frameSize.y)
  }

  /** The point ignores this class on this camera and lies in the closed region. */
  predicate Covers(p: IgnorePoint, cocoClassId: int, camId: int, region: Region)
    ensures Covers(p, cocoClassId, camId, region) ==> region.minX <= region.maxX && region.minY <= region.maxY
  {
    && p.cocoClassId == cocoClassId
    && p.camId == camId
    && region.minX <= p.at.x <= region.maxX
    && region.minY <= p.at.y <= region.maxY
  }

  /** Whether one of the points, searched in order, covers the detection. */
  function AnyCovers(points: seq<IgnorePoint>, cocoClassId: int, camId: int, region: Region): (found: bool)
    ensures found <==> exists i :: 0 <= i < |points| && Covers(points[i], cocoClassId, camId, region)
  {
    if points == [] then false
    else if Covers(points[0], cocoClassId, camId, region) then true
    else
      var found := AnyCovers(points[1..], cocoClassId, camId, region);
      assert forall i :: 1 <= i < |points| ==> points[i] == points[1..][i - 1];
      found
  }

  /**
   * `_is_ignored`: unpacking the box needs exactly four coordinates (ValueError otherwise), and the
   * division by the frame size fails on a zero side; then the answer is whether a point covers it.
   */
  function IgnoredBy(points: seq<IgnorePoint>, cocoClassId: int, camId: int, box: seq<real>, frameSize: Point2D): (r: Result<bool>)
    ensures r.Ok? <==> |box| == 4 && frameSize.x != 0.0 && frameSize.y != 0.0
    ensures |box| != 4 ==> r.Err? && r.error.ValueError?
    ensures |box| == 4 && (frameSize.x == 0.0 || frameSize.y == 0.0) ==> r == Err(OtherException("ZeroDivisionError"))
    ensures r.Ok? ==> (r.value <==> exists i :: 0 <= i < |points| && Covers(points[i], cocoClassId, camId, Normalised(box, frameSize)))
  {
    if |box| > 4 then Err(ValueError("too many values to unpack (expected 4)"))
    else if |box| < 4 then Err(ValueError("not enough values to unpack (expected 4, got " + NatToString(|box|) + ")"))
    else if frameSize.x == 0.0 || frameSize.y == 0.0 then Err(OtherException("ZeroDivisionError"))
    else Ok(AnyCovers(points, cocoClassId, camId, Normalised(box, frameSize)))
  }

  /** The box area `(x2 - x1) * (y2 - y1)`. */
  function Area(box: seq<real>): (a: real)
    requires |box| >= 4
    ensures box[0] <= box[2] && box[1] <= box[3] ==> a >= 0.0
    ensures (box[0] == box[2] || box[1] == box[3]) ==> a == 0.0
  {
    (box[2] - box[0]) * (box[3] - box[1])
  }

  /**
   * Whether the filter keeps one detection: reading the corners fails on fewer than four; a box
   * smaller than the minimum is dropped without asking the ignore points.
   */
  function KeepDecision(points: seq<IgnorePoint>, minimumArea: int, camId: int, frameSize: Point2D, d: SvDetection): (r: Result<bool>)
    ensures |d.xyxyCoords| < 4 ==> r == Err(IndexError)
    ensures r == Ok(true) <==>
              |d.xyxyCoords| >= 4 && Area(d.xyxyCoords) >= minimumArea as real
              && IgnoredBy(points, d.cocoClassId, camId, d.xyxyCoords, frameSize) == Ok(false)
    ensures |d.xyxyCoords| >= 4 && Area(d.xyxyCoords) < minimumArea as real ==> r == Ok(false)
    ensures |d.xyxyCoords| >= 4 && Area(d.xyxyCoords) >= minimumArea as real
            && IgnoredBy(points, d.cocoClassId, camId, d.xyxyCoords, frameSize).Err? ==>
              r == Err(IgnoredBy(points, d.cocoClassId, camId, d.xyxyCoords, frameSize).error)
  {
    if |d.xyxyCoords| < 4 then Err(IndexError)
    else if Area(d.xyxyCoords) < minimumArea as real then Ok(false)
    else
      match IgnoredBy(points, d.cocoClassId, camId, d.xyxyCoords, frameSize)
      case Err(e) => Err(e)
      case Ok(ignored) => Ok(!ignored)
  }

  /** The indices `filter_ignored` collects; the first detection whose decision raises ends it. */
  function FilterIndices(points: seq<IgnorePoint>, minimumArea: int, camId: int, frameSize: Point2D, ds: seq<SvDetection>)
    : (r: Result<seq<int>>)
  {
    if ds == [] then Ok([])
    else
      var n := |ds| - 1;
      match FilterIndices(points, minimumArea, camId, frameSize, ds[..n])
      case Err(e) => Err(e)
      case Ok(front) =>
        match KeepDecision(points, minimumArea, camId, frameSize, ds[n])
        case Err(e) => Err(e)
        case Ok(keep) => Ok(if keep then front + [n] else front)
  }

  /**
   * It keeps exactly the detections whose decision is to keep, as increasing positions, and it
   * succeeds exactly when no decision raises.
   */
  lemma {:induction false} FilterIndicesExactly(
    points: seq<IgnorePoint>, minimumArea: int, camId: int, frameSize: Point2D, ds: seq<SvDetection>)
    ensures var r := FilterIndices(points, minimumArea, camId, frameSize, ds);
            r.Ok? <==> forall i :: 0 <= i < |ds| ==> KeepDecision(points, minimumArea, camId, frameSize, ds[i]).Ok?
    ensures var r := FilterIndices(points, minimumArea, camId, frameSize, ds);
            r.Ok? ==> && IndicesWithin(r.value, |ds|) && StrictlyIncreasing(r.value)
                      && forall i :: 0 <= i < |ds| ==> (i in r.value <==> KeepDecision(points, minimumArea, camId, frameSize, ds[i]) == Ok(true))
  {
    if ds != [] {
      var n := |ds| - 1;
      FilterIndicesExactly(points, minimumArea, camId, frameSize, ds[..n]);
      assert forall i :: 0 <= i < n ==> ds[..n][i] == ds[i];
    }
  }

  /** Every collected index is a position of the input. */
  lemma {:induction false} FilterIndicesWithin(
    points: seq<IgnorePoint>, minimumArea: int, camId: int, frameSize: Point2D, ds: seq<SvDetection>)
    ensures var r := FilterIndices(points, minimumArea, camId, frameSize, ds);
            r.Ok? ==> |r.value| <= |ds| && IndicesWithin(r.value, |ds|)
  {
    if ds != [] {
      FilterIndicesWithin(points, minimumArea, camId, frameSize, ds[..|ds| - 1]);
    }
  }

  /** One more detection: the filter of the longer prefix follows from that detection's decision. */
  lemma FilterIndicesNext(
    points: seq<IgnorePoint>, minimumArea: int, camId: int, frameSize: Point2D, ds: seq<SvDetection>, i: nat, front: seq<int>)
    requires i < |ds| && FilterIndices(points, minimumArea, camId, frameSize, ds[..i]) == Ok(front)
    ensures FilterIndices(points, minimumArea, camId, frameSize, ds[..i + 1]) ==
            match KeepDecision(points, minimumArea, camId, frameSize, ds[i])
            case Err(e) => Err(e)
            case Ok(keep) => Ok(if keep then front + [i] else front)
  {
    assert ds[..i + 1][..i] == ds[..i];
  }

  /** Once a prefix raises, so does the whole filter, with the same exception. */
  lemma {:induction false} FilterIndicesFailsFromPrefix(
    points: seq<IgnorePoint>, minimumArea: int, camId: int, frameSize: Point2D, ds: seq<SvDetection>, k: nat)
    requires k <= |ds| && FilterIndices(points, minimumArea, camId, frameSize, ds[..k]).Err?
    ensures FilterIndices(points, minimumArea, camId, frameSize, ds) == FilterIndices(points, minimumArea, camId, frameSize, ds[..k])
    decreases |ds| - k
  {
    if k < |ds| {
      var n := |ds| - 1;
      if k < n {
        assert ds[..n][..k] == ds[..k];
        FilterIndicesFailsFromPrefix(points, minimumArea, camId, frameSize, ds[..n], k);
      }
    } else {
      assert ds[..k] == ds;
    }
  }

  /** A sequence every one of whose detections is kept passes unchanged. */
  lemma {:induction false} FilterIndicesAllKept(
    points: seq<IgnorePoint>, minimumArea: int, camId: int, frameSize: Point2D, ds: seq<SvDetection>)
    requires forall i :: 0 <= i < |ds| ==> KeepDecision(points, minimumArea, camId, frameSize, ds[i]) == Ok(true)
    ensures FilterIndices(points, minimumArea, camId, frameSize, ds) == Ok(Range(|ds|))
  {
    if ds != [] {
      var n := |ds| - 1;
      assert forall i :: 0 <= i < n ==> ds[..n][i] == ds[i];
      FilterIndicesAllKept(points, minimumArea, camId, frameSize, ds[..n]);
      assert Range(n) + [n] == Range(|ds|);
    }
  }

  /** `filter_ignored` as a value: the selected detections, or what was raised. */
  function FilterDetections(points: seq<IgnorePoint>, minimumArea: int, camId: int, frameSize: Point2D, raws: seq<RawDetection>): (r: Result<seq<RawDetection>>)
    ensures r.Ok? <==> FilterIndices(points, minimumArea, camId, frameSize, ListFromSvDetections(raws)).Ok?
  {
    var svs := ListFromSvDetections(raws);
    match FilterIndices(points, minimumArea, camId, frameSize, svs)
    case Err(e) => Err(e)
    case Ok(idx) =>
      FilterIndicesExactly(points, minimumArea, camId, frameSize, svs);
      Ok(Select(raws, idx))
  }

  /**
   * The filtered detections are the input with some removed, in the original order: a detection
   * survives exactly when its area is at least the minimum and no point ignores it.
   */
  lemma FilterDetectionsKeepsExactly(
    points: seq<IgnorePoint>, minimumArea: int, camId: int, frameSize: Point2D, raws: seq<RawDetection>)
    requires FilterDetections(points, minimumArea, camId, frameSize, raws).Ok?
    ensures var svs := ListFromSvDetections(raws);
            var idx := FilterIndices(points, minimumArea, camId, frameSize, svs).value;
            && IndicesWithin(idx, |raws|) && StrictlyIncreasing(idx)
            && FilterDetections(points, minimumArea, camId, frameSize, raws).value == Select(raws, idx)
            && forall i :: 0 <= i < |raws| ==>
                 (i in idx <==> |svs[i].xyxyCoords| >= 4 && Area(svs[i].xyxyCoords) >= minimumArea as real
                                && IgnoredBy(points, svs[i].cocoClassId, camId, svs[i].xyxyCoords, frameSize) == Ok(false))
  {
    FilterIndicesExactly(points, minimumArea, camId, frameSize, ListFromSvDetections(raws));
  }

  /** Filtering what a filter kept keeps all of it: applying the filter twice is applying it once. */
  lemma FilterDetectionsIdempotent(
    points: seq<IgnorePoint>, minimumArea: int, camId: int, frameSize: Point2D, raws: seq<RawDetection>)
    requires FilterDetections(points, minimumArea, camId, frameSize, raws).Ok?
    ensures var kept := FilterDetections(points, minimumArea, camId, frameSize, raws).value;
            FilterDetections(points, minimumArea, camId, frameSize, kept) == Ok(kept)
  {
    var svs := ListFromSvDetections(raws);
    FilterIndicesExactly(points, minimumArea, camId, frameSize, svs);
    var idx := FilterIndices(points, minimumArea, camId, frameSize, svs).value;
    var kept := Select(raws, idx);
    var keptSvs := ListFromSvDetections(kept);
    forall k | 0 <= k < |keptSvs|
      ensures KeepDecision(points, minimumArea, camId, frameSize, keptSvs[k]) == Ok(true)
    {
      assert keptSvs[k] == svs[idx[k]];
      assert idx[k] in idx;
    }
    FilterIndicesAllKept(points, minimumArea, camId, frameSize, keptSvs);
    assert Select(kept, Range(|kept|)) == kept;
  }

  // ---------------------------------------------------------------------------------------------
  // The ignore file
  // ---------------------------------------------------------------------------------------------

  /** A JSON number as `json.load` returns it. */
  datatype Number = IntNumber(i: int) | FloatNumber(f: real)

  type PointDict = map<string, Number>

  /** What is stored under a name: a decoded JSON list, text that is not JSON, or a file that cannot be opened. */
  datatype StoredFile = JsonFile(items: seq<PointDict>) | MalformedJson | Unreadable

  type Files = map<string, StoredFile>

  const IgnoreFile: string := "ignore_list.json"
  const IgnoreFileNew: string := "ignore_list.new.json"

  /** `int(value)`. */
  function NumberToInt(n: Number): int {
    if n.IntNumber? then n.i else TruncToInt(n.f)
  }

  /** `float(value)`. */
  function NumberToFloat(n: Number): real {
    if n.IntNumber? then n.i as real else n.f
  }

  /** `_ignore_point_to_dict`. */
  function PointToDict(p: IgnorePoint): (d: PointDict)
    ensures d.Keys == {"coco_class_id", "x", "y", "cam_id"}
    ensures NumberToInt(d["coco_class_id"]) == p.cocoClassId && NumberToInt(d["cam_id"]) == p.camId
    ensures NumberToFloat(d["x"]) == p.at.x && NumberToFloat(d["y"]) == p.at.y
  {
    map["coco_class_id" := IntNumber(p.cocoClassId), "x" := FloatNumber(p.at.x),
        "y" := FloatNumber(p.at.y), "cam_id" := IntNumber(p.camId)]
  }

  /** One item of the ignore file back to a point; the keys are read in this order, a missing one raises KeyError. */
  function DictToPoint(d: PointDict): (r: Result<IgnorePoint>)
    ensures r.Ok? <==> {"coco_class_id", "x", "y", "cam_id"} <= d.Keys
    ensures r.Err? ==> r.error.KeyError? && r.error.key in {"coco_class_id", "x", "y", "cam_id"} && r.error.key !in d
  {
    if "coco_class_id" !in d then Err(KeyError("coco_class_id"))
    else if "x" !in d then Err(KeyError("x"))
    else if "y" !in d then Err(KeyError("y"))
    else if "cam_id" !in d then Err(KeyError("cam_id"))
    else Ok(IgnorePoint(NumberToInt(d["coco_class_id"]), Point2D(NumberToFloat(d["x"]), NumberToFloat(d["y"])), NumberToInt(d["cam_id"])))
  }

  lemma PointDictRoundTrip(p: IgnorePoint)
    ensures DictToPoint(PointToDict(p)) == Ok(p)
  {
  }

  /** The list `json.dump` writes. */
  function EncodePoints(points: seq<IgnorePoint>): (items: seq<PointDict>)
    ensures |items| == |points| && forall i :: 0 <= i < |points| ==> items[i] == PointToDict(points[i])
  {
    if points == [] then [] else EncodePoints(points[..|points| - 1]) + [PointToDict(points[|points| - 1])]
  }

  /** The items converted in order; the first that fails ends the load. */
  function DecodePoints(items: seq<PointDict>): (r: Result<seq<IgnorePoint>>)
    ensures r.Ok? ==> |r.value| == |items| && forall i :: 0 <= i < |items| ==> DictToPoint(items[i]) == Ok(r.value[i])
  {
    if items == [] then Ok([])
    else
      var n := |items| - 1;
      match DecodePoints(items[..n])
      case Err(e) => Err(e)
      case Ok(front) =>
        match DictToPoint(items[n])
        case Err(e) => Err(e)
        case Ok(p) =>
          assert forall i :: 0 <= i < n ==> items[..n][i] == items[i];
          Ok(front + [p])
  }

  /** Once a prefix fails to convert, so does the whole list, with the same exception. */
  lemma {:induction false} DecodePointsFailsFromPrefix(items: seq<PointDict>, k: nat)
    requires k <= |items| && DecodePoints(items[..k]).Err?
    ensures DecodePoints(items) == DecodePoints(items[..k])
    decreases |items| - k
  {
    if k < |items| {
      var n := |items| - 1;
      if k < n {
        assert items[..n][..k] == items[..k];
        DecodePointsFailsFromPrefix(items[..n], k);
      }
    } else {
      assert items[..k] == items;
    }
  }

  /**
   * `_load_ignore_list` as a value: a missing or unreadable file (OSError) gives no points; text
   * that is not JSON raises, and so does an item lacking a key.
   */
  function LoadedPoints(files: Files): (r: Result<seq<IgnorePoint>>)
    ensures (IgnoreFile !in files || files[IgnoreFile].Unreadable?) ==> r == Ok([])
    ensures r.Err? ==> IgnoreFile in files && !files[IgnoreFile].Unreadable?
    ensures IgnoreFile in files && files[IgnoreFile].MalformedJson? ==> r == Err(OtherException("JSONDecodeError"))
    ensures r.Ok? && IgnoreFile in files && files[IgnoreFile].JsonFile? ==> |r.value| == |files[IgnoreFile].items|
    ensures IgnoreFile in files && files[IgnoreFile].JsonFile? ==> r == DecodePoints(files[IgnoreFile].items)
  {
    if IgnoreFile !in files || files[IgnoreFile].Unreadable? then Ok([])
    else if files[IgnoreFile].MalformedJson? then Err(OtherException("JSONDecodeError"))
    else DecodePoints(files[IgnoreFile].items)
  }

  /** `_save_ignore_list` as a value: the main file holds the encoding and the new file is gone. */
  function SavedFiles(points: seq<IgnorePoint>, files: Files): (saved: Files)
    ensures IgnoreFile in saved && saved[IgnoreFile] == JsonFile(EncodePoints(points)) && IgnoreFileNew !in saved
    ensures forall name :: name != IgnoreFile && name != IgnoreFileNew ==>
              (name in saved <==> name in files) && (name in files ==> saved[name] == files[name])
  {
    (files - {IgnoreFileNew})[IgnoreFile := JsonFile(EncodePoints(points))]
  }

  lemma {:induction false} DecodeEncodedPoints(points: seq<IgnorePoint>)
    ensures DecodePoints(EncodePoints(points)) == Ok(points)
  {
    if points != [] {
      var n := |points| - 1;
      assert EncodePoints(points)[..n] == EncodePoints(points[..n]);
      DecodeEncodedPoints(points[..n]);
      PointDictRoundTrip(points[n]);
      assert points[..n] + [points[n]] == points;
    }
  }

  /** Loading what was saved gives back the same points in the same order, whatever else is stored. */
  lemma SaveThenLoad(points: seq<IgnorePoint>, files: Files)
    ensures LoadedPoints(SavedFiles(points, files)) == Ok(points)
  {
    DecodeEncodedPoints(points);
  }

  /** The loop of `_load_ignore_list`. */
  method LoadIgnoreList(files: Files) returns (r: Result<seq<IgnorePoint>>)
    ensures r == LoadedPoints(files)
  {
    if IgnoreFile !in files || files[IgnoreFile].Unreadable? {
      return Ok([]);
    }
    if files[IgnoreFile].MalformedJson? {
      return Err(OtherException("JSONDecodeError"));
    }
    var items := files[IgnoreFile].items;
    var points: seq<IgnorePoint> := [];
    var i := 0;
    while i < |items|
      invariant 0 <= i <= |items|
      invariant DecodePoints(items[..i]) == Ok(points)
    {
      assert items[..i + 1][..i] == items[..i];
      var p := DictToPoint(items[i]);
      if p.Err? {
        DecodePointsFailsFromPrefix(items, i + 1);
        return Err(p.error);
      }
      points := points + [p.value];
      i := i + 1;
    }
    assert items[..|items|] == items;
    r := Ok(points);
  }

  // ---------------------------------------------------------------------------------------------
  // The list object
  // ---------------------------------------------------------------------------------------------

  class IgnoreList {
    const configuration: Configuration
    var points: seq<IgnorePoint>
    var files: Files
    const added: EventDispatcher<IgnorePoint>
    const removed: EventDispatcher<IgnorePoint>

    /** The two dispatchers are distinct objects, so firing one leaves the other's calls alone. */
    predicate Valid() {
      added != removed
    }

    constructor (configuration: Configuration, files: Files, points: seq<IgnorePoint>)
      ensures Valid() && this.configuration == configuration && this.files == files && this.points == points
      ensures fresh(added) && fresh(removed) && added.listeners == None && removed.listeners == None
      ensures added.calls == [] && removed.calls == []
    {
      this.configuration := configuration;
      this.files := files;
      this.points := points;
      added := new EventDispatcher();
      removed := new EventDispatcher();
    }

    /** `__init__`: a list holding the saved points; construction raises when loading does. */
    static method Open(configuration: Configuration, files: Files) returns (r: Result<IgnoreList>)
      ensures r.Ok? <==> LoadedPoints(files).Ok?
      ensures r.Err? ==> r.error == LoadedPoints(files).error
      ensures r.Ok? ==> && fresh(r.value) && r.value.Valid() && r.value.points == LoadedPoints(files).value
                        && r.value.files == files && r.value.configuration == configuration
                        && r.value.added.listeners == None && r.value.removed.listeners == None
    {
      var loaded := LoadIgnoreList(files);
      if loaded.Err? {
        return Err(loaded.error);
      }
      var list := new IgnoreList(configuration, files, loaded.value);
      r := Ok(list);
    }

    /** `get_ignore_points`: a copy of the points. */
    method GetIgnorePoints() returns (copy: seq<IgnorePoint>)
      ensures copy == points
    {
      copy := points;
    }

    /** `_save_ignore_list`: write the new file, drop the main one if present, rename the new one over it. */
    method SaveIgnoreList()
      modifies this
      ensures files == SavedFiles(points, old(files)) && points == old(points)
    {
      files := files[IgnoreFileNew := JsonFile(EncodePoints(points))];
      if IgnoreFile in files {
        files := files - {IgnoreFile};
      }
      files := (files - {IgnoreFileNew})[IgnoreFile := files[IgnoreFileNew]];
    }

    /** `add`: append the point, fire the added event, save. */
    method Add(p: IgnorePoint) returns (outcome: Outcome)
      requires Valid()
      modifies this, added
      ensures points == old(points) + [p] && added.listeners == old(added.listeners)
      ensures old(added.listeners).None? ==> outcome == Fail(AttributeError) && files == old(files) && added.calls == old(added.calls)
      ensures old(added.listeners).Some? ==>
                && outcome == Pass && files == SavedFiles(points, old(files))
                && added.calls == old(added.calls) + CallsFor(old(added.listeners).value, p)
    {
      points := points + [p];
      outcome := added.Fire(p);
      if outcome.Fail? {
        return;
      }
      SaveIgnoreList();
    }

    /** `remove`: `list.remove` of an equal point (ValueError when there is none), fire the removed event, save. */
    method Remove(p: IgnorePoint) returns (outcome: Outcome)
      requires Valid()
      modifies this, removed
      ensures removed.listeners == old(removed.listeners)
      ensures var rest := RemoveFirst(old(points), p);
              rest.Err? ==> outcome == Fail(rest.error) && points == old(points) && files == old(files) && removed.calls == old(removed.calls)
      ensures var rest := RemoveFirst(old(points), p);
              rest.Ok? && old(removed.listeners).None? ==>
                outcome == Fail(AttributeError) && points == rest.value && files == old(files) && removed.calls == old(removed.calls)
      ensures var rest := RemoveFirst(old(points), p);
              rest.Ok? && old(removed.listeners).Some? ==>
                && outcome == Pass && points == rest.value && files == SavedFiles(points, old(files))
                && removed.calls == old(removed.calls) + CallsFor(old(removed.listeners).value, p)
    {
      var rest := RemoveFirst(points, p);
      if rest.Err? {
        return Fail(rest.error);
      }
      points := rest.value;
      outcome := removed.Fire(p);
      if outcome.Fail? {
        return;
      }
      SaveIgnoreList();
    }

    /** `_is_ignored`: the early-return search over the points. */
    method IsIgnored(cocoClassId: int, cam: CamDefinition, box: seq<real>, frameSize: Point2D) returns (r: Result<bool>)
      ensures r == IgnoredBy(points, cocoClassId, cam.id, box, frameSize)
    {
      if |box| > 4 {
        return Err(ValueError("too many values to unpack (expected 4)"));
      }
      if |box| < 4 {
        return Err(ValueError("not enough values to unpack (expected 4, got " + NatToString(|box|) + ")"));
      }
      if frameSize.x == 0.0 || frameSize.y == 0.0 {
        return Err(OtherException("ZeroDivisionError"));
      }
      var region := Normalised(box, frameSize);
      var i := 0;
      while i < |points|
        invariant 0 <= i <= |points|
        invariant forall j :: 0 <= j < i ==> !Covers(points[j], cocoClassId, cam.id, region)
      {
        if Covers(points[i], cocoClassId, cam.id, region) {
          return Ok(true);
        }
        i := i + 1;
      }
      r := Ok(false);
    }

    /** The body of the loop of `filter_ignored` for one detection: the area test, then `_is_ignored`. */
    method Keep(d: SvDetection, cam: CamDefinition, frameSize: Point2D) returns (r: Result<bool>)
      ensures r == KeepDecision(points, configuration.minimumDetectionArea, cam.id, frameSize, d)
    {
      if |d.xyxyCoords| < 4 {
        return Err(IndexError);
      }
      if Area(d.xyxyCoords) < configuration.minimumDetectionArea as real {
        return Ok(false);
      }
      var ignored := IsIgnored(d.cocoClassId, cam, d.xyxyCoords, frameSize);
      if ignored.Err? {
        return Err(ignored.error);
      }
      r := Ok(!ignored.value);
    }

    /** `filter_ignored`: collect the positions of the detections to keep, then select them. */
    method FilterIgnored(detections: seq<RawDetection>, cam: CamDefinition, frameSize: Point2D) returns (r: Result<seq<RawDetection>>)
      ensures r == FilterDetections(points, configuration.minimumDetectionArea, cam.id, frameSize, detections)
    {
      var svs := ListFromSvDetections(detections);
      var valid: seq<int> := [];
      var index := 0;
      while index < |svs|
        invariant 0 <= index <= |svs|
        invariant FilterIndices(points, configuration.minimumDetectionArea, cam.id, frameSize, svs[..index]) == Ok(valid)
      {
        var keep := Keep(svs[index], cam, frameSize);
        FilterIndicesNext(points, configuration.minimumDetectionArea, cam.id, frameSize, svs, index, valid);
        if keep.Err? {
          FilterIndicesFailsFromPrefix(points, configuration.minimumDetectionArea, cam.id, frameSize, svs, index + 1);
          return Err(keep.error);
        }
        if keep.value {
          valid := valid + [index];
        }
        index := index + 1;
      }
      assert svs[..|svs|] == svs;
      FilterIndicesWithin(points, configuration.minimumDetectionArea, cam.id, frameSize, svs);
      r := Ok(Select(detections, valid));
    }
  }
}
