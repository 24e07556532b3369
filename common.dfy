/**
 * The value types every other module shares: detections as the detector reports them, the
 * application's own detection record, and the ignore points the user creates.
 */
module Common {
  import opened Wrappers
  import opened Timestamps

  /** `int(v)` for a float: truncation toward zero. */
  function TruncToInt(v: real): (i: int)
    ensures 0.0 <= v ==> i == v.Floor
    ensures v < 0.0 ==> i == -((-v).Floor)
    ensures -1.0 < v < 1.0 ==> i == 0
  {
    if v >= 0.0 then v.Floor else -((-v).Floor)
  }

  newtype byte = x: int | 0 <= x < 256

  /** A decoded RGB picture: width, height and the row-major pixel bytes. */
  datatype Image = Image(width: nat, height: nat, rgb: seq<byte>)

  /** A pair of coordinates; pixel sizes use integral values, ignore points fractions of the frame. */
  datatype Point2D = Point2D(x: real, y: real)

  /** The segmentation mask a detector may attach; never inspected by the application. */
  type Mask = seq<seq<bool>>

  /** Extra per-detection data a detector may attach; never inspected by the application. */
  type ExtraData = map<string, seq<real>>

  /**
   * One element of a detections container as iterating over it yields it: box corners, mask,
   * confidence, class id, tracker id and extra data, in that order.
   */
  datatype RawDetection = RawDetection(
    xyxy: seq<real>, mask: Option<Mask>, confidence: real, classId: int, trackerId: Option<int>, data: ExtraData)

  /** The application's view of one detection. */
  datatype SvDetection = SvDetection(
    xyxyCoords: seq<real>, confidence: real, cocoClassId: int,
    mask: Option<Mask>, trackerId: Option<int>, data: ExtraData)

  /** A detection as the history records it: which camera, what was seen, when, in how large a frame. */
  datatype DetectionInfo = DetectionInfo(camId: int, supervision: SvDetection, when: DateTime, frameSize: Point2D)

  /**
   * A detection record with an identity of its own: the history and its view hold records, and
   * the view removes the record that is the same object, not one that is merely equal.
   */
  class DetectionRecord {
    const info: DetectionInfo

    constructor (info: DetectionInfo)
      ensures this.info == info
    {
      this.info := info;
    }
  }

  /** A point of a camera's frame, as fractions of its width and height, where a class is ignored. */
  datatype IgnorePoint = IgnorePoint(cocoClassId: int, at: Point2D, camId: int)

  /** `SvDetection.from_sv_detection`: unpacks the six detector fields into the application's record. */
  function FromSvDetection(raw: RawDetection): (d: SvDetection)
    ensures |d.xyxyCoords| == |raw.xyxy| && forall i :: 0 <= i < |raw.xyxy| ==> d.xyxyCoords[i] == raw.xyxy[i]
    ensures d.confidence == raw.confidence && d.cocoClassId == raw.classId
    ensures d.mask == raw.mask && d.data == raw.data
    ensures raw.trackerId.None? <==> d.trackerId.None?
    ensures raw.trackerId.Some? ==> d.trackerId == raw.trackerId
  {
    SvDetection(
      xyxyCoords := raw.xyxy,
      mask := raw.mask,
      confidence := raw.confidence,
      cocoClassId := raw.classId,
      trackerId := if raw.trackerId.None? then None else Some(raw.trackerId.value),
      data := raw.data)
  }

  /** `SvDetection.list_from_sv_detections`: converts every detection, in order. */
  function ListFromSvDetections(raws: seq<RawDetection>): (ds: seq<SvDetection>)
    ensures |ds| == |raws|
    ensures forall i :: 0 <= i < |raws| ==> ds[i] == FromSvDetection(raws[i])
  {
    if raws == [] then [] else [FromSvDetection(raws[0])] + ListFromSvDetections(raws[1..])
  }

  /** Converting a concatenation converts each part. */
  lemma {:induction false} ListFromSvDetectionsAppend(a: seq<RawDetection>, b: seq<RawDetection>)
    ensures ListFromSvDetections(a + b) == ListFromSvDetections(a) + ListFromSvDetections(b)
  {
    if a != [] {
      assert (a + b)[1..] == a[1..] + b;
      ListFromSvDetectionsAppend(a[1..], b);
    }
  }
}
