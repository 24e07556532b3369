/**
 * `DetectionHistoryView`: the list of recorded detections the user sees, one row per record, kept
 * in step with the history through its added and removed events, and the ignore button that turns a
 * recorded detection into an ignore point.
 */
module HistoryView {
  import opened Wrappers
  import opened Text
  import opened Timestamps
  import opened Common
  import opened Interface
  import opened Utility
  import opened Lists
  import opened HistoryCodec
  import opened History
  import opened IgnoreListing

  // ---------------------------------------------------------------------------------------------
  // Ignoring a detection
  // ---------------------------------------------------------------------------------------------

  /**
   * `_ignore`: the box centre as fractions of the frame, for the detection's class and camera.
   * The horizontal centre is computed first: it reads corners 0 and 2 and divides by the width;
   * only then are corners 1 and 3 read and the height divided by. Each step raises on its own
   * input: IndexError for a missing corner, ZeroDivisionError for a zero side.
   */
  function IgnorePointFor(d: DetectionInfo): (r: Result<IgnorePoint>)
    ensures |d.supervision.xyxyCoords| < 3 ==> r == Err(IndexError)
    ensures |d.supervision.xyxyCoords| >= 3 && d.frameSize.x == 0.0 ==> r == Err(OtherException("ZeroDivisionError"))
    ensures |d.supervision.xyxyCoords| == 3 && d.frameSize.x != 0.0 ==> r == Err(IndexError)
    ensures |d.supervision.xyxyCoords| >= 4 && d.frameSize.x != 0.0 && d.frameSize.y == 0.0 ==> r == Err(OtherException("ZeroDivisionError"))
    ensures r.Ok? <==> |d.supervision.xyxyCoords| >= 4 && d.frameSize.x != 0.0 && d.frameSize.y != 0.0
    ensures r.Ok? ==> && r.value.cocoClassId == d.supervision.cocoClassId && r.value.camId == d.camId
                      && var c := d.supervision.xyxyCoords;
                         r.value.at.x * d.frameSize.x == (c[0] + c[2]) / 2.0
                         && r.value.at.y * d.frameSize.y == (c[1] + c[3]) / 2.0
  {
    var c := d.supervision.xyxyCoords;
    if |c| < 3 then Err(IndexError)
    else if d.frameSize.x == 0.0 then Err(OtherException("ZeroDivisionError"))
    else if |c| < 4 then Err(IndexError)
    else if d.frameSize.y == 0.0 then Err(OtherException("ZeroDivisionError"))
    else Ok(IgnorePoint(d.supervision.cocoClassId, Point2D((c[0] + c[2]) / 2.0 / d.frameSize.x, (c[1] + c[3]) / 2.0 / d.frameSize.y), d.camId))
  }

  /** A box inside its frame: the corners are ordered and within the frame's sides. */
  predicate BoxInFrame(d: DetectionInfo) {
    var c := d.supervision.xyxyCoords;
    && |c| == 4
    && 0.0 <= c[0] <= c[2] <= d.frameSize.x && 0.0 <= c[1] <= c[3] <= d.frameSize.y
    && d.frameSize.x > 0.0 && d.frameSize.y > 0.0
  }

  /** The point of a box inside its frame lies in the unit square. */
  lemma IgnorePointInUnitSquare(d: DetectionInfo)
    requires BoxInFrame(d)
    ensures IgnorePointFor(d).Ok?
    ensures var p := IgnorePointFor(d).value; 0.0 <= p.at.x <= 1.0 && 0.0 <= p.at.y <= 1.0
  {
    var c := d.supervision.xyxyCoords;
    var p := IgnorePointFor(d).value;
    DivideBetween((c[0] + c[2]) / 2.0, d.frameSize.x);
    DivideBetween((c[1] + c[3]) / 2.0, d.frameSize.y);
  }

  lemma DivideBetween(v: real, side: real)
    requires side > 0.0 && 0.0 <= v <= side
    ensures 0.0 <= v / side <= 1.0
  {
  }

  /**
   * Ignoring a detection makes the ignore list ignore that same detection: once the point is in
   * the list, `_is_ignored` answers true for this box, class, camera and frame (of positive size,
   * with ordered corners).
   */
  lemma IgnoredAfterIgnore(d: DetectionInfo, points: seq<IgnorePoint>)
    requires |d.supervision.xyxyCoords| == 4 && d.frameSize.x > 0.0 && d.frameSize.y > 0.0
    requires d.supervision.xyxyCoords[0] <= d.supervision.xyxyCoords[2] && d.supervision.xyxyCoords[1] <= d.supervision.xyxyCoords[3]
    requires IgnorePointFor(d).Ok? && IgnorePointFor(d).value in points
    ensures IgnoredBy(points, d.supervision.cocoClassId, d.camId, d.supervision.xyxyCoords, d.frameSize) == Ok(true)
  {
    var c := d.supervision.xyxyCoords;
    var p := IgnorePointFor(d).value;
    var region := Normalised(c, d.frameSize);
    MidpointBetween(c[0], c[2], d.frameSize.x);
    MidpointBetween(c[1], c[3], d.frameSize.y);
    assert Covers(p, d.supervision.cocoClassId, d.camId, region);
    var i :| 0 <= i < |points| && points[i] == p;
  }

  lemma MidpointBetween(lo: real, hi: real, side: real)
    requires side > 0.0 && lo <= hi
    ensures lo / side <= (lo + hi) / 2.0 / side <= hi / side
  {
    assert lo <= (lo + hi) / 2.0 <= hi;
    assert (lo + hi) / 2.0 / side - lo / side == ((lo + hi) / 2.0 - lo) / side;
    assert hi / side - (lo + hi) / 2.0 / side == (hi - (lo + hi) / 2.0) / side;
  }

  // ---------------------------------------------------------------------------------------------
  // Rows
  // ---------------------------------------------------------------------------------------------

  /** The configuration knows the detection's class and camera. */
  predicate Showable(configuration: Configuration, d: DetectionInfo) {
    GetInterest(configuration.interests, d.supervision.cocoClassId).Ok? && GetCamDefinition(configuration.camDefinitions, d.camId).Ok?
  }

  /** Every record can be shown, checked from the first. */
  predicate AllShowable(configuration: Configuration, records: seq<DetectionRecord>) {
    records == [] || (AllShowable(configuration, records[..|records| - 1]) && Showable(configuration, records[|records| - 1].info))
  }

  lemma {:induction false} AllShowableMeans(configuration: Configuration, records: seq<DetectionRecord>)
    ensures AllShowable(configuration, records) <==> forall i :: 0 <= i < |records| ==> Showable(configuration, records[i].info)
  {
    if records != [] {
      var n := |records| - 1;
      AllShowableMeans(configuration, records[..n]);
      assert forall i :: 0 <= i < n ==> records[..n][i] == records[i];
    }
  }

  lemma AllShowableExtend(configuration: Configuration, records: seq<DetectionRecord>, i: nat)
    requires i < |records|
    ensures AllShowable(configuration, records[..i + 1]) <==> AllShowable(configuration, records[..i]) && Showable(configuration, records[i].info)
  {
    assert records[..i + 1][..i] == records[..i];
  }

  lemma {:induction false} AllShowablePrefix(configuration: Configuration, records: seq<DetectionRecord>, k: nat)
    requires k <= |records| && !AllShowable(configuration, records[..k])
    ensures !AllShowable(configuration, records)
    decreases |records| - k
  {
    if k < |records| {
      var n := |records| - 1;
      assert records[..n][..k] == records[..k];
      AllShowablePrefix(configuration, records[..n], k);
    } else {
      assert records[..k] == records;
    }
  }

  /** The text of one row: time, interest, camera, the corners as `str` of an int list, and the confidence percent. */
  function RowTexts(configuration: Configuration, d: DetectionInfo): (r: Result<seq<string>>)
    ensures r.Ok? <==> Showable(configuration, d)
    ensures r.Err? ==> r.error.ValueError?
    ensures GetInterest(configuration.interests, d.supervision.cocoClassId).Err? ==>
              r == Err(ValueError("Unknown coco class ID."))
    ensures GetInterest(configuration.interests, d.supervision.cocoClassId).Ok? && GetCamDefinition(configuration.camDefinitions, d.camId).Err? ==>
              r == Err(ValueError("Unknown cam ID."))
    ensures r.Ok? ==> |r.value| == 5
                      && r.value[1] == GetInterest(configuration.interests, d.supervision.cocoClassId).value.caption
                      && r.value[2] == GetCamDefinition(configuration.camDefinitions, d.camId).value.caption
  {
    match GetInterest(configuration.interests, d.supervision.cocoClassId)
    case Err(e) => Err(e)
    case Ok(interest) =>
      match GetCamDefinition(configuration.camDefinitions, d.camId)
      case Err(e) => Err(e)
      case Ok(cam) => Ok(RowOf(d, interest, cam))
  }

  /** The literal text between the fields of `strftime("%Y-%m-%d %H:%M:%S")`. */
  const DisplayTimeSeparators: seq<string> := ["-", "-", " ", ":", ":"]

  /**
   * The five texts of a row whose class and camera were found: the time as
   * `strftime("%Y-%m-%d %H:%M:%S")`, the two captions, the corners as `str` of a list of ints,
   * and `'%.0f %%'` of the confidence percent.
   */
  function RowOf(d: DetectionInfo, interest: Interest, cam: CamDefinition): (texts: seq<string>)
    ensures |texts| == 5 && texts[1] == interest.caption && texts[2] == cam.caption
    ensures texts[0] == Interleave(TimeFields(d.when), DisplayTimeSeparators)
    ensures texts[3] == "[" + JoinWith(CoordTexts(d.supervision.xyxyCoords), ", ") + "]"
    ensures texts[4] == ConfText(d) + " %"
  {
    [ Interleave(TimeFields(d.when), DisplayTimeSeparators),
      interest.caption,
      cam.caption,
      "[" + JoinWith(CoordTexts(d.supervision.xyxyCoords), ", ") + "]",
      ConfText(d) + " %" ]
  }

  /** The time column reads back as the six date and time fields, which give the time to the second. */
  lemma RowTimeReadsBack(d: DetectionInfo, interest: Interest, cam: CamDefinition)
    ensures ParseFields(RowOf(d, interest, cam)[0], DisplayTimeSeparators) == Some((TimeFields(d.when), ""))
    ensures ParseTime(TimeFields(d.when)) == Some(TruncateToSecond(d.when))
  {
    var fields := TimeFields(d.when);
    assert forall i :: 0 <= i < |DisplayTimeSeparators| ==> StartsWithNonDigit(DisplayTimeSeparators[i]);
    assert forall i :: 0 <= i < |fields| ==> IsDigitRun(fields[i]);
    ParseFieldsOfInterleave(fields, DisplayTimeSeparators, "");
    assert Interleave(fields, DisplayTimeSeparators) + "" == Interleave(fields, DisplayTimeSeparators);
    FormatParseRoundTrip(d.when);
  }

  /** A row of the list and the record it stands for. */
  datatype Row = Row(record: DetectionRecord, texts: seq<string>)

  function RecordsOf(rows: seq<Row>): (records: seq<DetectionRecord>)
    ensures |records| == |rows| && forall i :: 0 <= i < |rows| ==> records[i] == rows[i].record
  {
    if rows == [] then [] else RecordsOf(rows[..|rows| - 1]) + [rows[|rows| - 1].record]
  }

  lemma RecordsOfAppend(rows: seq<Row>, row: Row)
    ensures RecordsOf(rows + [row]) == RecordsOf(rows) + [row.record]
  {
    assert (rows + [row])[..|rows|] == rows;
  }

  /** The listener names the view registers with the history. */
  const AppendListener: ListenerId := "DetectionHistoryView._append"
  const RemoveListener: ListenerId := "DetectionHistoryView._remove"

  class DetectionHistoryView {
    const configuration: Configuration
    var rows: seq<Row>

    constructor (configuration: Configuration)
      ensures this.configuration == configuration && rows == []
    {
      this.configuration := configuration;
      rows := [];
    }

    /** `_append`: a new last row for the record; an unknown class or camera raises and adds nothing. */
    method Append(record: DetectionRecord) returns (outcome: Outcome)
      modifies this
      ensures var texts := RowTexts(configuration, record.info);
              && (texts.Err? ==> outcome == Fail(texts.error) && rows == old(rows))
              && (texts.Ok? ==> outcome == Pass && rows == old(rows) + [Row(record, texts.value)])
    {
      var texts := RowTexts(configuration, record.info);
      if texts.Err? {
        return Fail(texts.error);
      }
      rows := rows + [Row(record, texts.value)];
      outcome := Pass;
    }

    /**
     * `_remove`: walk the rows and delete the first that holds this very record (the same object,
     * not an equal one); raises ValueError when there is none.
     */
    method Remove(record: DetectionRecord) returns (outcome: Outcome)
      modifies this
      ensures record !in RecordsOf(old(rows)) ==> outcome == Fail(ValueError("Detection not found.")) && rows == old(rows)
      ensures record in RecordsOf(old(rows)) ==>
                var i := IndexOf(RecordsOf(old(rows)), record);
                outcome == Pass && rows == old(rows)[..i] + old(rows)[i + 1..]
    {
      var i := 0;
      while i < |rows|
        invariant 0 <= i <= |rows| && rows == old(rows)
        invariant forall j :: 0 <= j < i ==> rows[j].record != record
      {
        if rows[i].record == record {
          assert RecordsOf(rows)[i] == record;
          ghost var first := IndexOf(RecordsOf(rows), record);
          assert first == i;
          rows := rows[..i] + rows[i + 1..];
          return Pass;
        }
        i := i + 1;
      }
      assert forall j :: 0 <= j < |rows| ==> RecordsOf(rows)[j] != record;
      outcome := Fail(ValueError("Detection not found."));
    }

    /** One turn of the first loop of `__init__`: the row for record `i`, after those before it. */
    method AppendNext(records: seq<DetectionRecord>, i: nat) returns (outcome: Outcome)
      requires i < |records| && RecordsOf(rows) == records[..i] && AllShowable(configuration, records[..i])
      modifies this
      ensures outcome.Fail? ==> outcome.error.ValueError? && !AllShowable(configuration, records)
      ensures outcome.Pass? ==> RecordsOf(rows) == records[..i + 1] && AllShowable(configuration, records[..i + 1])
    {
      ghost var before := rows;
      outcome := Append(records[i]);
      AllShowableExtend(configuration, records, i);
      if outcome.Fail? {
        AllShowablePrefix(configuration, records, i + 1);
        return;
      }
      RecordsOfAppend(before, rows[|rows| - 1]);
      PrefixNext(records, i);
    }

    /** The first loop of `__init__`: a row per record, in order, stopping at the first that raises. */
    method Populate(records: seq<DetectionRecord>) returns (outcome: Outcome)
      requires rows == []
      modifies this
      ensures outcome.Pass? <==> AllShowable(configuration, records)
      ensures outcome.Pass? ==> RecordsOf(rows) == records
      ensures outcome.Fail? ==> outcome.error.ValueError?
    {
      var i := 0;
      while i < |records|
        invariant 0 <= i <= |records|
        invariant RecordsOf(rows) == records[..i]
        invariant AllShowable(configuration, records[..i])
      {
        outcome := AppendNext(records, i);
        if outcome.Fail? {
          return;
        }
        i := i + 1;
      }
      assert records[..|records|] == records;
      outcome := Pass;
    }

    /**
     * `__init__`: one row per record the history holds, in its order, then the view registers for
     * the history's events. A row that raises ends construction before registering.
     */
    static method Open(history: DetectionHistory, configuration: Configuration) returns (view: DetectionHistoryView, outcome: Outcome)
      requires history.Valid()
      modifies history.added, history.removed
      ensures fresh(view) && view.configuration == configuration
      ensures outcome.Pass? <==> AllShowable(configuration, history.detectionList)
      ensures outcome.Pass? ==> && RecordsOf(view.rows) == history.detectionList
                                && history.added.listeners == Some([AppendListener])
                                && history.removed.listeners == Some([RemoveListener])
      ensures outcome.Fail? ==> && outcome.error.ValueError?
                                && history.added.listeners == old(history.added.listeners)
                                && history.removed.listeners == old(history.removed.listeners)
      ensures history.added.calls == old(history.added.calls) && history.removed.calls == old(history.removed.calls)
    {
      view := new DetectionHistoryView(configuration);
      var records := history.GetDetections();
      outcome := view.Populate(records);
      if outcome.Fail? {
        return;
      }
      history.added.Register(AppendListener);
      history.removed.Register(RemoveListener);
    }
  }
}
