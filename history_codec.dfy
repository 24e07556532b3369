/**
 * The name under which the detection history saves each detection's picture, and the parser that
 * rebuilds the detection from that name at start-up.
 *
 * Name layout: `<YYYY>-<mm>-<dd> <HH>-<MM>-<SS> coco<class> cam<cam> rect<x1>-<y1>-<x2>-<y2>
 * frame<width>-<height> conf<percent>.jpg`. The parser accepts what the regular expression of the
 * loader accepts: fifteen runs of ASCII digits between the fixed separators, where the "." before
 * "jpg" is an unescaped regular-expression dot and so stands for any character but a newline.
 */
module HistoryCodec {
  import opened Wrappers
  import opened Text
  import opened Timestamps
  import opened Common

  // ---------------------------------------------------------------------------------------------
  // Encoder
  // ---------------------------------------------------------------------------------------------

  /** Round to the nearest integer, ties to the even one, as `'%.0f'` does. */
  function RoundHalfEven(v: real): (k: int)
    ensures v - 0.5 <= k as real <= v + 0.5
    ensures (k as real - v == 0.5 || v - k as real == 0.5) ==> k % 2 == 0
    ensures 0.0 <= v ==> 0 <= k
  {
    var f := v.Floor;
    var d := v - f as real;
    if d < 0.5 then f
    else if d > 0.5 then f + 1
    else if f % 2 == 0 then f
    else f + 1
  }

  /** The two rounding rules pin the result down: no other integer is as near with an even tie. */
  lemma RoundHalfEvenUnique(v: real, j: int)
    requires v - 0.5 <= j as real <= v + 0.5
    requires (j as real - v == 0.5 || v - j as real == 0.5) ==> j % 2 == 0
    ensures j == RoundHalfEven(v)
  {
  }

  /** `'%.0f' % v`: a negative value that rounds to zero still prints its sign. */
  function FormatFixed0(v: real): (s: string)
    ensures 0.0 <= v ==> s == NatToString(RoundHalfEven(v))
    ensures v < 0.0 ==> |s| > 0 && s[0] == '-'
  {
    var k := RoundHalfEven(v);
    if k < 0 then "-" + NatToString(-k)
    else if v < 0.0 then "-0"
    else NatToString(k)
  }

  /** `str(int(v))`: for a non-negative value, the digits of the whole number just at or below it. */
  function CoordText(v: real): (s: string)
    ensures 0.0 <= v ==> IsDigitRun(s) && ParseNat(s) == v.Floor && ParseNat(s) as real <= v < ParseNat(s) as real + 1.0
    ensures |s| > 0 && (v <= -1.0 ==> s[0] == '-')
  {
    IntToString(TruncToInt(v))
  }

  function CoordTexts(vs: seq<real>): (ts: seq<string>)
    ensures |ts| == |vs| && forall i :: 0 <= i < |vs| ==> ts[i] == CoordText(vs[i])
  {
    if vs == [] then [] else [CoordText(vs[0])] + CoordTexts(vs[1..])
  }

  function Dashes(k: nat): (ds: seq<string>)
    ensures |ds| == k && forall i :: 0 <= i < k ==> ds[i] == "-"
  {
    if k == 0 then [] else ["-"] + Dashes(k - 1)
  }

  /** The box field `'-'.join(...)` of the corners: their texts with a dash between each two, or "" for none. */
  function BoxFields(corners: seq<real>): (fs: seq<string>)
    ensures |fs| == if corners == [] then 1 else |corners|
  {
    if corners == [] then [""] else CoordTexts(corners)
  }

  /** The literal text between the fields of a name whose box has `corners` corners. */
  function NameSeparators(corners: nat): (seps: seq<string>)
    ensures |seps| == 10 + (if corners == 0 then 0 else corners - 1)
  {
    ["-", "-", " ", "-", "-", " coco", " cam", " rect"] + Dashes(if corners == 0 then 0 else corners - 1) + [" frame", "-"]
  }

  /**
   * The fields of a name, in order: the six `strftime("%Y-%m-%d %H-%M-%S")` fields, the class id,
   * the camera id, the box corners and the frame width and height, each as `str(int(...))`.
   */
  function NameFields(info: DetectionInfo): (fields: seq<string>)
    ensures |fields| == |NameSeparators(|info.supervision.xyxyCoords|)| + 1
  {
    TimeFields(info.when)
      + [IntToString(info.supervision.cocoClassId), IntToString(info.camId)]
      + BoxFields(info.supervision.xyxyCoords)
      + [CoordText(info.frameSize.x), CoordText(info.frameSize.y)]
  }

  /** The confidence field: `'%.0f' % (confidence * 100)`, the nearest whole percent. */
  function ConfText(info: DetectionInfo): (s: string)
    ensures var percent := info.supervision.confidence * 100.0;
            0.0 <= percent ==> IsDigitRun(s) && ParseNat(s) == RoundHalfEven(percent)
                               && percent - 0.5 <= ParseNat(s) as real <= percent + 0.5
  {
    var percent := info.supervision.confidence * 100.0;
    if percent >= 0.0 then ParseNatToString(RoundHalfEven(percent)); FormatFixed0(percent)
    else FormatFixed0(percent)
  }

  /** Fields joined by the literal text between them: `fields[0] + seps[0] + fields[1] + ... + fields[|seps|]`. */
  function Interleave(fields: seq<string>, seps: seq<string>): string
    requires |fields| == |seps| + 1
  {
    if seps == [] then fields[0] else fields[0] + seps[0] + Interleave(fields[1..], seps[1..])
  }

  /**
   * `_detection_info_to_filename`: the formatted string
   * `<time> coco<class> cam<cam> rect<corners joined by -> frame<width>-<height> conf<percent>.jpg`.
   */
  function EncodeFilename(info: DetectionInfo): (name: string)
    ensures |name| > 4 && name[|name| - 4..] == ".jpg"
  {
    Interleave(NameFields(info), NameSeparators(|info.supervision.xyxyCoords|)) + (" conf" + ConfText(info) + ".jpg")
  }

  // ---------------------------------------------------------------------------------------------
  // Parser
  // ---------------------------------------------------------------------------------------------

  /** The separators between the fourteen digit runs before " conf"; each starts with a non-digit. */
  const FieldSeparators: seq<string> :=
    ["-", "-", " ", "-", "-", " coco", " cam", " rect", "-", "-", "-", " frame", "-"]

  /** The length of the longest prefix of ASCII digits. */
  function LeadingDigits(s: string): (n: nat)
    ensures n <= |s| && AllDigits(s[..n])
    ensures n < |s| ==> !IsDigit(s[n])
  {
    if s == [] || !IsDigit(s[0]) then 0
    else
      var n := 1 + LeadingDigits(s[1..]);
      assert forall i :: 1 <= i < n ==> s[..n][i] == s[1..][..n - 1][i - 1];
      n
  }

  predicate StartsWithNonDigit(s: string) {
    s != [] && !IsDigit(s[0])
  }

  /**
   * The digit runs and separators of the pattern, in order, and what is left after the last run.
   * A run of `\d+` followed by a separator that starts with a non-digit can only end where the
   * digits end, so each run is the longest digit prefix.
   */
  function ParseFields(s: string, seps: seq<string>): (r: Option<(seq<string>, string)>)
    ensures r.Some? ==> |r.value.0| == |seps| + 1 && forall i :: 0 <= i < |r.value.0| ==> IsDigitRun(r.value.0[i])
  {
    var n := LeadingDigits(s);
    if n == 0 then None
    else if seps == [] then Some(([s[..n]], s[n..]))
    else
      var rest := s[n..];
      if |rest| >= |seps[0]| && rest[..|seps[0]|] == seps[0] then
        match ParseFields(rest[|seps[0]|..], seps[1..])
        case None => None
        case Some(more) => Some(([s[..n]] + more.0, more.1))
      else None
  }

  /** `(\d+).jpg` at the end of the name: digits, one character other than a newline, "jpg". */
  function ParseConfTail(tail: string): (r: Option<string>)
    ensures r.Some? ==> IsDigitRun(r.value)
  {
    if |tail| >= 5 && tail[|tail| - 3..] == "jpg" && tail[|tail| - 4] != '\n' && IsDigitRun(tail[..|tail| - 4])
    then Some(tail[..|tail| - 4])
    else None
  }

  /** `re.fullmatch` of the pattern: the fifteen digit groups in order, or None. */
  function MatchFilename(name: string): (r: Option<seq<string>>)
    ensures r.Some? ==> |r.value| == 15 && forall i :: 0 <= i < 15 ==> IsDigitRun(r.value[i])
  {
    match ParseFields(name, FieldSeparators)
    case None => None
    case Some(fields) =>
      var rest := fields.1;
      if |rest| >= 5 && rest[..5] == " conf" then
        match ParseConfTail(rest[5..])
        case None => None
        case Some(conf) => Some(fields.0 + [conf])
      else None
  }

  /** The detection a saved name stands for; the defaults fill what the name does not carry. */
  function DetectionFromGroups(groups: seq<string>, when: DateTime): (info: DetectionInfo)
    requires |groups| == 15 && forall i :: 0 <= i < 15 ==> IsDigitRun(groups[i])
    ensures |info.supervision.xyxyCoords| == 4
    ensures info.supervision.mask.None? && info.supervision.trackerId.None? && info.supervision.data == map[]
  {
    assert IsDigitRun(groups[6]) && IsDigitRun(groups[7]) && IsDigitRun(groups[8]) && IsDigitRun(groups[9]);
    assert IsDigitRun(groups[10]) && IsDigitRun(groups[11]) && IsDigitRun(groups[12]) && IsDigitRun(groups[13]);
    assert IsDigitRun(groups[14]);
    var coords := [ParseNat(groups[8]) as real, ParseNat(groups[9]) as real, ParseNat(groups[10]) as real, ParseNat(groups[11]) as real];
    var sv := SvDetection(
      xyxyCoords := coords,
      confidence := ParseNat(groups[14]) as real / 100.0,
      cocoClassId := ParseNat(groups[6]),
      mask := None,
      trackerId := None,
      data := map[]);
    DetectionInfo(ParseNat(groups[7]), sv, when, Point2D(ParseNat(groups[12]) as real, ParseNat(groups[13]) as real))
  }

  /**
   * `detection_info_from_file`: None when the name does not fully match the pattern or its time
   * is not a valid date and time. (Once the pattern matched, every group is a digit run, so the
   * integer conversions cannot fail.)
   */
  function ParseFilename(name: string): (r: Option<DetectionInfo>)
    ensures r.Some? <==> MatchFilename(name).Some? && ParseTime(MatchFilename(name).value[..6]).Some?
    ensures r.Some? ==> r.value.when == ParseTime(MatchFilename(name).value[..6]).value && r.value.when.microsecond == 0
  {
    match MatchFilename(name)
    case None => None
    case Some(groups) =>
      match ParseTime(groups[..6])
      case None => None
      case Some(when) => Some(DetectionFromGroups(groups, when))
  }

  // ---------------------------------------------------------------------------------------------
  // Properties
  // ---------------------------------------------------------------------------------------------

  lemma {:induction false} LeadingDigitsOfRun(run: string, rest: string)
    requires AllDigits(run) && (rest == [] || StartsWithNonDigit(rest))
    ensures LeadingDigits(run + rest) == |run|
  {
    if run != [] {
      assert (run + rest)[1..] == run[1..] + rest;
      LeadingDigitsOfRun(run[1..], rest);
    }
  }

  lemma {:induction false} ParseFieldsOfInterleave(runs: seq<string>, seps: seq<string>, rest: string)
    requires |runs| == |seps| + 1
    requires forall i :: 0 <= i < |runs| ==> IsDigitRun(runs[i])
    requires forall i :: 0 <= i < |seps| ==> StartsWithNonDigit(seps[i])
    requires rest == [] || StartsWithNonDigit(rest)
    ensures ParseFields(Interleave(runs, seps) + rest, seps) == Some((runs, rest))
  {
    var s := Interleave(runs, seps) + rest;
    if seps == [] {
      LeadingDigitsOfRun(runs[0], rest);
      assert s[..|runs[0]|] == runs[0] && s[|runs[0]|..] == rest;
      assert [runs[0]] == runs;
    } else {
      var tail := Interleave(runs[1..], seps[1..]) + rest;
      assert s == runs[0] + (seps[0] + tail);
      assert StartsWithNonDigit(seps[0] + tail) by {
        assert (seps[0] + tail)[0] == seps[0][0];
      }
      LeadingDigitsOfRun(runs[0], seps[0] + tail);
      ParseFieldsOfInterleave(runs[1..], seps[1..], rest);
      ParseFieldsStep(s, seps, runs[0], tail, (runs[1..], rest));
      assert [runs[0]] + runs[1..] == runs;
    }
  }

  /** A digit run, the first separator, then a tail the other separators parse. */
  lemma ParseFieldsStep(s: string, seps: seq<string>, head: string, tail: string, more: (seq<string>, string))
    requires seps != [] && LeadingDigits(s) == |head| > 0 && s == head + (seps[0] + tail)
    requires ParseFields(tail, seps[1..]) == Some(more)
    ensures ParseFields(s, seps) == Some(([head] + more.0, more.1))
  {
    var after := s[|head|..];
    assert s[..|head|] == head && after == seps[0] + tail;
    assert after[..|seps[0]|] == seps[0] && after[|seps[0]|..] == tail;
  }

  /** A run that starts with a minus sign (a negative number written by `str`) stops the match. */
  lemma {:induction false} ParseFieldsRejectsSign(runs: seq<string>, seps: seq<string>, rest: string, k: nat)
    requires |runs| == |seps| + 1 && k < |runs|
    requires forall i :: 0 <= i < k ==> IsDigitRun(runs[i])
    requires forall i :: 0 <= i < |seps| ==> StartsWithNonDigit(seps[i])
    requires |runs[k]| > 0 && runs[k][0] == '-'
    ensures ParseFields(Interleave(runs, seps) + rest, seps) == None
  {
    var s := Interleave(runs, seps) + rest;
    if k == 0 {
      assert s[0] == runs[0][0];
    } else {
      var tail := Interleave(runs[1..], seps[1..]) + rest;
      assert s == runs[0] + (seps[0] + tail);
      assert StartsWithNonDigit(seps[0] + tail) by {
        assert (seps[0] + tail)[0] == seps[0][0];
      }
      LeadingDigitsOfRun(runs[0], seps[0] + tail);
      var after := s[|runs[0]|..];
      assert after == seps[0] + tail;
      assert after[..|seps[0]|] == seps[0] && after[|seps[0]|..] == tail;
      ParseFieldsRejectsSign(runs[1..], seps[1..], rest, k - 1);
    }
  }

  lemma FieldSeparatorsStartWithNonDigit()
    ensures forall i :: 0 <= i < |FieldSeparators| ==> StartsWithNonDigit(FieldSeparators[i])
  {
  }

  /** A name laid out by the pattern matches it, with exactly its fields as the groups. */
  lemma MatchFilenameOfLayout(runs: seq<string>, conf: string, dot: char)
    requires |runs| == 14 && forall i :: 0 <= i < 14 ==> IsDigitRun(runs[i])
    requires IsDigitRun(conf) && dot != '\n'
    ensures MatchFilename(Interleave(runs, FieldSeparators) + (" conf" + conf + [dot] + "jpg")) == Some(runs + [conf])
  {
    var rest := " conf" + conf + [dot] + "jpg";
    FieldSeparatorsStartWithNonDigit();
    ParseFieldsOfInterleave(runs, FieldSeparators, rest);
    assert rest[..5] == " conf" && rest[5..] == conf + [dot] + "jpg";
    ConfTailOfLayout(conf, dot);
    MatchFilenameOfFields(Interleave(runs, FieldSeparators) + rest, runs, rest, conf);
  }

  /** Fields that parse, then " conf" and a tail that parses, make the match. */
  lemma MatchFilenameOfFields(name: string, runs: seq<string>, rest: string, conf: string)
    requires ParseFields(name, FieldSeparators) == Some((runs, rest))
    requires |rest| >= 5 && rest[..5] == " conf" && ParseConfTail(rest[5..]) == Some(conf)
    ensures MatchFilename(name) == Some(runs + [conf])
  {
  }

  /** The digits, one character other than a newline, and "jpg" parse back to the digits. */
  lemma ConfTailOfLayout(conf: string, dot: char)
    requires IsDigitRun(conf) && dot != '\n'
    ensures ParseConfTail(conf + [dot] + "jpg") == Some(conf)
  {
    var tail := conf + [dot] + "jpg";
    assert tail[..|tail| - 4] == conf;
    assert tail[|tail| - 3..] == "jpg";
  }

  /** With four corners the name has the fourteen fields and the separators the parser expects. */
  lemma FourCornerLayout(info: DetectionInfo)
    requires |info.supervision.xyxyCoords| == 4
    ensures NameSeparators(4) == FieldSeparators
    ensures |NameFields(info)| == 14
  {
    assert Dashes(3) == ["-", "-", "-"];
  }

  /** What a saved detection comes back as: the encoder's integers, whole seconds, a whole percent, defaults for the rest. */
  function Reloaded(info: DetectionInfo): (r: DetectionInfo)
    requires |info.supervision.xyxyCoords| == 4
    ensures r.camId == info.camId && r.supervision.cocoClassId == info.supervision.cocoClassId
    ensures r.when == TruncateToSecond(info.when) && |r.supervision.xyxyCoords| == 4
    ensures forall k :: 0 <= k < 4 ==> -1.0 < r.supervision.xyxyCoords[k] - info.supervision.xyxyCoords[k] < 1.0
  {
    var c := info.supervision.xyxyCoords;
    DetectionInfo(
      info.camId,
      SvDetection(
        xyxyCoords := [TruncToInt(c[0]) as real, TruncToInt(c[1]) as real, TruncToInt(c[2]) as real, TruncToInt(c[3]) as real],
        confidence := RoundHalfEven(info.supervision.confidence * 100.0) as real / 100.0,
        cocoClassId := info.supervision.cocoClassId,
        mask := None,
        trackerId := None,
        data := map[]),
      TruncateToSecond(info.when),
      Point2D(TruncToInt(info.frameSize.x) as real, TruncToInt(info.frameSize.y) as real))
  }

  /** The conditions under which every field the encoder writes is a plain digit run. */
  predicate Encodable(info: DetectionInfo) {
    && |info.supervision.xyxyCoords| == 4
    && info.supervision.cocoClassId >= 0
    && info.camId >= 0
    && (forall i :: 0 <= i < 4 ==> TruncToInt(info.supervision.xyxyCoords[i]) >= 0)
    && TruncToInt(info.frameSize.x) >= 0 && TruncToInt(info.frameSize.y) >= 0
    && info.supervision.confidence >= 0.0
  }

  /** An encodable detection's name matches the pattern, and its groups are the fields written. */
  lemma EncodedNameMatches(info: DetectionInfo)
    requires Encodable(info)
    ensures MatchFilename(EncodeFilename(info)) == Some(NameFields(info) + [ConfText(info)])
  {
    var f := NameFields(info);
    FourCornerLayout(info);
    EncodedFieldsDecode(info);
    MatchFilenameOfLayout(f, ConfText(info), '.');
    assert " conf" + ConfText(info) + ".jpg" == " conf" + ConfText(info) + ['.'] + "jpg";
  }

  /** Reading the written integers back gives the values the encoder started from. */
  lemma EncodedFieldsDecode(info: DetectionInfo)
    requires Encodable(info)
    ensures IsDigitRun(ConfText(info))
    ensures |NameFields(info)| == 14 && forall i :: 0 <= i < 14 ==> IsDigitRun(NameFields(info)[i])
    ensures DetectionFromGroups(NameFields(info) + [ConfText(info)], TruncateToSecond(info.when)) == Reloaded(info)
  {
    var c := info.supervision.xyxyCoords;
    var f := NameFields(info);
    FourCornerLayout(info);
    assert IsDigitRun(TimeFields(info.when)[0]);
  }

  /**
   * Encoding and parsing back gives the same camera, class and time to the second, the truncated
   * box and frame size, and the confidence rounded to a whole percent, that percent divided by 100.
   */
  lemma FilenameRoundTrip(info: DetectionInfo)
    requires Encodable(info)
    ensures ParseFilename(EncodeFilename(info)) == Some(Reloaded(info))
  {
    var groups := NameFields(info) + [ConfText(info)];
    EncodedNameMatches(info);
    EncodedFieldsDecode(info);
    assert groups[..6] == TimeFields(info.when);
    FormatParseRoundTrip(info.when);
  }

  /** The reloaded confidence is within half a percent of the saved one. */
  lemma ReloadedConfidenceClose(info: DetectionInfo)
    requires |info.supervision.xyxyCoords| == 4
    ensures -0.005 <= Reloaded(info).supervision.confidence - info.supervision.confidence <= 0.005
  {
  }

  /**
   * A detection with whole-number corners and frame size, a whole-second time, a confidence that
   * is a whole percent and no mask, tracker or extra data comes back unchanged.
   */
  lemma FilenameRoundTripExact(info: DetectionInfo)
    requires Encodable(info)
    requires forall i :: 0 <= i < 4 ==> info.supervision.xyxyCoords[i] == info.supervision.xyxyCoords[i].Floor as real
    requires info.frameSize.x == info.frameSize.x.Floor as real && info.frameSize.y == info.frameSize.y.Floor as real
    requires info.when.microsecond == 0
    requires (info.supervision.confidence * 100.0).Floor as real == info.supervision.confidence * 100.0
    requires info.supervision.mask.None? && info.supervision.trackerId.None? && info.supervision.data == map[]
    ensures ParseFilename(EncodeFilename(info)) == Some(info)
  {
    FilenameRoundTrip(info);
    ReloadedWhole(info);
  }

  /** The reloading loses nothing of a detection that is already whole in every field the name carries. */
  lemma ReloadedWhole(info: DetectionInfo)
    requires Encodable(info)
    requires forall i :: 0 <= i < 4 ==> info.supervision.xyxyCoords[i] == info.supervision.xyxyCoords[i].Floor as real
    requires info.frameSize.x == info.frameSize.x.Floor as real && info.frameSize.y == info.frameSize.y.Floor as real
    requires info.when.microsecond == 0
    requires (info.supervision.confidence * 100.0).Floor as real == info.supervision.confidence * 100.0
    requires info.supervision.mask.None? && info.supervision.trackerId.None? && info.supervision.data == map[]
    ensures Reloaded(info) == info
  {
    var c := info.supervision.xyxyCoords;
    forall i | 0 <= i < 4
      ensures TruncToInt(c[i]) as real == c[i]
    {
      WholeTruncates(c[i]);
    }
    WholeTruncates(info.frameSize.x);
    WholeTruncates(info.frameSize.y);
    assert [c[0], c[1], c[2], c[3]] == c;
    WholeRounds(info.supervision.confidence * 100.0);
    assert TruncateToSecond(info.when) == info.when;
  }

  /** A whole number whose truncation is not negative truncates to itself. */
  lemma WholeTruncates(v: real)
    requires v == v.Floor as real && TruncToInt(v) >= 0
    ensures TruncToInt(v) as real == v
  {
  }

  /** A whole number rounds to itself. */
  lemma WholeRounds(v: real)
    requires v.Floor as real == v
    ensures RoundHalfEven(v) as real == v
  {
  }

  /** The encoder writes a negative corner as `-n`, and the parser then rejects the name. */
  lemma NegativeCoordinateRejected(info: DetectionInfo, k: nat)
    requires |info.supervision.xyxyCoords| == 4 && k < 4
    requires info.supervision.cocoClassId >= 0 && info.camId >= 0
    requires forall i :: 0 <= i < k ==> TruncToInt(info.supervision.xyxyCoords[i]) >= 0
    requires TruncToInt(info.supervision.xyxyCoords[k]) < 0
    ensures ParseFilename(EncodeFilename(info)) == None
  {
    var f := NameFields(info);
    FourCornerLayout(info);
    FieldSeparatorsStartWithNonDigit();
    assert IsDigitRun(TimeFields(info.when)[0]);
    ParseFieldsRejectsSign(f, FieldSeparators, " conf" + ConfText(info) + ".jpg", 8 + k);
  }

  /** A name whose fields match but whose date does not exist, such as 30 February, is rejected. */
  lemma InvalidDateRejected(runs: seq<string>, conf: string, dot: char)
    requires |runs| == 14 && forall i :: 0 <= i < 14 ==> IsDigitRun(runs[i])
    requires IsDigitRun(conf) && dot != '\n'
    requires ParseTime(runs[..6]) == None
    ensures ParseFilename(Interleave(runs, FieldSeparators) + (" conf" + conf + [dot] + "jpg")) == None
  {
    MatchFilenameOfLayout(runs, conf, dot);
    assert (runs + [conf])[..6] == runs[..6];
  }
}
