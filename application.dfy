/**
 * The surveillance window's decision logic: the detector's settings slot and one pass of its
 * camera loop, the alert player's queue of sound groups and its path-to-player cache, the
 * placement arithmetic of both overview layouts, the settings read off the controls, and what the
 * window does with a batch of detections.
 */
module Application {
  import opened Wrappers
  import opened Text
  import opened Timestamps
  import opened Common
  import opened Interface
  import opened Lists
  import opened Utility
  import opened HistoryCodec
  import opened History

  // ---------------------------------------------------------------------------------------------
  // The detector
  // ---------------------------------------------------------------------------------------------

  /** The two values `update_model` queues and `configure` receives: class ids and minimum confidence. */
  datatype ModelSettings = ModelSettings(cocoClassIds: seq<int>, confidence: real)

  /** `_FrameInfo`: a picture and the camera it comes from. */
  datatype FrameInfo = FrameInfo(image: Image, camId: int)

  /** `_ImageDetectionsInfo`: an annotated frame, its detections and when they were made. */
  datatype ImageDetectionsInfo = ImageDetectionsInfo(frameInfo: FrameInfo, detections: seq<SvDetection>, when: DateTime)

  /**
   * What the detection thread finds when it comes to one camera: whether shutdown has been
   * requested, the frame `get_latest_frame` hands out (None when none arrived in time) and what
   * the clock reads.
   */
  datatype CamVisit = CamVisit(shutdownPending: bool, frame: Option<Image>, now: DateTime)

  /** What one pass emits, and whether an exception ended it (and with it the detection thread). */
  datatype PassResult = PassResult(emitted: seq<ImageDetectionsInfo>, outcome: Outcome)

  /** The positions whose flag is set, in increasing order. */
  function CheckedIndices(checked: seq<bool>): (idx: seq<int>)
    ensures IndicesWithin(idx, |checked|) && StrictlyIncreasing(idx)
    ensures forall i :: 0 <= i < |checked| ==> (checked[i] <==> i in idx)
  {
    if checked == [] then []
    else
      var n := |checked| - 1;
      var front := CheckedIndices(checked[..n]);
      assert forall i :: 0 <= i < n ==> checked[..n][i] == checked[i];
      if checked[n] then front + [n] else front
  }

  /**
   * The class ids of the interests whose flag is set, in the configured order; flags beyond the
   * interests are not looked at.
   */
  function SelectedClasses(interests: seq<Interest>, checked: seq<bool>): (ids: seq<int>)
    requires |checked| >= |interests|
    ensures var idx := CheckedIndices(checked[..|interests|]);
            |ids| == |idx| && forall k :: 0 <= k < |idx| ==> ids[k] == interests[idx[k]].cocoClassId
    decreases |interests|
  {
    if interests == [] then []
    else
      var n := |interests| - 1;
      var front := SelectedClasses(interests[..n], checked);
      assert checked[..|interests|][..n] == checked[..n];
      if checked[n] then front + [interests[n].cocoClassId] else front
  }

  /** One more interest: its class id is added when its flag is set. */
  lemma SelectedClassesNext(interests: seq<Interest>, checked: seq<bool>, i: nat)
    requires i < |interests| && i < |checked|
    ensures SelectedClasses(interests[..i + 1], checked)
            == SelectedClasses(interests[..i], checked) + (if checked[i] then [interests[i].cocoClassId] else [])
  {
    assert interests[..i + 1][..i] == interests[..i];
  }

  /** The flags `enabled_by_default` of the interests, in order. */
  function EnabledFlags(interests: seq<Interest>): (flags: seq<bool>)
    ensures |flags| == |interests| && forall i :: 0 <= i < |interests| ==> flags[i] == interests[i].enabledByDefault
  {
    if interests == [] then [] else EnabledFlags(interests[..|interests| - 1]) + [interests[|interests| - 1].enabledByDefault]
  }

  /** What the detection thread configures before its loop: the enabled-by-default classes and the initial confidence. */
  function DefaultSettings(c: Configuration): (s: ModelSettings)
    ensures s.confidence == c.initialConfidence
    ensures var idx := CheckedIndices(EnabledFlags(c.interests));
            |s.cocoClassIds| == |idx| && forall k :: 0 <= k < |idx| ==> s.cocoClassIds[k] == c.interests[idx[k]].cocoClassId
  {
    var flags := EnabledFlags(c.interests);
    assert flags[..|c.interests|] == flags;
    ModelSettings(SelectedClasses(c.interests, flags), c.initialConfidence)
  }

  /** Where a pass stops: at the first camera at which shutdown is seen, or after the last one. */
  function StopIndex(visits: seq<CamVisit>): (k: nat)
    ensures k <= |visits| && (k < |visits| ==> visits[k].shutdownPending)
    ensures forall i :: 0 <= i < k ==> !visits[i].shutdownPending
  {
    if visits == [] then 0
    else if visits[0].shutdownPending then 0
    else
      var k := StopIndex(visits[1..]);
      assert forall i :: 1 <= i < |visits| ==> visits[i] == visits[1..][i - 1];
      1 + k
  }

  /**
   * What the pass does at one camera: nothing without a frame; otherwise detect, filter out the
   * ignored and small detections, and emit the annotated frame only when some detection is left.
   * The filter may raise.
   */
  function Emission(
    cam: CamDefinition, visit: CamVisit, settings: ModelSettings,
    detect: (ModelSettings, Image) -> seq<RawDetection>,
    filterIgnored: (seq<RawDetection>, CamDefinition, Point2D) -> Result<seq<RawDetection>>,
    annotate: (Image, seq<RawDetection>) -> Image): (r: Result<Option<ImageDetectionsInfo>>)
    ensures visit.frame.None? ==> r == Ok(None)
    ensures visit.frame.Some? ==>
              var f := visit.frame.value;
              var kept := filterIgnored(detect(settings, f), cam, Point2D(f.width as real, f.height as real));
              && (kept.Err? <==> r.Err?)
              && (kept.Ok? ==> (r.value.Some? <==> |kept.value| > 0))
    ensures r.Ok? && r.value.Some? ==>
              && |r.value.value.detections| > 0
              && r.value.value.frameInfo.camId == cam.id
              && r.value.value.when == visit.now
  {
    if visit.frame.None? then Ok(None)
    else
      var frame := visit.frame.value;
      match filterIgnored(detect(settings, frame), cam, Point2D(frame.width as real, frame.height as real))
      case Err(e) => Err(e)
      case Ok(kept) =>
        if |kept| == 0 then Ok(None)
        else Ok(Some(ImageDetectionsInfo(FrameInfo(annotate(frame, kept), cam.id), ListFromSvDetections(kept), visit.now)))
  }

  /** The emissions of the cameras before `k`, in camera order; an exception ends the pass. */
  function Emissions(
    cams: seq<CamDefinition>, visits: seq<CamVisit>, settings: ModelSettings,
    detect: (ModelSettings, Image) -> seq<RawDetection>,
    filterIgnored: (seq<RawDetection>, CamDefinition, Point2D) -> Result<seq<RawDetection>>,
    annotate: (Image, seq<RawDetection>) -> Image, k: nat): (r: PassResult)
    requires k <= |cams| && k <= |visits|
    ensures |r.emitted| <= k
    ensures forall j :: 0 <= j < |r.emitted| ==> |r.emitted[j].detections| > 0
    decreases k
  {
    if k == 0 then PassResult([], Pass)
    else
      var front := Emissions(cams, visits, settings, detect, filterIgnored, annotate, k - 1);
      if front.outcome.Fail? then front
      else
        match Emission(cams[k - 1], visits[k - 1], settings, detect, filterIgnored, annotate)
        case Err(e) => PassResult(front.emitted, Fail(e))
        case Ok(None) => front
        case Ok(Some(info)) => PassResult(front.emitted + [info], Pass)
  }

  /** One more camera after a prefix that did not raise: its emission decides what is added. */
  lemma EmissionsNext(
    cams: seq<CamDefinition>, visits: seq<CamVisit>, settings: ModelSettings,
    detect: (ModelSettings, Image) -> seq<RawDetection>,
    filterIgnored: (seq<RawDetection>, CamDefinition, Point2D) -> Result<seq<RawDetection>>,
    annotate: (Image, seq<RawDetection>) -> Image, k: nat)
    requires k < |cams| && k < |visits|
    requires Emissions(cams, visits, settings, detect, filterIgnored, annotate, k).outcome.Pass?
    ensures var front := Emissions(cams, visits, settings, detect, filterIgnored, annotate, k);
            var e := Emission(cams[k], visits[k], settings, detect, filterIgnored, annotate);
            Emissions(cams, visits, settings, detect, filterIgnored, annotate, k + 1)
            == if e.Err? then PassResult(front.emitted, Fail(e.error))
               else if e.value.Some? then PassResult(front.emitted + [e.value.value], Pass)
               else front
  {
  }

  /** Once the cameras before `j` raised, the rest of the pass adds nothing. */
  lemma {:induction false} EmissionsFailsFromPrefix(
    cams: seq<CamDefinition>, visits: seq<CamVisit>, settings: ModelSettings,
    detect: (ModelSettings, Image) -> seq<RawDetection>,
    filterIgnored: (seq<RawDetection>, CamDefinition, Point2D) -> Result<seq<RawDetection>>,
    annotate: (Image, seq<RawDetection>) -> Image, j: nat, k: nat)
    requires j <= k <= |cams| && k <= |visits|
    requires Emissions(cams, visits, settings, detect, filterIgnored, annotate, j).outcome.Fail?
    ensures Emissions(cams, visits, settings, detect, filterIgnored, annotate, k)
            == Emissions(cams, visits, settings, detect, filterIgnored, annotate, j)
    decreases k
  {
    if k > j {
      EmissionsFailsFromPrefix(cams, visits, settings, detect, filterIgnored, annotate, j, k - 1);
    }
  }

  /**
   * Shutdown is checked before each camera: what the cameras at and after the stop would have
   * shown makes no difference to the pass.
   */
  lemma {:induction false} EmissionsIgnoreLaterVisits(
    cams: seq<CamDefinition>, visits: seq<CamVisit>, others: seq<CamVisit>, settings: ModelSettings,
    detect: (ModelSettings, Image) -> seq<RawDetection>,
    filterIgnored: (seq<RawDetection>, CamDefinition, Point2D) -> Result<seq<RawDetection>>,
    annotate: (Image, seq<RawDetection>) -> Image, k: nat)
    requires k <= |cams| && k <= |visits| && k <= |others|
    requires visits[..k] == others[..k]
    ensures Emissions(cams, visits, settings, detect, filterIgnored, annotate, k)
            == Emissions(cams, others, settings, detect, filterIgnored, annotate, k)
    decreases k
  {
    if k > 0 {
      assert visits[..k - 1] == visits[..k][..k - 1] && others[..k - 1] == others[..k][..k - 1];
      assert visits[k - 1] == visits[..k][k - 1] && others[k - 1] == others[..k][k - 1];
      EmissionsIgnoreLaterVisits(cams, visits, others, settings, detect, filterIgnored, annotate, k - 1);
    }
  }

  /** The pending settings are taken when present; otherwise the last ones configured stay in force. */
  function InForce(pending: Option<ModelSettings>, configured: seq<ModelSettings>): (s: ModelSettings)
    requires configured != []
    ensures pending.Some? ==> s == pending.value
    ensures pending.None? ==> s == configured[|configured| - 1]
  {
    if pending.Some? then pending.value else configured[|configured| - 1]
  }

  /**
   * The `configure` calls after the pending pair, if any, is applied: the calls made before, then
   * that pair; the settings in force are then the last call's.
   */
  function Configured(pending: Option<ModelSettings>, configured: seq<ModelSettings>): (calls: seq<ModelSettings>)
    requires configured != []
    ensures |calls| == |configured| + (if pending.Some? then 1 else 0)
    ensures calls[..|configured|] == configured && calls[|calls| - 1] == InForce(pending, configured)
  {
    if pending.Some? then configured + [pending.value] else configured
  }

  /** `_Detector`: the settings slot shared with the window and the detection loop's state. */
  class Detector {
    const configuration: Configuration
    /** `_model_update_queue`, of capacity 1. */
    var pendingUpdate: Option<ModelSettings>
    /** Every `configure` call made on the detection logic, in order. */
    var configureCalls: seq<ModelSettings>

    constructor (configuration: Configuration)
      ensures this.configuration == configuration && pendingUpdate == None && configureCalls == []
    {
      this.configuration := configuration;
      pendingUpdate := None;
      configureCalls := [];
    }

    /** `update_model`: drop whatever is pending and leave exactly the new pair. */
    method UpdateModel(cocoClassIds: seq<int>, confidence: real)
      modifies this
      ensures pendingUpdate == Some(ModelSettings(cocoClassIds, confidence))
      ensures configureCalls == old(configureCalls)
    {
      if pendingUpdate.Some? {
        pendingUpdate := None;
      }
      pendingUpdate := Some(ModelSettings(cocoClassIds, confidence));
    }

    /** The start of `_detector_process`: configure the default classes and the initial confidence. */
    method ConfigureDefaults()
      modifies this
      ensures configureCalls == old(configureCalls) + [DefaultSettings(configuration)]
      ensures pendingUpdate == old(pendingUpdate)
    {
      var classes := [];
      var i := 0;
      while i < |configuration.interests|
        invariant 0 <= i <= |configuration.interests|
        invariant classes == SelectedClasses(configuration.interests[..i], EnabledFlags(configuration.interests))
        invariant pendingUpdate == old(pendingUpdate) && configureCalls == old(configureCalls)
      {
        SelectedClassesNext(configuration.interests, EnabledFlags(configuration.interests), i);
        if configuration.interests[i].enabledByDefault {
          classes := classes + [configuration.interests[i].cocoClassId];
        }
        i := i + 1;
      }
      assert configuration.interests[..i] == configuration.interests;
      assert ModelSettings(classes, configuration.initialConfidence) == DefaultSettings(configuration);
      configureCalls := configureCalls + [ModelSettings(classes, configuration.initialConfidence)];
    }

    /**
     * One round of the `for` loop of `_detector_process`, over the cameras in configuration order.
     * Before each camera it checks for shutdown and takes a pending settings pair, applying both
     * values in one `configure`; a camera without a frame is skipped; a frame whose filtered
     * detections are empty emits nothing. `detect`, `filterIgnored` and `annotate` stand for the
     * detection logic, the ignore list's filter and the box annotator.
     */
    method DetectorPass(
      visits: seq<CamVisit>,
      detect: (ModelSettings, Image) -> seq<RawDetection>,
      filterIgnored: (seq<RawDetection>, CamDefinition, Point2D) -> Result<seq<RawDetection>>,
      annotate: (Image, seq<RawDetection>) -> Image)
      returns (emitted: seq<ImageDetectionsInfo>, outcome: Outcome)
      requires |visits| == |configuration.camDefinitions| && configureCalls != []
      modifies this
      ensures StopIndex(visits) == 0 ==> pendingUpdate == old(pendingUpdate) && configureCalls == old(configureCalls)
      ensures StopIndex(visits) > 0 ==>
                pendingUpdate == None && configureCalls == Configured(old(pendingUpdate), old(configureCalls))
      ensures PassResult(emitted, outcome)
              == Emissions(configuration.camDefinitions, visits, InForce(old(pendingUpdate), old(configureCalls)),
                           detect, filterIgnored, annotate, StopIndex(visits))
    {
      var cams := configuration.camDefinitions;
      ghost var settings := InForce(pendingUpdate, configureCalls);
      ghost var stop := StopIndex(visits);
      emitted := [];
      outcome := Pass;
      var i := 0;
      while i < |cams|
        invariant 0 <= i <= stop
        invariant i == 0 ==> pendingUpdate == old(pendingUpdate) && configureCalls == old(configureCalls)
        invariant i > 0 ==> pendingUpdate == None && configureCalls == Configured(old(pendingUpdate), old(configureCalls))
        invariant PassResult(emitted, Pass) == Emissions(cams, visits, settings, detect, filterIgnored, annotate, i)
      {
        if visits[i].shutdownPending {
          assert i == stop;
          return;
        }
        var step: Outcome;
        emitted, step := VisitNext(visits, detect, filterIgnored, annotate, i, settings, emitted);
        if step.Fail? {
          outcome := step;
          EmissionsFailsFromPrefix(cams, visits, settings, detect, filterIgnored, annotate, i + 1, stop);
          return;
        }
        i := i + 1;
      }
    }

    /** The loop body of the pass at camera `i`: take pending settings, then visit the camera. */
    method VisitNext(
      visits: seq<CamVisit>,
      detect: (ModelSettings, Image) -> seq<RawDetection>,
      filterIgnored: (seq<RawDetection>, CamDefinition, Point2D) -> Result<seq<RawDetection>>,
      annotate: (Image, seq<RawDetection>) -> Image,
      i: nat, ghost settings: ModelSettings, emitted: seq<ImageDetectionsInfo>)
      returns (grown: seq<ImageDetectionsInfo>, outcome: Outcome)
      requires i < |configuration.camDefinitions| == |visits| && configureCalls != []
      requires settings == InForce(pendingUpdate, configureCalls)
      requires PassResult(emitted, Pass) == Emissions(configuration.camDefinitions, visits, settings, detect, filterIgnored, annotate, i)
      modifies this
      ensures pendingUpdate == None && configureCalls == Configured(old(pendingUpdate), old(configureCalls))
      ensures PassResult(grown, outcome)
              == Emissions(configuration.camDefinitions, visits, settings, detect, filterIgnored, annotate, i + 1)
    {
      TakePending();
      var current := configureCalls[|configureCalls| - 1];
      var shown := VisitCamera(configuration.camDefinitions[i], visits[i], current, detect, filterIgnored, annotate);
      EmissionsNext(configuration.camDefinitions, visits, settings, detect, filterIgnored, annotate, i);
      if shown.Err? {
        return emitted, Fail(shown.error);
      }
      grown := emitted;
      if shown.value.Some? {
        grown := grown + [shown.value.value];
      }
      outcome := Pass;
    }

    /** The settings step before each camera: a pending pair is configured and the slot emptied. */
    method TakePending()
      requires configureCalls != []
      modifies this
      ensures pendingUpdate == None && configureCalls == Configured(old(pendingUpdate), old(configureCalls))
    {
      if pendingUpdate.Some? {
        configureCalls := configureCalls + [pendingUpdate.value];
        pendingUpdate := None;
      }
    }

    /** The body of the pass at one camera, with the settings in force. */
    method VisitCamera(
      cam: CamDefinition, visit: CamVisit, current: ModelSettings,
      detect: (ModelSettings, Image) -> seq<RawDetection>,
      filterIgnored: (seq<RawDetection>, CamDefinition, Point2D) -> Result<seq<RawDetection>>,
      annotate: (Image, seq<RawDetection>) -> Image)
      returns (shown: Result<Option<ImageDetectionsInfo>>)
      ensures shown == Emission(cam, visit, current, detect, filterIgnored, annotate)
    {
      if visit.frame.None? {
        return Ok(None);
      }
      var frame := visit.frame.value;
      var kept := filterIgnored(detect(current, frame), cam, Point2D(frame.width as real, frame.height as real));
      if kept.Err? {
        return Err(kept.error);
      }
      if |kept.value| > 0 {
        shown := Ok(Some(ImageDetectionsInfo(FrameInfo(annotate(frame, kept.value), cam.id), ListFromSvDetections(kept.value), visit.now)));
      } else {
        shown := Ok(None);
      }
    }
  }

  // ---------------------------------------------------------------------------------------------
  // The alert player
  // ---------------------------------------------------------------------------------------------

  /** At most this many detections of a batch contribute an interest sound. */
  const MaxAlertDetections: nat := 5

  /** The states `QMediaPlayer.mediaStatusChanged` reports. */
  datatype MediaStatus =
    NoMedia | LoadingMedia | LoadedMedia | StalledMedia | BufferingMedia | BufferedMedia | EndOfMedia | InvalidMedia

  /** A `QMediaPlayer` created for one sound file. */
  class MediaPlayer {
    const source: string

    constructor (source: string)
      ensures this.source == source
    {
      this.source := source;
    }
  }

  /** The sound paths a lookup chain collected, and whether a lookup raised on the way. */
  datatype Gathering = Gathering(paths: seq<string>, outcome: Outcome)

  /** The path of an optional sound, as a list of zero or one paths. */
  function OptionalPath(p: Option<string>): (paths: seq<string>)
    ensures p.None? ==> paths == []
    ensures p.Some? ==> paths == [p.value]
  {
    if p.Some? then [p.value] else []
  }

  /**
   * For each detection in turn, look its interest up (which raises for an unknown class) and take
   * its sound when it has one.
   */
  function InterestSounds(interests: seq<Interest>, detections: seq<SvDetection>): (g: Gathering)
    ensures |g.paths| <= |detections|
    ensures g.outcome.Fail? ==> g.outcome.error == ValueError("Unknown coco class ID.")
    decreases |detections|
  {
    if detections == [] then Gathering([], Pass)
    else
      var n := |detections| - 1;
      var front := InterestSounds(interests, detections[..n]);
      if front.outcome.Fail? then front
      else
        match GetInterest(interests, detections[n].cocoClassId)
        case Err(e) => Gathering(front.paths, Fail(e))
        case Ok(interest) => Gathering(front.paths + OptionalPath(interest.soundAlertPath), Pass)
  }

  /** Once the lookups of a prefix raised, the later detections are not looked at. */
  lemma {:induction false} InterestSoundsFailsFromPrefix(interests: seq<Interest>, detections: seq<SvDetection>, k: nat)
    requires k <= |detections| && InterestSounds(interests, detections[..k]).outcome.Fail?
    ensures InterestSounds(interests, detections) == InterestSounds(interests, detections[..k])
    decreases |detections| - k
  {
    if k < |detections| {
      var n := |detections| - 1;
      assert detections[..n][..k] == detections[..k];
      InterestSoundsFailsFromPrefix(interests, detections[..n], k);
      InterestSoundsKeepsFailure(interests, detections);
    } else {
      assert detections[..k] == detections;
    }
  }

  /** A failure before the last detection is the outcome of the whole. */
  lemma InterestSoundsKeepsFailure(interests: seq<Interest>, detections: seq<SvDetection>)
    requires detections != [] && InterestSounds(interests, detections[..|detections| - 1]).outcome.Fail?
    ensures InterestSounds(interests, detections) == InterestSounds(interests, detections[..|detections| - 1])
  {
  }

  /** The first `MaxAlertDetections` detections of a batch, or all when there are fewer. */
  function Leading(detections: seq<SvDetection>): (lead: seq<SvDetection>)
    ensures |lead| <= MaxAlertDetections && |lead| <= |detections| && lead == detections[..|lead|]
    ensures |detections| <= MaxAlertDetections ==> lead == detections
  {
    if |detections| <= MaxAlertDetections then detections else detections[..MaxAlertDetections]
  }

  /**
   * The sounds `try_alert` gathers for a batch seen by a camera: the interest sounds of the first
   * five detections, then the camera's sound. Either lookup can raise ValueError.
   */
  function AlertSounds(c: Configuration, camId: int, detections: seq<SvDetection>): (g: Gathering)
    ensures |g.paths| <= MaxAlertDetections + 1
    ensures g.outcome.Pass? ==>
              && GetCamDefinition(c.camDefinitions, camId).Ok?
              && g.paths == InterestSounds(c.interests, Leading(detections)).paths
                            + OptionalPath(GetCamDefinition(c.camDefinitions, camId).value.soundAlertPath)
  {
    var first := InterestSounds(c.interests, Leading(detections));
    if first.outcome.Fail? then first
    else
      match GetCamDefinition(c.camDefinitions, camId)
      case Err(e) => Gathering(first.paths, Fail(e))
      case Ok(cam) => Gathering(first.paths + OptionalPath(cam.soundAlertPath), Pass)
  }

  /** Gathering the interest sounds fails exactly when some detection's class is not configured. */
  lemma {:induction false} InterestSoundsPassIffKnown(interests: seq<Interest>, detections: seq<SvDetection>)
    ensures InterestSounds(interests, detections).outcome.Pass?
            <==> forall k :: 0 <= k < |detections| ==> GetInterest(interests, detections[k].cocoClassId).Ok?
    decreases |detections|
  {
    if detections != [] {
      var n := |detections| - 1;
      var front := detections[..n];
      InterestSoundsPassIffKnown(interests, front);
      assert InterestSounds(interests, detections).outcome.Pass?
             <==> InterestSounds(interests, front).outcome.Pass? && GetInterest(interests, detections[n].cocoClassId).Ok?;
      assert forall k :: 0 <= k < n ==> detections[k] == front[k];
    }
  }

  /**
   * An alert's sounds are gathered without an exception exactly when the classes of its first five
   * detections and its camera are all configured.
   */
  lemma AlertSoundsPassIffKnown(c: Configuration, camId: int, detections: seq<SvDetection>)
    ensures AlertSounds(c, camId, detections).outcome.Pass? <==>
              && (forall k :: 0 <= k < |Leading(detections)| ==> GetInterest(c.interests, detections[k].cocoClassId).Ok?)
              && GetCamDefinition(c.camDefinitions, camId).Ok?
  {
    InterestSoundsPassIffKnown(c.interests, Leading(detections));
  }

  /** Every queued group holds at least one and at most six sounds. */
  predicate WellFormedQueue(queue: seq<seq<MediaPlayer>>) {
    forall i :: 0 <= i < |queue| ==> 0 < |queue[i]| <= MaxAlertDetections + 1
  }

  /** The playback side of the alert player: the ready flag, the queue of groups, the sounds played so far. */
  datatype Playback = Playback(readyToPlay: bool, soundQueue: seq<seq<MediaPlayer>>, played: seq<MediaPlayer>)

  /**
   * `_try_play_next_sound`: when ready and something is queued, clear the flag and play the first
   * sound of the first group, dropping that group once it is empty.
   */
  function PlayNext(p: Playback): (r: Playback)
    requires WellFormedQueue(p.soundQueue)
    ensures WellFormedQueue(r.soundQueue)
    ensures r.played + Flatten(r.soundQueue) == p.played + Flatten(p.soundQueue)
    ensures !(p.readyToPlay && |p.soundQueue| > 0) ==> r == p
    ensures p.readyToPlay && |p.soundQueue| > 0 ==>
              && !r.readyToPlay && r.played == p.played + [p.soundQueue[0][0]]
              && |Flatten(r.soundQueue)| + 1 == |Flatten(p.soundQueue)|
  {
    if p.readyToPlay && |p.soundQueue| > 0 then
      var group := p.soundQueue[0];
      var rest := p.soundQueue[1..];
      var left := if |group| == 1 then rest else [group[1..]] + rest;
      TakeFirstSound(p.soundQueue, left);
      assert (p.played + [group[0]]) + Flatten(left) == p.played + ([group[0]] + Flatten(left));
      assert WellFormedQueue(left) by {
        if |group| > 1 {
          assert forall i :: 1 <= i < |left| ==> left[i] == p.soundQueue[i];
        }
      }
      Playback(false, left, p.played + [group[0]])
    else p
  }

  /** Taking the first sound off the first group leaves the rest of the sounds, in order. */
  lemma TakeFirstSound<T>(queue: seq<seq<T>>, left: seq<seq<T>>)
    requires |queue| > 0 && |queue[0]| > 0
    requires left == if |queue[0]| == 1 then queue[1..] else [queue[0][1..]] + queue[1..]
    ensures [queue[0][0]] + Flatten(left) == Flatten(queue)
  {
    var group, rest := queue[0], queue[1..];
    assert queue == [group] + rest;
    FlattenCons(group, rest);
    if |group| == 1 {
      assert group == [group[0]];
    } else {
      FlattenCons(group[1..], rest);
      calc {
        [group[0]] + Flatten(left);
        [group[0]] + (group[1..] + Flatten(rest));
        ([group[0]] + group[1..]) + Flatten(rest);
        { assert [group[0]] + group[1..] == group; }
        group + Flatten(rest);
      }
    }
  }

  /**
   * The end of `try_alert`: an empty group is not queued; otherwise it goes to the back of the
   * queue and the next sound is tried.
   */
  function Enqueue(p: Playback, group: seq<MediaPlayer>): (r: Playback)
    requires WellFormedQueue(p.soundQueue) && |group| <= MaxAlertDetections + 1
    ensures WellFormedQueue(r.soundQueue)
    ensures r.played + Flatten(r.soundQueue) == p.played + Flatten(p.soundQueue) + group
    ensures group == [] ==> r == p
    ensures group != [] && !p.readyToPlay ==> r == p.(soundQueue := p.soundQueue + [group])
    ensures group != [] && p.readyToPlay ==>
              && !r.readyToPlay && r.played == p.played + [(p.soundQueue + [group])[0][0]]
              && |Flatten(r.soundQueue)| + 1 == |Flatten(p.soundQueue)| + |group|
  {
    if group == [] then p
    else
      FlattenAppend(p.soundQueue, [group]);
      assert Flatten([group]) == group by {
        assert [group][..0] == [];
      }
      PlayNext(p.(soundQueue := p.soundQueue + [group]))
  }

  /** The players cached for the paths, in the order of the paths. */
  function PlayersFor(players: map<string, MediaPlayer>, paths: seq<string>): (r: seq<MediaPlayer>)
    requires PathSet(paths) <= players.Keys
    ensures |r| == |paths|
  {
    if paths == [] then [] else PlayersFor(players, paths[..|paths| - 1]) + [players[paths[|paths| - 1]]]
  }

  /** The player at each position is the one cached for the path at that position. */
  lemma {:induction false} PlayersForElements(players: map<string, MediaPlayer>, paths: seq<string>)
    requires PathSet(paths) <= players.Keys
    ensures forall i :: 0 <= i < |paths| ==> paths[i] in players && PlayersFor(players, paths)[i] == players[paths[i]]
  {
    if paths != [] {
      var n := |paths| - 1;
      PlayersForElements(players, paths[..n]);
      assert forall i :: 0 <= i < n ==> paths[..n][i] == paths[i];
    }
  }

  /** `_AlertPlayer`. */
  class AlertPlayer {
    const configuration: Configuration
    /** `_sound_path_to_media_player`. */
    var players: map<string, MediaPlayer>
    var soundQueue: seq<seq<MediaPlayer>>
    var readyToPlay: bool
    /** Every `play()` call, in order. */
    var played: seq<MediaPlayer>

    predicate Valid()
      reads this
    {
      && WellFormedQueue(soundQueue)
      && forall path :: path in players ==> players[path].source == path
    }

    function Current(): Playback
      reads this
    {
      Playback(readyToPlay, soundQueue, played)
    }

    constructor (configuration: Configuration)
      ensures Valid() && this.configuration == configuration
      ensures readyToPlay && soundQueue == [] && players == map[] && played == []
    {
      this.configuration := configuration;
      readyToPlay := true;
      soundQueue := [];
      players := map[];
      played := [];
    }

    /** `get_sound`: the cached player for the path, or a new one that is then cached. */
    method GetSound(path: string) returns (player: MediaPlayer)
      requires Valid()
      modifies this
      ensures Valid() && Current() == old(Current())
      ensures path in old(players) ==> player == old(players)[path] && players == old(players)
      ensures path !in old(players) ==> fresh(player) && player.source == path && players == old(players)[path := player]
    {
      if path in players {
        return players[path];
      }
      player := new MediaPlayer(path);
      players := players[path := player];
    }

    /** `_try_play_next_sound`. */
    method TryPlayNextSound()
      requires Valid()
      modifies this
      ensures Valid() && players == old(players)
      ensures Current() == PlayNext(old(Current()))
    {
      if readyToPlay && |soundQueue| > 0 {
        readyToPlay := false;
        var group := soundQueue[0];
        var player := group[0];
        if |group| == 1 {
          soundQueue := soundQueue[1..];
        } else {
          soundQueue := [group[1..]] + soundQueue[1..];
        }
        played := played + [player];
      }
    }

    /** `_on_media_status_change`: only the end of a sound makes the player ready again. */
    method OnMediaStatusChange(status: MediaStatus)
      requires Valid()
      modifies this
      ensures Valid() && players == old(players)
      ensures status == EndOfMedia ==> Current() == PlayNext(old(Current()).(readyToPlay := true))
      ensures status != EndOfMedia ==> Current() == old(Current())
    {
      if status == EndOfMedia {
        readyToPlay := true;
        TryPlayNextSound();
      }
    }

    /** `get_sound` for an optional path: no player for no path. */
    method FetchSound(path: Option<string>) returns (fetched: seq<MediaPlayer>)
      requires Valid()
      modifies this
      ensures Valid() && Current() == old(Current())
      ensures CacheGrew(old(players), players, OptionalPath(path))
      ensures fetched == PlayersFor(players, OptionalPath(path))
    {
      if path.None? {
        return [];
      }
      var player := GetSound(path.value);
      fetched := [player];
      assert OptionalPath(path)[..0] == [];
    }

    /**
     * The loop of `try_alert`: look up the interest of each detection and fetch the player for its
     * sound; a failed lookup raises after the players fetched before it.
     */
    method CollectInterestSounds(lead: seq<SvDetection>) returns (sounds: seq<MediaPlayer>, outcome: Outcome)
      requires Valid()
      modifies this
      ensures Valid() && Current() == old(Current())
      ensures var g := InterestSounds(configuration.interests, lead);
              && outcome == g.outcome
              && CacheGrew(old(players), players, g.paths)
              && sounds == PlayersFor(players, g.paths)
    {
      ghost var paths: seq<string> := [];
      sounds := [];
      var i := 0;
      while i < |lead|
        invariant 0 <= i <= |lead| && Valid() && Current() == old(Current())
        invariant Collected(lead[..i], old(players), paths, sounds)
      {
        var step: Outcome;
        sounds, step, paths := CollectNext(lead, i, old(players), paths, sounds);
        if step.Fail? {
          return sounds, step;
        }
        i := i + 1;
      }
      assert lead[..i] == lead;
      outcome := Pass;
    }

    /**
     * The lookups for `prefix` passed and found `paths`; the cache grew from `start` by their
     * players, and `sounds` are those players in order.
     */
    ghost predicate Collected(prefix: seq<SvDetection>, start: map<string, MediaPlayer>, paths: seq<string>,
                              sounds: seq<MediaPlayer>)
      reads this
    {
      && InterestSounds(configuration.interests, prefix) == Gathering(paths, Pass)
      && CacheGrew(start, players, paths) && sounds == PlayersFor(players, paths)
    }

    /**
     * One turn of `try_alert`'s loop: look up the interest of detection `i` and fetch the player
     * for its sound, or raise when the class is not configured.
     */
    method CollectNext(lead: seq<SvDetection>, i: nat, ghost start: map<string, MediaPlayer>, ghost paths: seq<string>,
                       sounds: seq<MediaPlayer>)
      returns (grown: seq<MediaPlayer>, outcome: Outcome, ghost grownPaths: seq<string>)
      requires Valid() && i < |lead| && Collected(lead[..i], start, paths, sounds)
      modifies this
      ensures Valid() && Current() == old(Current())
      ensures outcome.Fail? ==>
                && InterestSounds(configuration.interests, lead) == Gathering(paths, outcome)
                && grown == sounds && players == old(players) && grownPaths == paths
      ensures outcome.Pass? ==> Collected(lead[..i + 1], start, grownPaths, grown)
    {
      assert lead[..i + 1][..i] == lead[..i];
      var found := GetInterest(configuration.interests, lead[i].cocoClassId);
      if found.Err? {
        InterestSoundsFailsFromPrefix(configuration.interests, lead, i + 1);
        return sounds, Fail(found.error), paths;
      }
      ghost var before := players;
      var fetched := FetchSound(found.value.soundAlertPath);
      CacheGrewAppend(start, before, players, paths, OptionalPath(found.value.soundAlertPath));
      grownPaths := paths + OptionalPath(found.value.soundAlertPath);
      grown := sounds + fetched;
      outcome := Pass;
    }

    /**
     * `try_alert`: gather the sounds of the batch, creating players on the way, then queue the
     * group and try to play. A failed lookup raises after the players made before it.
     */
    method TryAlert(camId: int, detections: seq<SvDetection>) returns (outcome: Outcome)
      requires Valid()
      modifies this
      ensures Valid()
      ensures var g := AlertSounds(configuration, camId, detections);
              && outcome == g.outcome
              && CacheGrew(old(players), players, g.paths)
              && (g.outcome.Fail? ==> Current() == old(Current()))
              && (g.outcome.Pass? ==> Current() == Enqueue(old(Current()), PlayersFor(players, g.paths)))
    {
      var sounds;
      sounds, outcome := CollectInterestSounds(Leading(detections));
      ghost var paths := InterestSounds(configuration.interests, Leading(detections)).paths;
      if outcome.Fail? {
        return;
      }
      var cam := GetCamDefinition(configuration.camDefinitions, camId);
      if cam.Err? {
        return Fail(cam.error);
      }
      ghost var before := players;
      var fetched := FetchSound(cam.value.soundAlertPath);
      CacheGrewAppend(old(players), before, players, paths, OptionalPath(cam.value.soundAlertPath));
      paths := paths + OptionalPath(cam.value.soundAlertPath);
      sounds := sounds + fetched;
      if |sounds| == 0 {
        return Pass;
      }
      soundQueue := soundQueue + [sounds];
      TryPlayNextSound();
      outcome := Pass;
    }
  }

  /** The distinct paths of a list. */
  function PathSet(paths: seq<string>): set<string>
  {
    if paths == [] then {} else PathSet(paths[..|paths| - 1]) + {paths[|paths| - 1]}
  }

  /** Every path of the list is in its set, and nothing else is. */
  lemma {:induction false} PathSetMembers(paths: seq<string>)
    ensures forall i :: 0 <= i < |paths| ==> paths[i] in PathSet(paths)
    ensures forall p :: p in PathSet(paths) ==> p in paths
  {
    if paths != [] {
      PathSetMembers(paths[..|paths| - 1]);
    }
  }

  /**
   * The cache grew by the players for `paths`: it holds exactly the earlier entries and one for
   * each path, and the earlier entries are unchanged.
   */
  predicate CacheGrew(before: map<string, MediaPlayer>, after: map<string, MediaPlayer>, paths: seq<string>) {
    && after.Keys == before.Keys + PathSet(paths)
    && (forall path :: path in before ==> after[path] == before[path])
  }

  /** The paths of a concatenation are those of its parts. */
  lemma {:induction false} PathSetAppend(a: seq<string>, b: seq<string>)
    ensures PathSet(a + b) == PathSet(a) + PathSet(b)
    decreases |b|
  {
    if b != [] {
      var m := |b| - 1;
      var ab := a + b;
      assert ab[..|ab| - 1] == a + b[..m];
      assert ab[|ab| - 1] == b[m];
      PathSetAppend(a, b[..m]);
      assert PathSet(ab) == PathSet(a + b[..m]) + {b[m]};
    } else {
      assert a + b == a;
    }
  }

  /** Growing the cache by two lists of paths grows it by their concatenation. */
  lemma CacheGrewAppend(
    start: map<string, MediaPlayer>, middle: map<string, MediaPlayer>, end: map<string, MediaPlayer>,
    first: seq<string>, second: seq<string>)
    requires CacheGrew(start, middle, first) && CacheGrew(middle, end, second)
    ensures CacheGrew(start, end, first + second)
    ensures PlayersFor(end, first + second) == PlayersFor(middle, first) + PlayersFor(end, second)
  {
    PathSetAppend(first, second);
    PlayersForAgree(middle, end, first);
    PlayersForAppend(end, first, second);
  }

  /** Two caches that agree on the paths give the same players for them. */
  lemma {:induction false} PlayersForAgree(m1: map<string, MediaPlayer>, m2: map<string, MediaPlayer>, paths: seq<string>)
    requires PathSet(paths) <= m1.Keys && PathSet(paths) <= m2.Keys
    requires forall p :: p in PathSet(paths) ==> m1[p] == m2[p]
    ensures PlayersFor(m1, paths) == PlayersFor(m2, paths)
  {
    if paths != [] {
      PlayersForAgree(m1, m2, paths[..|paths| - 1]);
    }
  }

  /** The players for a concatenation are those for its parts. */
  lemma PlayersForAppend(players: map<string, MediaPlayer>, a: seq<string>, b: seq<string>)
    requires PathSet(a + b) <= players.Keys && PathSet(a) <= players.Keys && PathSet(b) <= players.Keys
    ensures PlayersFor(players, a + b) == PlayersFor(players, a) + PlayersFor(players, b)
  {
    PlayersForElements(players, a + b);
    PlayersForElements(players, a);
    PlayersForElements(players, b);
    assert forall i :: 0 <= i < |a| ==> (a + b)[i] == a[i];
    assert forall i :: |a| <= i < |a + b| ==> (a + b)[i] == b[i - |a|];
  }

  // ---------------------------------------------------------------------------------------------
  // The overview layouts
  // ---------------------------------------------------------------------------------------------

  /** Python's `math.floor(a / c)` on integers: the quotient rounded toward minus infinity. */
  function FloorDiv(a: int, c: int): (q: int)
    requires c != 0
    ensures c > 0 ==> q * c <= a < q * c + c
    ensures c < 0 ==> q * c >= a > q * c + c
  {
    if c > 0 then a / c else (-a) / (-c)
  }

  /** Python's `math.ceil(a / c)` on integers: the quotient rounded toward plus infinity. */
  function CeilDiv(a: int, c: int): (q: int)
    requires c != 0
    ensures c > 0 ==> q * c - c < a <= q * c
  {
    -FloorDiv(-a, c)
  }

  /** Python's `a % c`: the remainder takes the sign of the divisor. */
  function PyMod(a: int, c: int): (m: int)
    requires c != 0
    ensures a == FloorDiv(a, c) * c + m
    ensures c > 0 ==> 0 <= m < c
    ensures c < 0 ==> c < m <= 0
  {
    a - FloorDiv(a, c) * c
  }

  /** A grid position. */
  datatype Cell = Cell(row: int, column: int)

  /**
   * `_OverviewAutoLayout.addWidget` for the widget added as number `index`, the live views of the
   * `camCount` cameras coming first and their annotation widgets after them: live views fill the
   * grid row by row, and the annotation widgets do the same starting on the first row below them.
   * A column count of zero raises ZeroDivisionError.
   */
  function AutoLayoutCell(camCount: nat, columns: int, index: nat): (r: Result<Cell>)
    ensures r.Err? <==> columns == 0
    ensures r.Err? ==> r.error == OtherException("ZeroDivisionError")
  {
    if columns == 0 then Err(OtherException("ZeroDivisionError"))
    else if index >= camCount then
      var k := index - camCount;
      Ok(Cell(CeilDiv(camCount, columns) + FloorDiv(k, columns), PyMod(k, columns)))
    else Ok(Cell(FloorDiv(index, columns), PyMod(index, columns)))
  }

  /** Every widget lands inside the grid: a column in `[0, columns)` and a row that is not negative. */
  lemma AutoLayoutInGrid(camCount: nat, columns: int, index: nat)
    requires columns > 0
    ensures var r := AutoLayoutCell(camCount, columns, index);
            r.Ok? && 0 <= r.value.column < columns && 0 <= r.value.row
  {
    if index >= camCount {
      assert 0 <= CeilDiv(camCount, columns);
      assert 0 <= FloorDiv(index - camCount, columns);
    } else {
      assert 0 <= FloorDiv(index, columns);
    }
  }

  /**
   * The annotation widget of camera `i` sits in the same column as the camera's live view,
   * `ceil(camCount / columns)` rows lower; the live views all sit above that row.
   */
  lemma AutoLayoutAnnotationBelow(camCount: nat, columns: int, i: nat)
    requires columns > 0 && i < camCount
    ensures var live := AutoLayoutCell(camCount, columns, i);
            var annotation := AutoLayoutCell(camCount, columns, camCount + i);
            && live.Ok? && annotation.Ok?
            && annotation.value.column == live.value.column
            && annotation.value.row == live.value.row + CeilDiv(camCount, columns)
            && live.value.row < CeilDiv(camCount, columns) <= annotation.value.row
  {
    var q := FloorDiv(i, columns);
    var ceil := CeilDiv(camCount, columns);
    assert camCount + i - camCount == i;
    LessOfProductLess(q, ceil, columns);
    FloorDivNonNegative(i, columns);
  }

  /** Dividing both sides of a strict inequality by a positive factor keeps it. */
  lemma LessOfProductLess(a: int, b: int, c: int)
    requires c > 0 && a * c < b * c
    ensures a < b
  {
  }

  /** The floor quotient of a non-negative number by a positive one is not negative. */
  lemma FloorDivNonNegative(a: int, c: int)
    requires a >= 0 && c > 0
    ensures FloorDiv(a, c) >= 0
  {
  }

  /** Within one group, the grid position determines the index. */
  lemma GridPositionDetermines(a: int, b: int, columns: int)
    requires columns > 0 && a != b
    ensures FloorDiv(a, columns) != FloorDiv(b, columns) || PyMod(a, columns) != PyMod(b, columns)
  {
  }

  /** The `2 * camCount` widgets of the overview get pairwise different positions. */
  lemma AutoLayoutDistinct(camCount: nat, columns: int, i: nat, j: nat)
    requires columns > 0 && i < j < 2 * camCount
    ensures AutoLayoutCell(camCount, columns, i) != AutoLayoutCell(camCount, columns, j)
  {
    if j < camCount {
      GridPositionDetermines(i, j, columns);
      assert AutoLayoutCell(camCount, columns, i).value == Cell(FloorDiv(i, columns), PyMod(i, columns));
      assert AutoLayoutCell(camCount, columns, j).value == Cell(FloorDiv(j, columns), PyMod(j, columns));
    } else if i >= camCount {
      var ceil := CeilDiv(camCount, columns);
      var ki, kj := i - camCount, j - camCount;
      GridPositionDetermines(ki, kj, columns);
      assert AutoLayoutCell(camCount, columns, i).value == Cell(ceil + FloorDiv(ki, columns), PyMod(ki, columns));
      assert AutoLayoutCell(camCount, columns, j).value == Cell(ceil + FloorDiv(kj, columns), PyMod(kj, columns));
    } else {
      var ceil := CeilDiv(camCount, columns);
      var k := j - camCount;
      AutoLayoutAnnotationBelow(camCount, columns, i);
      FloorDivNonNegative(k, columns);
      assert AutoLayoutCell(camCount, columns, i).value.row < ceil;
      assert AutoLayoutCell(camCount, columns, j).value.row == ceil + FloorDiv(k, columns);
    }
  }

  /** A floating-point rectangle, `QRectF`. */
  datatype Rect = Rect(x: real, y: real, width: real, height: real)

  function Bottom(r: Rect): real {
    r.y + r.height
  }

  function Right(r: Rect): real {
    r.x + r.width
  }

  /** Python's `max` of a non-empty list. */
  function MaxOf(s: seq<real>): (m: real)
    requires |s| > 0
    ensures (exists i :: 0 <= i < |s| && s[i] == m) && forall i :: 0 <= i < |s| ==> s[i] <= m
  {
    if |s| == 1 then s[0]
    else
      var n := |s| - 1;
      var front := MaxOf(s[..n]);
      assert forall i :: 0 <= i < n ==> s[..n][i] == s[i];
      if s[n] > front then s[n] else front
  }

  function Bottoms(locs: seq<Rect>): (bs: seq<real>)
    ensures |bs| == |locs| && forall i :: 0 <= i < |locs| ==> bs[i] == Bottom(locs[i])
  {
    seq(|locs|, i requires 0 <= i < |locs| => Bottom(locs[i]))
  }

  function Rights(locs: seq<Rect>): (rs: seq<real>)
    ensures |rs| == |locs| && forall i :: 0 <= i < |locs| ==> rs[i] == Right(locs[i])
  {
    seq(|locs|, i requires 0 <= i < |locs| => Right(locs[i]))
  }

  /** The rectangles moved down by `dy`. */
  function ShiftedDown(locs: seq<Rect>, dy: real): (moved: seq<Rect>)
    ensures |moved| == |locs| && forall i :: 0 <= i < |locs| ==> moved[i] == locs[i].(y := locs[i].y + dy)
  {
    seq(|locs|, i requires 0 <= i < |locs| => locs[i].(y := locs[i].y + dy))
  }

  /** What `_OverviewManualLayout.__init__` settles: every widget's rectangle and the layout's aspect. */
  datatype ManualLayoutPlan = ManualLayoutPlan(locations: seq<Rect>, columnCount: real, rowCount: real)

  /**
   * `_OverviewManualLayout.__init__`: the configured locations must number the cameras or twice
   * that; with one per camera, a copy shifted below them places the annotation widgets. Zero
   * cameras with zero locations make `max` raise ValueError.
   */
  function ManualLayout(locs: seq<Rect>, camCount: nat, gridColumnCount: int): (r: Result<ManualLayoutPlan>)
    ensures r.Ok? <==> (|locs| == camCount || |locs| == 2 * camCount) && |locs| > 0
    ensures |locs| != camCount && |locs| != 2 * camCount ==>
              r == Err(ValueError("Manual layout requires widget location count (" + NatToString(|locs|)
                                  + " provided) matching or double of camera count (" + NatToString(camCount) + " provided)."))
    ensures |locs| == 0 && camCount == 0 ==> r == Err(ValueError("max() arg is an empty sequence"))
    ensures r.Ok? ==> |r.value.locations| == 2 * camCount && r.value.locations[..|locs|] == locs
  {
    if |locs| != camCount && |locs| != 2 * camCount then
      Err(ValueError("Manual layout requires widget location count (" + NatToString(|locs|)
                     + " provided) matching or double of camera count (" + NatToString(camCount) + " provided)."))
    else if |locs| == 0 then Err(ValueError("max() arg is an empty sequence"))
    else Ok(ManualPlan(locs, |locs| == camCount, gridColumnCount))
  }

  /**
   * The locations and aspect the manual layout settles on for a non-empty list of locations,
   * `extend` telling whether annotation locations are to be added below the given ones.
   */
  function ManualPlan(locs: seq<Rect>, extend: bool, gridColumnCount: int): (p: ManualLayoutPlan)
    requires |locs| > 0
    ensures |p.locations| == if extend then 2 * |locs| else |locs|
    ensures p.locations[..|locs|] == locs
  {
    var rowCount := MaxOf(Bottoms(locs));
    var columnCount := MaxOf(Rights(locs) + [gridColumnCount as real]);
    if extend then
      var all := locs + ShiftedDown(locs, rowCount);
      assert all[..|locs|] == locs;
      ManualLayoutPlan(all, columnCount, 2.0 * rowCount)
    else
      assert locs[..|locs|] == locs;
      ManualLayoutPlan(locs, columnCount, rowCount)
  }

  /**
   * The layout's aspect encloses every widget when no configured rectangle ends above the top
   * edge: no rectangle reaches past `columnCount` or `rowCount`, and the column count is at least
   * the configured one.
   */
  lemma ManualLayoutEncloses(locs: seq<Rect>, camCount: nat, gridColumnCount: int)
    requires ManualLayout(locs, camCount, gridColumnCount).Ok?
    requires forall i :: 0 <= i < |locs| ==> Bottom(locs[i]) >= 0.0
    ensures var p := ManualLayout(locs, camCount, gridColumnCount).value;
            && p.columnCount >= gridColumnCount as real
            && forall i :: 0 <= i < |p.locations| ==> Right(p.locations[i]) <= p.columnCount && Bottom(p.locations[i]) <= p.rowCount
  {
    ManualPlanEncloses(locs, |locs| == camCount, gridColumnCount);
  }

  lemma ManualPlanEncloses(locs: seq<Rect>, extend: bool, gridColumnCount: int)
    requires |locs| > 0 && forall i :: 0 <= i < |locs| ==> Bottom(locs[i]) >= 0.0
    ensures var p := ManualPlan(locs, extend, gridColumnCount);
            && p.columnCount >= gridColumnCount as real
            && forall i :: 0 <= i < |p.locations| ==> Right(p.locations[i]) <= p.columnCount && Bottom(p.locations[i]) <= p.rowCount
  {
    var rowCount := MaxOf(Bottoms(locs));
    var rights := Rights(locs) + [gridColumnCount as real];
    assert rights[|locs|] == gridColumnCount as real;
    var p := ManualPlan(locs, extend, gridColumnCount);
    assert p.columnCount == MaxOf(rights);
    forall i | 0 <= i < |p.locations|
      ensures Right(p.locations[i]) <= p.columnCount && Bottom(p.locations[i]) <= p.rowCount
    {
      var k := if i < |locs| then i else i - |locs|;
      assert rights[k] == Right(locs[k]) && Bottoms(locs)[k] == Bottom(locs[k]);
      assert Right(locs[k]) <= p.columnCount && Bottom(locs[k]) <= rowCount;
      if extend {
        assert p.rowCount == 2.0 * rowCount;
        if i < |locs| {
          assert p.locations[i] == locs[k];
        } else {
          assert p.locations[i] == ShiftedDown(locs, rowCount)[k];
        }
      } else {
        assert p.locations[i] == locs[k] && p.rowCount == rowCount;
      }
    }
  }

  /**
   * With one location per camera and none above the top edge, every annotation widget lies
   * below every live view.
   */
  lemma ManualLayoutAnnotationsBelow(locs: seq<Rect>, camCount: nat, gridColumnCount: int)
    requires |locs| == camCount > 0
    requires forall i :: 0 <= i < |locs| ==> locs[i].y >= 0.0
    ensures var p := ManualLayout(locs, camCount, gridColumnCount);
            && p.Ok?
            && (forall i :: 0 <= i < camCount ==> Bottom(p.value.locations[i]) <= p.value.rowCount / 2.0)
            && (forall j :: camCount <= j < 2 * camCount ==> p.value.rowCount / 2.0 <= p.value.locations[j].y)
            && (forall i :: 0 <= i < camCount ==>
                  p.value.locations[camCount + i] == locs[i].(y := locs[i].y + p.value.rowCount / 2.0))
  {
    assert ManualLayout(locs, camCount, gridColumnCount) == Ok(ManualPlan(locs, true, gridColumnCount));
    ManualPlanAnnotationsBelow(locs, gridColumnCount);
  }

  lemma ManualPlanAnnotationsBelow(locs: seq<Rect>, gridColumnCount: int)
    requires |locs| > 0
    requires forall i :: 0 <= i < |locs| ==> locs[i].y >= 0.0
    ensures var p := ManualPlan(locs, true, gridColumnCount);
            && (forall i :: 0 <= i < |locs| ==> Bottom(p.locations[i]) <= p.rowCount / 2.0)
            && (forall j :: |locs| <= j < 2 * |locs| ==> p.rowCount / 2.0 <= p.locations[j].y)
            && (forall i :: 0 <= i < |locs| ==> p.locations[|locs| + i] == locs[i].(y := locs[i].y + p.rowCount / 2.0))
  {
    var bottoms := Bottoms(locs);
    var rowCount := MaxOf(bottoms);
    var plan := ManualPlan(locs, true, gridColumnCount);
    assert plan.locations == locs + ShiftedDown(locs, rowCount) && plan.rowCount / 2.0 == rowCount;
    assert forall i :: 0 <= i < |locs| ==> Bottom(locs[i]) <= rowCount by {
      forall i | 0 <= i < |locs| ensures Bottom(locs[i]) <= rowCount {
        assert bottoms[i] == Bottom(locs[i]);
      }
    }
    ShiftedCopyBelow(locs, rowCount);
  }

  /** A copy of the rectangles shifted down by a bound on their bottoms lies below the originals. */
  lemma ShiftedCopyBelow(locs: seq<Rect>, dy: real)
    requires forall i :: 0 <= i < |locs| ==> locs[i].y >= 0.0 && Bottom(locs[i]) <= dy
    ensures var all := locs + ShiftedDown(locs, dy);
            && (forall i :: 0 <= i < |locs| ==> Bottom(all[i]) <= dy)
            && (forall j :: |locs| <= j < 2 * |locs| ==> dy <= all[j].y)
            && (forall i :: 0 <= i < |locs| ==> all[|locs| + i] == locs[i].(y := locs[i].y + dy))
  {
    var n := |locs|;
    var shifted := ShiftedDown(locs, dy);
    var all := locs + shifted;
    forall i | 0 <= i < n
      ensures Bottom(all[i]) <= dy && all[n + i] == locs[i].(y := locs[i].y + dy)
    {
      assert all[i] == locs[i];
      assert all[n + i] == shifted[i];
    }
    forall j | n <= j < 2 * n
      ensures dy <= all[j].y
    {
      assert all[j] == shifted[j - n];
    }
  }

  // ---------------------------------------------------------------------------------------------
  // The controls
  // ---------------------------------------------------------------------------------------------

  /**
   * `_get_selected_coco_classes`: the class ids of the interests whose check box is ticked; a
   * missing check box raises IndexError.
   */
  method GetSelectedCocoClasses(interests: seq<Interest>, checkBoxes: seq<bool>) returns (r: Result<seq<int>>)
    ensures |checkBoxes| < |interests| ==> r == Err(IndexError)
    ensures |checkBoxes| >= |interests| ==> r == Ok(SelectedClasses(interests, checkBoxes))
  {
    var classes := [];
    var index := 0;
    while index < |interests|
      invariant 0 <= index <= |interests| && index <= |checkBoxes|
      invariant classes == SelectedClasses(interests[..index], checkBoxes)
    {
      if index >= |checkBoxes| {
        return Err(IndexError);
      }
      SelectedClassesNext(interests, checkBoxes, index);
      if checkBoxes[index] {
        classes := classes + [interests[index].cocoClassId];
      }
      index := index + 1;
    }
    assert interests[..index] == interests;
    r := Ok(classes);
  }

  /** `_get_selected_confidence`: the sensitivity slider runs from 0 to 100, against the confidence. */
  function SelectedConfidence(slider: int): (confidence: real)
    ensures 0 <= slider <= 100 ==> 0.0 <= confidence <= 1.0
    ensures slider == 0 ==> confidence == 1.0
    ensures slider == 100 ==> confidence == 0.0
  {
    (100 - slider) as real / 100.0
  }

  /**
   * The slider position the window starts with, `int((1 - initial_confidence) * 100)`: the
   * percentage of doubt, truncated toward zero.
   */
  function InitialSlider(initialConfidence: real): (position: int)
    ensures initialConfidence <= 1.0 ==>
              position >= 0 && position as real <= (1.0 - initialConfidence) * 100.0 < position as real + 1.0
    ensures initialConfidence > 1.0 ==>
              position <= 0 && position as real - 1.0 < (1.0 - initialConfidence) * 100.0 <= position as real
  {
    TruncToInt((1.0 - initialConfidence) * 100.0)
  }

  /**
   * Reading the initial slider position back gives the initial confidence rounded up to the next
   * hundredth, when it lies between 0 and 1.
   */
  lemma InitialSliderRoundTrip(initialConfidence: real)
    requires 0.0 <= initialConfidence <= 1.0
    ensures 0 <= InitialSlider(initialConfidence) <= 100
    ensures initialConfidence <= SelectedConfidence(InitialSlider(initialConfidence)) < initialConfidence + 0.01
  {
    var v := (1.0 - initialConfidence) * 100.0;
    assert v.Floor as real <= v < v.Floor as real + 1.0;
  }

  // ---------------------------------------------------------------------------------------------
  // What the window does with a batch of detections
  // ---------------------------------------------------------------------------------------------

  /** The camera, time and frame size shared by the detections of one emitted batch. */
  datatype Batch = Batch(camId: int, when: DateTime, frameSize: Point2D)

  /** `shape[1], shape[0]`: the frame size is its width, then its height. */
  function BatchOf(info: ImageDetectionsInfo): (b: Batch)
    ensures b.camId == info.frameInfo.camId && b.when == info.when
    ensures b.frameSize == Point2D(info.frameInfo.image.width as real, info.frameInfo.image.height as real)
  {
    Batch(info.frameInfo.camId, info.when, Point2D(info.frameInfo.image.width as real, info.frameInfo.image.height as real))
  }

  /** The `ObjectDetectionInfo` built for one detection of a batch. */
  function BatchInfo(batch: Batch, d: SvDetection): DetectionInfo {
    DetectionInfo(batch.camId, d, batch.when, batch.frameSize)
  }

  function BatchInfos(batch: Batch, ds: seq<SvDetection>): (infos: seq<DetectionInfo>)
    ensures |infos| == |ds| && forall i :: 0 <= i < |ds| ==> infos[i] == BatchInfo(batch, ds[i])
  {
    seq(|ds|, i requires 0 <= i < |ds| => BatchInfo(batch, ds[i]))
  }

  /** No stored detection covers `d`. */
  predicate NoneCovers(stored: seq<DetectionInfo>, d: DetectionInfo, redetectionDelay: int) {
    forall i :: 0 <= i < |stored| ==> !CoversRepeat(stored[i], d, redetectionDelay)
  }

  /** `is_fresh_detection` asks exactly whether no stored detection covers the new one. */
  lemma IsFreshMeansNoneCovers(records: seq<DetectionRecord>, d: DetectionInfo, redetectionDelay: int)
    ensures IsFreshDetection(records, d, redetectionDelay) == NoneCovers(Infos(records), d, redetectionDelay)
  {
  }

  /** The history length `_control_length` keeps; a negative bound leaves nothing. */
  function MaxEntries(c: Configuration): (n: nat)
    ensures c.maxHistoryEntries >= 0 ==> n == c.maxHistoryEntries
  {
    if c.maxHistoryEntries < 0 then 0 else c.maxHistoryEntries
  }

  /** The fresh detections of a batch and the stored detections after them. */
  datatype Screening = Screening(freshDetections: seq<SvDetection>, history: seq<DetectionInfo>)

  /**
   * The loop of `_on_detection` on the stored detections: a detection that no stored one covers
   * is fresh and is stored, keeping the last `maxEntries`, before the next one is looked at.
   */
  function Screen(stored: seq<DetectionInfo>, ds: seq<SvDetection>, batch: Batch, redetectionDelay: int, maxEntries: nat): (s: Screening)
    ensures |s.freshDetections| <= |ds|
    ensures ds == [] ==> s == Screening([], stored)
  {
    if ds == [] then Screening([], stored)
    else
      var n := |ds| - 1;
      var front := Screen(stored, ds[..n], batch, redetectionDelay, maxEntries);
      var info := BatchInfo(batch, ds[n]);
      if NoneCovers(front.history, info, redetectionDelay)
      then Screening(front.freshDetections + [ds[n]], KeepLast(front.history + [info], maxEntries))
      else front
  }

  /** One more detection: `Screen` of a longer prefix takes one step from the shorter one. */
  lemma ScreenNext(stored: seq<DetectionInfo>, ds: seq<SvDetection>, i: nat, batch: Batch, redetectionDelay: int, maxEntries: nat)
    requires i < |ds|
    ensures var front := Screen(stored, ds[..i], batch, redetectionDelay, maxEntries);
            var info := BatchInfo(batch, ds[i]);
            Screen(stored, ds[..i + 1], batch, redetectionDelay, maxEntries)
            == if NoneCovers(front.history, info, redetectionDelay)
               then Screening(front.freshDetections + [ds[i]], KeepLast(front.history + [info], maxEntries))
               else front
  {
    assert ds[..i + 1][..i] == ds[..i];
  }

  /**
   * While the history has room for the whole batch, nothing is evicted: the fresh detections
   * are appended to the stored ones, none of them is covered by a stored detection, and with a
   * delay that is not negative no two of them share a class.
   */
  lemma {:induction false} ScreenWithoutEviction(
    stored: seq<DetectionInfo>, ds: seq<SvDetection>, batch: Batch, redetectionDelay: int, maxEntries: nat)
    requires |stored| + |ds| <= maxEntries && redetectionDelay >= 0
    ensures var s := Screen(stored, ds, batch, redetectionDelay, maxEntries);
            && s.history == stored + BatchInfos(batch, s.freshDetections)
            && (forall k :: 0 <= k < |s.freshDetections| ==> NoneCovers(stored, BatchInfo(batch, s.freshDetections[k]), redetectionDelay))
            && (forall i, j :: 0 <= i < j < |s.freshDetections| ==> s.freshDetections[i].cocoClassId != s.freshDetections[j].cocoClassId)
  {
    if ds != [] {
      var n := |ds| - 1;
      ScreenWithoutEviction(stored, ds[..n], batch, redetectionDelay, maxEntries);
      var front := Screen(stored, ds[..n], batch, redetectionDelay, maxEntries);
      var info := BatchInfo(batch, ds[n]);
      if NoneCovers(front.history, info, redetectionDelay) {
        var grown := front.freshDetections + [ds[n]];
        assert KeepLast(front.history + [info], maxEntries) == front.history + [info];
        assert BatchInfos(batch, grown) == BatchInfos(batch, front.freshDetections) + [info];
        forall k | 0 <= k < |front.freshDetections|
          ensures front.freshDetections[k].cocoClassId != ds[n].cocoClassId
        {
          assert front.history[|stored| + k] == BatchInfo(batch, front.freshDetections[k]);
          assert !CoversRepeat(front.history[|stored| + k], info, redetectionDelay);
        }
        forall k | 0 <= k < |grown|
          ensures NoneCovers(stored, BatchInfo(batch, grown[k]), redetectionDelay)
        {
          if k == |front.freshDetections| {
            assert forall i :: 0 <= i < |stored| ==> front.history[i] == stored[i];
          }
        }
      }
    }
  }

  /**
   * With room for a single entry, a batch of classes a, b, a makes all three fresh: storing b
   * evicts a before the second a is looked at, so one batch can alert twice for a class.
   */
  lemma ScreenEvictionRepeats(a: SvDetection, b: SvDetection, batch: Batch, redetectionDelay: int)
    requires a.cocoClassId != b.cocoClassId
    ensures Screen([], [a, b, a], batch, redetectionDelay, 1).freshDetections == [a, b, a]
  {
    var infoA, infoB := BatchInfo(batch, a), BatchInfo(batch, b);
    assert [a][..0] == [];
    assert Screen([], [a], batch, redetectionDelay, 1) == Screening([a], [infoA]);
    assert [a, b][..1] == [a];
    assert !CoversRepeat(infoA, infoB, redetectionDelay);
    assert KeepLast([infoA, infoB], 1) == [infoB];
    assert Screen([], [a, b], batch, redetectionDelay, 1) == Screening([a, b], [infoB]);
    assert [a, b, a][..2] == [a, b];
    assert !CoversRepeat(infoB, infoA, redetectionDelay);
  }

  /** `SurveillanceWidget`: the components `_on_detection` works with, and what the annotation widgets show. */
  class SurveillanceWidget {
    const configuration: Configuration
    const history: DetectionHistory
    const alertPlayer: AlertPlayer
    /** The picture the annotation widgets of each camera show, in camera order; None at first. */
    var annotations: seq<Option<Image>>

    predicate Valid()
      reads this, alertPlayer
    {
      && history.Valid() && alertPlayer.Valid()
      && history.configuration == configuration && alertPlayer.configuration == configuration
      && |annotations| == |configuration.camDefinitions|
    }

    constructor (configuration: Configuration, history: DetectionHistory, alertPlayer: AlertPlayer)
      requires history.Valid() && alertPlayer.Valid()
      requires history.configuration == configuration && alertPlayer.configuration == configuration
      ensures Valid() && this.history == history && this.alertPlayer == alertPlayer
      ensures |annotations| == |configuration.camDefinitions| && forall i :: 0 <= i < |annotations| ==> annotations[i].None?
    {
      this.configuration := configuration;
      this.history := history;
      this.alertPlayer := alertPlayer;
      annotations := seq(|configuration.camDefinitions|, _ => None);
    }

    /**
     * The loop of `_on_detection`: each detection that `is_fresh_detection` accepts is added to
     * the history, with the frame, before the next one is checked. An exception from `add` ends it.
     */
    method RecordFresh(info: ImageDetectionsInfo) returns (outcome: Outcome, freshDetections: seq<SvDetection>)
      requires Valid()
      modifies history, history.added, history.removed
      ensures Valid()
      ensures var s := Screen(old(Infos(history.detectionList)), info.detections, BatchOf(info),
                              configuration.redetectionDelay, MaxEntries(configuration));
              outcome.Pass? ==> freshDetections == s.freshDetections && Infos(history.detectionList) == s.history
    {
      var ds := info.detections;
      var batch := BatchOf(info);
      ghost var stored := Infos(history.detectionList);
      freshDetections := [];
      var i := 0;
      while i < |ds|
        invariant 0 <= i <= |ds| && Valid()
        invariant Screen(stored, ds[..i], batch, configuration.redetectionDelay, MaxEntries(configuration))
                  == Screening(freshDetections, Infos(history.detectionList))
      {
        var step: Outcome;
        step, freshDetections := RecordNext(info, i, stored, freshDetections);
        if step.Fail? {
          return step, freshDetections;
        }
        i := i + 1;
      }
      assert ds[..i] == ds;
      outcome := Pass;
    }

    /** One turn of the loop of `_on_detection`: detection `i` is added when it is fresh. */
    method RecordNext(info: ImageDetectionsInfo, i: nat, ghost stored: seq<DetectionInfo>, freshDetections: seq<SvDetection>)
      returns (outcome: Outcome, grown: seq<SvDetection>)
      requires Valid() && i < |info.detections|
      requires Screen(stored, info.detections[..i], BatchOf(info), configuration.redetectionDelay, MaxEntries(configuration))
               == Screening(freshDetections, Infos(history.detectionList))
      modifies history, history.added, history.removed
      ensures Valid()
      ensures outcome.Pass? ==>
                Screen(stored, info.detections[..i + 1], BatchOf(info), configuration.redetectionDelay, MaxEntries(configuration))
                == Screening(grown, Infos(history.detectionList))
    {
      var ds := info.detections;
      var batch := BatchOf(info);
      ScreenNext(stored, ds, i, batch, configuration.redetectionDelay, MaxEntries(configuration));
      var single := BatchInfo(batch, ds[i]);
      IsFreshMeansNoneCovers(history.detectionList, single, configuration.redetectionDelay);
      grown := freshDetections;
      outcome := Pass;
      if IsFreshDetection(history.detectionList, single, configuration.redetectionDelay) {
        var record := new DetectionRecord(single);
        var added := history.Add(record, info.frameInfo.image);
        if added.Err? {
          return Fail(added.error), grown;
        }
        grown := grown + [ds[i]];
      }
    }

    /**
     * `_on_detection`: store the fresh detections, alert when there is one, then show the
     * annotated frame on the camera's annotation widgets. An unknown camera raises ValueError.
     */
    method OnDetection(info: ImageDetectionsInfo) returns (outcome: Outcome)
      requires Valid()
      modifies this, history, history.added, history.removed, alertPlayer
      ensures Valid()
      ensures outcome.Fail? ==> annotations == old(annotations)
      ensures var s := Screen(old(Infos(history.detectionList)), info.detections, BatchOf(info),
                              configuration.redetectionDelay, MaxEntries(configuration));
              var camId := info.frameInfo.camId;
              outcome.Pass? ==>
                && Infos(history.detectionList) == s.history
                && (s.freshDetections == [] ==> alertPlayer.Current() == old(alertPlayer.Current()) && alertPlayer.players == old(alertPlayer.players))
                && (s.freshDetections != [] ==>
                      var g := AlertSounds(configuration, camId, s.freshDetections);
                      && g.outcome.Pass?
                      && CacheGrew(old(alertPlayer.players), alertPlayer.players, g.paths)
                      && alertPlayer.Current() == Enqueue(old(alertPlayer.Current()), PlayersFor(alertPlayer.players, g.paths)))
                && GetCamDefinition(configuration.camDefinitions, camId).Ok?
                && annotations == old(annotations)[CamIndex(configuration.camDefinitions, camId) := Some(info.frameInfo.image)]
    {
      var screened, freshDetections := RecordFresh(info);
      if screened.Fail? {
        return screened;
      }
      if |freshDetections| > 0 {
        var alerted := alertPlayer.TryAlert(info.frameInfo.camId, freshDetections);
        if alerted.Fail? {
          return alerted;
        }
      }
      var cam := GetCamDefinition(configuration.camDefinitions, info.frameInfo.camId);
      if cam.Err? {
        return Fail(cam.error);
      }
      var index := IndexOf(configuration.camDefinitions, cam.value);
      assert index == CamIndex(configuration.camDefinitions, info.frameInfo.camId);
      annotations := annotations[index := Some(info.frameInfo.image)];
      outcome := Pass;
    }
  }
}
