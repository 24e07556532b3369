/**
 * The configuration the application is started with: cameras, classes of interest, limits and
 * delays, and the lookups by camera id and class id. Durations are whole microseconds.
 */
module Interface {
  import opened Wrappers
  import opened Timestamps

  /** One camera: stream address, id, caption (the label shown) and the sound played when it detects something. */
  datatype CamDefinition = CamDefinition(url: string, id: int, caption: string, soundAlertPath: Option<string>)

  /** One detectable class: its COCO id, caption (the label shown), whether it starts enabled, and its alert sound. */
  datatype Interest = Interest(cocoClassId: int, caption: string, enabledByDefault: bool, soundAlertPath: Option<string>)

  const DefaultInitialConfidence: real := 0.65
  const DefaultMinimumDetectionArea: int := 1500
  const DefaultRedetectionDelay: int := 15 * MicrosPerSecond
  const DefaultCameraFeedTimeout: int := 3 * MicrosPerSecond
  const DefaultDisconnectIndicatorAdditionalDelay: int := 2 * MicrosPerSecond
  const DefaultUseTcpTransport: bool := true
  const DefaultMaxDelay: int := 3 * MicrosPerSecond

  /** The detection logic object is not part of the record; it is passed to the detector directly. */
  datatype Configuration = Configuration(
    camDefinitions: seq<CamDefinition>,
    interests: seq<Interest>,
    maxHistoryEntries: int,
    gridColumnCount: int,
    initialConfidence: real,
    minimumDetectionArea: int,
    redetectionDelay: int,
    cameraFeedTimeout: int,
    disconnectIndicatorAdditionalDelay: int,
    useTcpTransport: bool,
    maxDelay: int)

  /** A configuration that gives only the required fields and takes every default. */
  function WithDefaults(
    camDefinitions: seq<CamDefinition>, interests: seq<Interest>, maxHistoryEntries: int, gridColumnCount: int)
    : (c: Configuration)
    ensures c.camDefinitions == camDefinitions && c.interests == interests
    ensures c.maxHistoryEntries == maxHistoryEntries && c.gridColumnCount == gridColumnCount
    ensures c.initialConfidence == 0.65 && c.minimumDetectionArea == 1500
    ensures c.redetectionDelay == 15 * MicrosPerSecond && c.cameraFeedTimeout == 3 * MicrosPerSecond
    ensures c.disconnectIndicatorAdditionalDelay == 2 * MicrosPerSecond
    ensures c.useTcpTransport && c.maxDelay == 3 * MicrosPerSecond
  {
    Configuration(
      camDefinitions, interests, maxHistoryEntries, gridColumnCount,
      DefaultInitialConfidence, DefaultMinimumDetectionArea, DefaultRedetectionDelay,
      DefaultCameraFeedTimeout, DefaultDisconnectIndicatorAdditionalDelay, DefaultUseTcpTransport,
      DefaultMaxDelay)
  }

  /** The position of the first camera with the id; `|cams|` when there is none. */
  function CamIndex(cams: seq<CamDefinition>, camId: int): (i: nat)
    ensures i <= |cams| && (i < |cams| ==> cams[i].id == camId)
    ensures forall j :: 0 <= j < i ==> cams[j].id != camId
  {
    if cams == [] then 0 else if cams[0].id == camId then 0 else 1 + CamIndex(cams[1..], camId)
  }

  /** `get_cam_definition`: the first camera with the id, or ValueError. */
  function GetCamDefinition(cams: seq<CamDefinition>, camId: int): (r: Result<CamDefinition>)
    ensures r.Ok? <==> CamIndex(cams, camId) < |cams|
    ensures r.Ok? ==> r.value == cams[CamIndex(cams, camId)]
    ensures r.Err? ==> r.error == ValueError("Unknown cam ID.")
  {
    if cams == [] then Err(ValueError("Unknown cam ID."))
    else if cams[0].id == camId then Ok(cams[0])
    else GetCamDefinition(cams[1..], camId)
  }

  /** Lookup fails exactly when no camera has the id. */
  lemma GetCamDefinitionFailsIffUnknown(cams: seq<CamDefinition>, camId: int)
    ensures GetCamDefinition(cams, camId).Err? <==> forall i :: 0 <= i < |cams| ==> cams[i].id != camId
  {
  }

  /** The position of the first interest with the class id; `|interests|` when there is none. */
  function InterestIndex(interests: seq<Interest>, cocoClassId: int): (i: nat)
    ensures i <= |interests| && (i < |interests| ==> interests[i].cocoClassId == cocoClassId)
    ensures forall j :: 0 <= j < i ==> interests[j].cocoClassId != cocoClassId
  {
    if interests == [] then 0 else if interests[0].cocoClassId == cocoClassId then 0 else 1 + InterestIndex(interests[1..], cocoClassId)
  }

  /** `get_interest`: the first interest with the class id, or ValueError. */
  function GetInterest(interests: seq<Interest>, cocoClassId: int): (r: Result<Interest>)
    ensures r.Ok? <==> InterestIndex(interests, cocoClassId) < |interests|
    ensures r.Ok? ==> r.value == interests[InterestIndex(interests, cocoClassId)]
    ensures r.Err? ==> r.error == ValueError("Unknown coco class ID.")
  {
    if interests == [] then Err(ValueError("Unknown coco class ID."))
    else if interests[0].cocoClassId == cocoClassId then Ok(interests[0])
    else GetInterest(interests[1..], cocoClassId)
  }

  /** Lookup fails exactly when no interest has the class id. */
  lemma GetInterestFailsIffUnknown(interests: seq<Interest>, cocoClassId: int)
    ensures GetInterest(interests, cocoClassId).Err? <==> forall i :: 0 <= i < |interests| ==> interests[i].cocoClassId != cocoClassId
  {
  }

  /**
   * `get_disconnect_indicator_delay`: the feed timeout plus the additional delay, so the indicator
   * waits at least as long as the feed timeout exactly when the additional delay is not negative.
   */
  function GetDisconnectIndicatorDelay(c: Configuration): (d: int)
    ensures d - c.cameraFeedTimeout == c.disconnectIndicatorAdditionalDelay
    ensures d >= c.cameraFeedTimeout <==> c.disconnectIndicatorAdditionalDelay >= 0
  {
    c.cameraFeedTimeout + c.disconnectIndicatorAdditionalDelay
  }

  /** With the default delays the disconnect indicator waits five seconds. */
  lemma DefaultDisconnectIndicatorDelay(
    camDefinitions: seq<CamDefinition>, interests: seq<Interest>, maxHistoryEntries: int, gridColumnCount: int)
    ensures GetDisconnectIndicatorDelay(WithDefaults(camDefinitions, interests, maxHistoryEntries, gridColumnCount))
            == 5 * MicrosPerSecond
  {
  }
}
