# AI-Surveillant: the surveillance window's bookkeeping, in Dafny

AI-Surveillant watches a set of network cameras. It runs an object detector on the latest frame of
each camera and keeps a bounded history of detections, saved as pictures whose file names encode
the detection. It plays alert sounds for detections that are new, and it lets the user mark a point
of a camera's frame where a class of object is to be ignored.

This project models the sequential logic behind those features and proves what that logic promises:
- the history: the freshness rule, the bounded list with eviction from the front, the file-name
  codec, and the reload at start-up;
- the ignore list: the spatial filter, add and remove, and saving and loading;
- the utility state machines: the latest-frame slot, the event dispatcher, and the audio worker's
  pacing and write loop;
- the alert player's queue of sound groups and its path-to-player cache;
- the detector's settings slot and one round-robin pass over the cameras;
- the per-batch freshness loop of the surveillance widget;
- the arithmetic of both overview layouts and of the older multiview;
- the error handler's nesting counter and its 30-second dialog throttle;
- the configuration lookups and the detection record conversions.

One module is written per source file:

| module | file | models |
|---|---|---|
| `Wrappers` | `wrappers.dfy` | optional values, results, and the Python exceptions that are raised |
| `Text` | `text.dfy` | `str(int)`, `'%0Nd'` and `int(str)` on ASCII digits, and `str.join` with its inverse split |
| `Timestamps` | `timestamps.dfy` | date-times, `strftime`/`strptime` of `%Y-%m-%d %H-%M-%S`, and ordering in microseconds |
| `Common` | `common.dfy` | `_common.py` and its older copy `common.py` |
| `Interface` | `interface.dfy` | `interface.py` and the duplicate lookups in `common.py` |
| `Lists` | `lists.dfy` | `list.remove`, `list.sort(key=…)`, indexing by a list of indices, and flattening |
| `Utility` | `utility.dfy` | `utility.py` |
| `HistoryCodec` | `history_codec.dfy` | the file-name encoder and parser of `_history.py` |
| `History` | `history.dfy` | `DetectionHistory` of `_history.py` |
| `IgnoreListing` | `ignore_list.dfy` | `_ignore_list.py` |
| `HistoryView` | `history_view.dfy` | `_history_view.py` |
| `ErrorHandling` | `error_handler.dfy` | `error_handler.py` |
| `Application` | `application.dfy` | `_application.py` |
| `LegacyApplication` | `legacy.dfy` | the older window in `__init__.py` |

These choices apply throughout the model:
- **Inputs instead of effects.** The state that the program keeps in the file system, in a device or
  in a thread becomes a field or a parameter:
  - the picture folder is a map from name to entry, and the directory listing is an input;
  - the ignore-list file holds decoded JSON values;
  - a sound device's answers to `write` are an input sequence;
  - the detector, the ignore filter and the annotator are function parameters.
- **Events as data.** A listener call, a log line, a shown dialog and a played sound are each
  appended to a sequence that the contracts describe.
- **Exceptions as values.** A Python exception becomes the `Err`/`Fail` value of a `Result` or an
  `Outcome`. Its class and message are kept where the source gives them.
- **Identity as objects.** A history record and a media player are compared by identity in the
  source, so each is a Dafny object.
- **Floating point as `real`.** Floats are modelled as reals. `int(x)` truncates toward zero,
  `%.0f` rounds half to even, and `math.floor`, `math.ceil` and `%` follow Python's rules for
  negative operands.
- **CPython 3.12.** The source needs Python 3.12 or later: `_format_error_info`
  (surveillance_ui/error_handler.py:90) puts a backslash inside an f-string expression, which
  earlier versions refuse. Where the model keeps an exception message of the interpreter itself, it
  is CPython 3.12's wording. For `max` of an empty sequence in `ManualLayout` that is
  "max() arg is an empty sequence"; CPython 3.13 and later say "max() iterable argument is empty".

`Configuration` in `interface.py` has no `grid_widget_locs` field, although
`_OverviewManualLayout.__init__` reads one. The model follows the code: it passes the locations to
`ManualLayout` as a separate argument.

## Model

| member | source | states |
|---|---|---|
| Common.TruncToInt | surveillance_ui/_history.py:140 | `int(float)` rounds toward zero: the floor for non-negative values, minus the floor of the negation otherwise |
| Common.FromSvDetection | surveillance_ui/_common.py:18-28 | the six values are unpacked as coordinates, mask, confidence, class, tracker and data; the coordinates are copied element by element with the count kept; a missing tracker stays missing |
| Common.ListFromSvDetections | surveillance_ui/_common.py:30-31 | same length as the input, and element i is the conversion of input element i |
| Common.ListFromSvDetectionsAppend | surveillance_ui/common.py:122-124 | converting a concatenation converts each part in order |
| Interface.WithDefaults | surveillance_ui/interface.py:45-57 | the defaults: confidence 0.65, minimum area 1500, redetection delay 15 s, feed timeout 3 s, extra disconnect delay 2 s, TCP on, maximum delay 3 s |
| Interface.CamIndex | surveillance_ui/interface.py:60-62 | the position of the first camera with the id; no earlier camera has it |
| Interface.GetCamDefinition | surveillance_ui/interface.py:59-63 | the first camera with the id, else ValueError("Unknown cam ID.") |
| Interface.GetCamDefinitionFailsIffUnknown | surveillance_ui/common.py:69-73 | the lookup fails exactly when no camera has the id |
| Interface.InterestIndex | surveillance_ui/interface.py:66-68 | the position of the first interest with the class id; no earlier interest has it |
| Interface.GetInterest | surveillance_ui/interface.py:65-69 | the first interest with the class id, else ValueError("Unknown coco class ID.") |
| Interface.GetInterestFailsIffUnknown | surveillance_ui/common.py:75-79 | the lookup fails exactly when no interest has the class id |
| Interface.GetDisconnectIndicatorDelay | surveillance_ui/interface.py:71-78 | the delay is the feed timeout plus the additional delay, so it is at least the feed timeout exactly when the additional delay is not negative |
| Interface.DefaultDisconnectIndicatorDelay | surveillance_ui/common.py:81-88 | with the defaults, the delay is 5 s |
| Lists.RemoveFirst | surveillance_ui/_ignore_list.py:55 | `list.remove`: drops the first equal element and keeps the rest in order; ValueError when none is equal |
| Lists.RemoveFirstMultiset | surveillance_ui/_ignore_list.py:55 | removing a present element takes exactly one occurrence away |
| Lists.SortBy | surveillance_ui/_history.py:94 | `list.sort(key=…)`: the result is ordered by the key and is a permutation of the input |
| Lists.KeepLast | surveillance_ui/_history.py:67-69 | at most the bound is kept, and those are the last elements in order |
| Lists.Select | surveillance_ui/_ignore_list.py:75 | `detections[indices]`: element k is the input at index k |
| Text.NatToString | surveillance_ui/_history.py:140 | `str(n)` is a non-empty run of digits |
| Text.IntToString | surveillance_ui/_history.py:140 | `str(i)` starts with '-' exactly for a negative i; the digits after the sign read back as the absolute value |
| Text.ParseNat | surveillance_ui/_history.py:115 | `int` of n digits is below 10^n |
| Text.ZeroPad | surveillance_ui/_history.py:140 | a `%0Nd` field is a digit run |
| Text.ParseNatToString | surveillance_ui/_history.py:115 | `int(str(n)) == n` |
| Text.ParseZeroPad | surveillance_ui/_history.py:109 | reading a zero-padded field gives back the number |
| Text.JoinWith | surveillance_ui/error_handler.py:90 | `sep.join(texts)`: empty for no texts, and it starts with the first text |
| Text.Find | surveillance_ui/error_handler.py:90 | the first position of the character, or the length when it does not occur |
| Text.SplitOn | surveillance_ui/error_handler.py:90 | at least one part, and no part holds the separator |
| Text.JoinSplit | surveillance_ui/error_handler.py:90 | joining the parts of a split with the separator gives back the text |
| Text.SplitJoin | surveillance_ui/error_handler.py:90 | lines without the separator, joined and split again, are the same lines, so the join loses nothing |
| Timestamps.DaysInMonth | surveillance_ui/_history.py:109 | the length of a month, between 28 and 31, with leap years |
| Timestamps.TruncateToSecond | surveillance_ui/_history.py:140 | keeps every field down to the second and zeroes the microseconds |
| Timestamps.TimeFields | surveillance_ui/_history.py:140 | `strftime("%Y-%m-%d %H-%M-%S")` yields six digit runs |
| Timestamps.ParseTime | surveillance_ui/_history.py:108-111 | `strptime` gives a time without microseconds, or nothing when the fields are out of range |
| Timestamps.FormatParseRoundTrip | surveillance_ui/_history.py:109-140 | reading the written time gives back the time truncated to the second |
| Timestamps.ParseTimeRejectsImpossibleDay | surveillance_ui/_history.py:108-111 | a day past the end of its month is rejected |
| Timestamps.MicrosOfMin | surveillance_ui/error_handler.py:27 | `datetime.min` is the origin of the time line |
| HistoryCodec.RoundHalfEven | surveillance_ui/_history.py:140 | `%.0f` rounds to within one half, a tie goes to the even neighbour, and it is never below 0 for a non-negative value |
| HistoryCodec.RoundHalfEvenUnique | surveillance_ui/_history.py:140 | any integer within one half of the value, even on a tie, is the rounding: the rule determines the result |
| HistoryCodec.FormatFixed0 | surveillance_ui/_history.py:140 | `%.0f` of a non-negative value is the decimal of its rounding; a negative value gets a sign |
| HistoryCodec.CoordText | surveillance_ui/_history.py:140 | `str(int(coord))`: for a non-negative coordinate, digits reading back as its floor; a coordinate at or below -1 gets a sign |
| HistoryCodec.ConfText | surveillance_ui/_history.py:140 | `'%.0f' % (confidence*100)`: for a non-negative percentage, digits reading back as its half-even rounding, within one half of it |
| HistoryCodec.EncodeFilename | surveillance_ui/_history.py:137-140 | the picture name ends in `.jpg` |
| HistoryCodec.NameFields | surveillance_ui/_history.py:137-140 | the name has one digit field per separator plus one |
| HistoryCodec.LeadingDigits | surveillance_ui/_history.py:102 | `\d+` takes the longest run of digits at the front |
| HistoryCodec.ParseFields | surveillance_ui/_history.py:101-104 | every captured field is a digit run, one more field than separators |
| HistoryCodec.ParseConfTail | surveillance_ui/_history.py:102 | `conf(\d+).jpg` captures a digit run, and the unescaped dot takes any character but a newline |
| HistoryCodec.MatchFilename | surveillance_ui/_history.py:101-106 | a full match captures fifteen digit runs |
| HistoryCodec.DetectionFromGroups | surveillance_ui/_history.py:124-134 | builds a record with four coordinates, no mask, no tracker and no extra data |
| HistoryCodec.ParseFilename | surveillance_ui/_history.py:100-134 | a record exactly when the pattern matches and the date is valid; its time is the parsed one, without microseconds |
| HistoryCodec.Reloaded | surveillance_ui/_history.py:124-140 | the record an encode-then-parse gives: camera and class kept, time truncated to the second, four coordinates each within 1 of the original |
| HistoryCodec.ParseFieldsOfInterleave | surveillance_ui/_history.py:102 | digit runs separated by the name's separators are read back exactly |
| HistoryCodec.ParseFieldsRejectsSign | surveillance_ui/_history.py:101-106 | a field starting with '-' makes the match fail |
| HistoryCodec.MatchFilenameOfLayout | surveillance_ui/_history.py:101-106 | any name of the encoder's layout matches, with those fields as groups |
| HistoryCodec.FourCornerLayout | surveillance_ui/_history.py:140 | a four-corner box produces the fourteen-field layout that the pattern expects |
| HistoryCodec.EncodedNameMatches | surveillance_ui/_history.py:101-140 | an encoded name matches the pattern, with the encoder's fields as groups |
| HistoryCodec.EncodedFieldsDecode | surveillance_ui/_history.py:124-140 | the groups of an encoded name rebuild the reloaded record |
| HistoryCodec.FilenameRoundTrip | surveillance_ui/_history.py:100-140 | parsing an encoded name gives the record with its coordinates and frame truncated, its time truncated to the second, and its confidence rounded to a percent |
| HistoryCodec.ReloadedConfidenceClose | surveillance_ui/_history.py:132-140 | the reloaded confidence is within 0.005 of the original |
| HistoryCodec.FilenameRoundTripExact | surveillance_ui/_history.py:100-140 | integral coordinates and frame, a whole-second time and a whole-percent confidence survive encode-then-parse unchanged |
| HistoryCodec.NegativeCoordinateRejected | surveillance_ui/_history.py:105-140 | a coordinate that truncates below zero makes the saved name unreadable |
| HistoryCodec.InvalidDateRejected | surveillance_ui/_history.py:108-111 | a name of the right layout whose date is impossible parses to None |
| History.Infos | surveillance_ui/_history.py:27 | the records' detections, in order |
| History.IsFreshDetection | surveillance_ui/_history.py:54-62 | not fresh exactly when some stored record has the camera and class and the new time is at most its time plus the delay |
| History.RecordedDetectionCoversRepeat | surveillance_ui/_history.py:54-62 | once a record is stored, a detection of its camera and class within the delay is not fresh |
| History.Trim | surveillance_ui/_history.py:67-72 | a list within the bound is left as it is with nothing fired; the calls made before the trim stay first |
| History.TrimKeepsSuffix | surveillance_ui/_history.py:67-72 | trimming only removes from the front; the survivors keep their order |
| History.TrimOnSuccessBound | surveillance_ui/_history.py:67-68 | after a trim that does not raise, the list is within the bound, and a list already within it is untouched |
| History.TrimOnSuccessEvictions | surveillance_ui/_history.py:67-72 | each evicted record's picture is deleted and `removed` is fired for each, in eviction order |
| History.TrimPassKeepsLast | surveillance_ui/_history.py:67-72 | a trim that does not raise keeps exactly the last max_history_entries detections |
| History.TrimUnregisteredFails | surveillance_ui/_history.py:67-70 | evicting before any listener was registered raises AttributeError, for any bound below the length, negative ones included |
| History.SavedDetections | surveillance_ui/_history.py:79-92 | only the names of regular files that parse are kept; a missing folder gives none |
| History.SavedDetectionsOfName | surveillance_ui/_history.py:83-90 | one name gives its detection exactly when it is a regular file that parses |
| History.SavedDetectionsAppend | surveillance_ui/_history.py:82-90 | the detections of a listing are those of its first part followed by those of the rest, so listing order is kept |
| History.SavedDetectionsNext | surveillance_ui/_history.py:82-90 | one name more: its detection, if any, joins the end |
| History.SavedDetectionsComplete | surveillance_ui/_history.py:82-90 | every listed regular file that parses contributes its detection: none is missed |
| History.SortByWhen | surveillance_ui/_history.py:94 | the reloaded detections are ordered by time and are a permutation of those found |
| History.EnsureFolder | surveillance_ui/_history.py:43 | `mkdir(exist_ok=True)` keeps an existing folder and creates an empty one otherwise |
| History.DetectionHistory.ControlLength | surveillance_ui/_history.py:67-72 | the new list, folder and `removed` calls are those of the trim |
| History.DetectionHistory.Add | surveillance_ui/_history.py:42-52 | saves the picture, appends the record, fires `added` once for it, trims, and returns True; a directory in the picture's place raises before any change |
| History.DetectionHistory.GetDetections | surveillance_ui/_history.py:64-65 | the copy equals the list |
| History.DetectionHistory.GetDetectionImageData | surveillance_ui/_history.py:74-77 | the picture under the record's name, else FileNotFoundError or IsADirectoryError |
| History.DetectionHistory.CollectSavedDetections | surveillance_ui/_history.py:79-92 | the loop finds exactly the saved detections |
| History.DetectionHistory.AppendRecords | surveillance_ui/_history.py:96-97 | one new record per detection, in order, appended after the existing list |
| History.DetectionHistory.LoadSavedDetections | surveillance_ui/_history.py:79-98 | the found detections are sorted by time, appended as new records, and then trimmed |
| History.DetectionHistory.Open | surveillance_ui/_history.py:31-40 | a start-up with more saved pictures than the bound (a negative bound included) raises AttributeError, and an empty one with a negative bound raises IndexError; otherwise the list holds the saved detections sorted by time |
| History.AddKeepsBound | surveillance_ui/_history.py:48-68 | after an add whose trim does not raise, the list is within the bound and ends with the new record |
| IgnoreListing.AnyCovers | surveillance_ui/_ignore_list.py:89-100 | true exactly when some point has the class and camera and lies in the closed box |
| IgnoreListing.Normalised | surveillance_ui/_ignore_list.py:83-87 | the box divided by the frame size: each normalised side times the frame side is the box side |
| IgnoreListing.Covers | surveillance_ui/_ignore_list.py:91-97 | a point can only lie in a box whose corners are ordered |
| IgnoreListing.IgnoredBy | surveillance_ui/_ignore_list.py:77-100 | `_is_ignored`: a true answer means some point of that class and camera lies in the box divided by the frame size; a box without four values raises ValueError, and a zero frame side raises ZeroDivisionError |
| IgnoreListing.Area | surveillance_ui/_ignore_list.py:68 | the area of an ordered box is not negative, and a flat box has area 0 |
| IgnoreListing.KeepDecision | surveillance_ui/_ignore_list.py:67-73 | a detection is kept exactly when its area is at least the minimum (equality is kept) and it is not ignored; fewer than four coordinates raise IndexError; an error of the ignore test, reached only after the area test passes, propagates |
| IgnoreListing.FilterIndicesWithin | surveillance_ui/_ignore_list.py:65-73 | every collected index is a position of the input, and there are at most as many as detections |
| IgnoreListing.FilterIndicesNext | surveillance_ui/_ignore_list.py:66-73 | one detection more: its decision adds its index, adds nothing, or raises |
| IgnoreListing.FilterIndicesExactly | surveillance_ui/_ignore_list.py:65-73 | the kept indices are increasing, in range, and are exactly the positions whose decision is to keep |
| IgnoreListing.FilterIndicesFailsFromPrefix | surveillance_ui/_ignore_list.py:66-73 | an exception on an early detection is the whole call's exception |
| IgnoreListing.FilterIndicesAllKept | surveillance_ui/_ignore_list.py:65-73 | when every detection is kept, every index is kept |
| IgnoreListing.FilterDetections | surveillance_ui/_ignore_list.py:59-75 | `filter_ignored` succeeds exactly when every keep decision does |
| IgnoreListing.FilterDetectionsKeepsExactly | surveillance_ui/_ignore_list.py:59-75 | the result is the subsequence of the input at the kept indices, in the original order |
| IgnoreListing.FilterDetectionsIdempotent | surveillance_ui/_ignore_list.py:59-75 | filtering the filtered detections again changes nothing |
| IgnoreListing.PointToDict | surveillance_ui/_ignore_list.py:119-125 | the dictionary has exactly the keys coco_class_id, x, y and cam_id, holding the point's values |
| IgnoreListing.DictToPoint | surveillance_ui/_ignore_list.py:108-112 | a point is read from the four keys; a missing key raises KeyError for that key |
| IgnoreListing.PointDictRoundTrip | surveillance_ui/_ignore_list.py:108-125 | reading the written dictionary gives back the point |
| IgnoreListing.EncodePoints | surveillance_ui/_ignore_list.py:129 | one dictionary per point, in order |
| IgnoreListing.DecodePoints | surveillance_ui/_ignore_list.py:106-113 | when decoding succeeds, each item decodes to the point at its position |
| IgnoreListing.DecodePointsFailsFromPrefix | surveillance_ui/_ignore_list.py:106-113 | a bad early item is the whole load's exception |
| IgnoreListing.DecodeEncodedPoints | surveillance_ui/_ignore_list.py:106-129 | decoding the encoding gives back the points |
| IgnoreListing.LoadedPoints | surveillance_ui/_ignore_list.py:102-117 | a missing or unreadable file gives no points; text that is not JSON raises JSONDecodeError; a JSON file loads as the decoding of its items, one point per item |
| IgnoreListing.SavedFiles | surveillance_ui/_ignore_list.py:127-134 | the main file holds the encoding, the `.new` file is gone, and every other file is untouched |
| IgnoreListing.SaveThenLoad | surveillance_ui/_ignore_list.py:102-134 | after a save, loading gives the same points in the same order |
| IgnoreListing.LoadIgnoreList | surveillance_ui/_ignore_list.py:102-117 | the loop loads the points of the file; a missing file gives the empty list |
| IgnoreListing.IgnoreList.Open | surveillance_ui/_ignore_list.py:30-41 | the list starts with the loaded points and no listeners; a bad file's exception propagates |
| IgnoreListing.IgnoreList.GetIgnorePoints | surveillance_ui/_ignore_list.py:43-45 | the copy equals the list |
| IgnoreListing.IgnoreList.SaveIgnoreList | surveillance_ui/_ignore_list.py:127-133 | the files become the saved encoding of the points |
| IgnoreListing.IgnoreList.Add | surveillance_ui/_ignore_list.py:47-51 | the point is appended after the existing points; `added` fires for it and the list is saved, and firing before any listener raises AttributeError |
| IgnoreListing.IgnoreList.Remove | surveillance_ui/_ignore_list.py:53-57 | the first equal point is removed, or ValueError when there is none; then `removed` fires and the list is saved |
| IgnoreListing.IgnoreList.IsIgnored | surveillance_ui/_ignore_list.py:77-100 | the loop answers as the closed-box rule does |
| IgnoreListing.IgnoreList.Keep | surveillance_ui/_ignore_list.py:66-73 | one step of the filter loop decides as the keep rule does, errors included |
| IgnoreListing.IgnoreList.FilterIgnored | surveillance_ui/_ignore_list.py:59-75 | the loop filters as the keep rule does |
| HistoryView.IgnorePointFor | surveillance_ui/_history_view.py:120-124 | the point is the box centre divided by the frame size, with the detection's class and camera; the errors come in the order of evaluation: fewer than three corners raise IndexError, then a zero width raises ZeroDivisionError, then a missing fourth corner raises IndexError, then a zero height raises ZeroDivisionError; it succeeds exactly when none of these happens |
| HistoryView.IgnorePointInUnitSquare | surveillance_ui/_history_view.py:122-123 | a box inside its frame gives a point in the unit square |
| HistoryView.IgnoredAfterIgnore | surveillance_ui/_history_view.py:120-124 | once that point is in the list, `_is_ignored` answers true for the same box, class, camera and frame |
| HistoryView.RowTexts | surveillance_ui/_history_view.py:80-88 | the row's texts exist exactly when the class and the camera are known; otherwise the lookup's ValueError is raised |
| HistoryView.AllShowableMeans | surveillance_ui/_history_view.py:61-62 | a history can be shown exactly when each of its records can |
| HistoryView.RowOf | surveillance_ui/_history_view.py:80-88 | five columns: the time as `%Y-%m-%d %H:%M:%S`, the interest's caption, the camera's caption, the list of truncated coordinates in brackets, and the confidence's `%.0f` followed by " %" |
| HistoryView.RowTimeReadsBack | surveillance_ui/_history_view.py:83 | the time column reads back as the six date-time fields, which give the time truncated to the second |
| HistoryView.RecordsOf | surveillance_ui/_history_view.py:75-77 | the record of each row, in order |
| HistoryView.DetectionHistoryView.Append | surveillance_ui/_history_view.py:79-95 | a new last row for the record, or the lookup's exception with no row added |
| HistoryView.DetectionHistoryView.Remove | surveillance_ui/_history_view.py:97-105 | removes the first row holding the same object (identity), else ValueError("Detection not found.") |
| HistoryView.DetectionHistoryView.Populate | surveillance_ui/_history_view.py:61-62 | the rows hold the history's records in order, unless one of them cannot be shown |
| HistoryView.DetectionHistoryView.AppendNext | surveillance_ui/_history_view.py:61-62 | one record more: its row is appended, or a record that cannot be shown raises ValueError |
| HistoryView.DetectionHistoryView.Open | surveillance_ui/_history_view.py:33-65 | fills from the history in order, then registers `_append` and `_remove` as the only listeners |
| ErrorHandling.FormatErrorInfo | surveillance_ui/error_handler.py:89-90 | the context, a blank line, then the traceback lines joined with newlines |
| ErrorHandling.ErrorHandler.constructor | surveillance_ui/error_handler.py:26-33 | the last dialog time starts at `datetime.min` and the counter at zero |
| ErrorHandling.ErrorHandler.HandleGracefully | surveillance_ui/error_handler.py:38-72 | the counter is back at its entry value; a RecursionError is raised again inside a nested handler; every other exception is reported with the context and not raised |
| ErrorHandling.ErrorHandler.HandleNested | surveillance_ui/error_handler.py:61-72 | a RecursionError in a nested handler is reported once, by the outermost handler, with its context |
| ErrorHandling.ErrorHandler.HandleGracefullyInternal | surveillance_ui/error_handler.py:35-36 | the same as `handle_gracefully` with the context "Internal error." |
| ErrorHandling.ErrorHandler.ReportAndLogError | surveillance_ui/error_handler.py:74-76 | reports the exception with the context |
| ErrorHandling.ErrorHandler.OnUncaughtException | surveillance_ui/error_handler.py:92-102 | every report is logged; a dialog is shown and its time recorded only when more than 30 s have passed since the last one |
| ErrorHandling.FirstErrorShowsDialog | surveillance_ui/error_handler.py:27-95 | starting from `datetime.min`, the first error always shows the dialog |
| ErrorHandling.YearAfterFirstIsLater | surveillance_ui/error_handler.py:95 | any time after year 1 is more than a year past `datetime.min` |
| Utility.LastVideo | surveillance_ui/utility.py:86-93 | the last video frame of a run, that is one after which only audio frames follow, or none when all frames are audio |
| Utility.AfterFramesKeepsLatest | surveillance_ui/utility.py:78-122 | after a run of frames the slot holds the latest video frame, or its old content when there was none |
| Utility.LastFrameVideoCapture.constructor | surveillance_ui/utility.py:30-62 | the slot starts empty and no callback has run |
| Utility.LastFrameVideoCapture.UpdateLatestFrame | surveillance_ui/utility.py:116-122 | the slot holds exactly the new frame; an older frame is discarded |
| Utility.LastFrameVideoCapture.GetLatestFrame | surveillance_ui/utility.py:99-110 | returns the slot's frame, or None, and leaves the slot empty |
| Utility.LastFrameVideoCapture.ProcessFrame | surveillance_ui/utility.py:86-97 | a video frame goes to `on_frame`, if set, and then to the slot; an audio frame's bytes go to `on_audio_bytes`, if set, and never touch the slot |
| Utility.LastFrameVideoCapture.PullFrames | surveillance_ui/utility.py:64-81 | frames are processed in order until shutdown is seen before one |
| Utility.LastFrameVideoCapture.ShutDown | surveillance_ui/utility.py:112-114 | sets the shutdown flag and changes nothing else |
| Utility.CallsFor | surveillance_ui/utility.py:204-206 | one call per listener, in list order |
| Utility.EventDispatcher.constructor | surveillance_ui/utility.py:193-195 | no listener list exists yet |
| Utility.EventDispatcher.Register | surveillance_ui/utility.py:197-199 | the listener list becomes exactly the new listener; earlier ones are dropped |
| Utility.EventDispatcher.Forget | surveillance_ui/utility.py:201-202 | removes the first equal listener, or raises when the list or the listener is missing |
| Utility.EventDispatcher.Fire | surveillance_ui/utility.py:204-206 | calls each listener in order; before any `register` it raises AttributeError |
| Utility.SinkBufferDurationUs | surveillance_ui/utility.py:247 | the buffer covers the target delay plus three tolerances, so with a non-negative tolerance it holds at least the top of the pacing band |
| Utility.DefaultSinkBufferDuration | surveillance_ui/utility.py:305-306 | with the defaults (200 000 µs and 100 000 µs), the buffer covers 500 000 µs |
| Utility.Pace | surveillance_ui/utility.py:269-276 | a chunk is skipped exactly when more than target plus tolerance is buffered; below target minus tolerance it is written |
| Utility.SliceFrom | surveillance_ui/utility.py:282 | `data[k:]` is a suffix, of length `len - k` for non-negative k and of length `min(-k, len)` for negative k |
| Utility.Drain | surveillance_ui/utility.py:278-285 | as intended: at most one piece per answer, each piece non-empty, and no more bytes unsent than were given |
| Utility.DrainAsWritten | surveillance_ui/utility.py:278-285 | as written: the bytes taken and the bytes left together are at most the data, so no byte is sent twice |
| Utility.DrainConservesData | surveillance_ui/utility.py:278-285 | the accepted pieces, followed by what is still unsent, are the original bytes in order |
| Utility.DrainCompleteDeliversAll | surveillance_ui/utility.py:278-285 | when the loop ends, the accepted pieces concatenate to the original bytes |
| Utility.DrainAsWrittenDropsBytesOnError | surveillance_ui/utility.py:280-282 | as written, a write that answers -1 loses all but the last byte |
| Utility.AcceptedEvents | surveillance_ui/utility.py:280 | one sink event per accepted piece, holding that piece, in order |
| Utility.Dispatch | surveillance_ui/utility.py:260-276 | a volume update sets that volume and nothing else; a chunk never sets the volume, and leaves no trace exactly when it is skipped or the device takes none of it; a chunk within the band gives one accepted event per piece of the drain, in order |
| Utility.VolumesSetAppend | surveillance_ui/utility.py:261 | the volumes set over two runs of events, one after the other |
| Utility.AcceptedEventsSetNoVolume | surveillance_ui/utility.py:278-285 | writing data never sets the volume |
| Utility.Playback | surveillance_ui/utility.py:250-276 | the sink receives exactly the queued volume updates, in queue order, whatever chunks come between |
| Utility.ChunkWrittenIffInBand | surveillance_ui/utility.py:264-276 | a non-empty chunk reaches the sink exactly when at most target plus tolerance is buffered, and then the bytes the sink accepts, in order, are the whole chunk |
| Utility.BytesAcceptedOfPieces | surveillance_ui/utility.py:278-285 | the accepted-piece events carry exactly the concatenation of the pieces, in order |
| Utility.AcceptedEventsNext | surveillance_ui/utility.py:280-282 | one more accepted piece adds its event at the end of the sink's events |
| Utility.DrainedNext | surveillance_ui/utility.py:279-285 | one more answer of the device: a positive one takes the next piece off the data still owed, any other takes nothing |
| Utility.AudioStreamPlayerWorker.constructor | surveillance_ui/utility.py:225-235 | an empty queue and nothing written to the sink |
| Utility.AudioStreamPlayerWorker.Push | surveillance_ui/utility.py:287-288 | the chunk joins the end of the queue |
| Utility.AudioStreamPlayerWorker.SetVolume | surveillance_ui/utility.py:290-291 | the volume update joins the end of the queue |
| Utility.AudioStreamPlayerWorker.Shutdown | surveillance_ui/utility.py:293-294 | sets the shutdown flag only |
| Utility.AudioStreamPlayerWorker.StartSink | surveillance_ui/utility.py:245-248 | the sink starts at volume 0 with the buffer sized for target plus three tolerances |
| Utility.AudioStreamPlayerWorker.WriteData | surveillance_ui/utility.py:278-285 | as intended: the loop writes the accepted pieces to the sink and leaves the rest unsent |
| Utility.AudioStreamPlayerWorker.Step | surveillance_ui/utility.py:250-276 | as intended: one turn: stop on shutdown, otherwise take the head of the queue and apply it to the sink |
| Utility.AudioStreamPlayer.constructor | surveillance_ui/utility.py:302-310 | the volume starts at 0 and the worker is empty |
| Utility.AudioStreamPlayer.Push | surveillance_ui/utility.py:312-313 | hands the chunk to the worker |
| Utility.AudioStreamPlayer.SetVolume | surveillance_ui/utility.py:315-317 | records the volume and queues it for the worker |
| Utility.AudioStreamPlayer.GetVolume | surveillance_ui/utility.py:307-320 | the last volume set, or 0 before any |
| Application.CheckedIndices | surveillance_ui/_application.py:677-679 | the positions of the checked boxes, increasing |
| Application.SelectedClasses | surveillance_ui/_application.py:675-681 | the class ids of the checked interests, in configuration order |
| Application.GetSelectedCocoClasses | surveillance_ui/_application.py:675-681 | the loop returns the selected classes; fewer check boxes than interests raise IndexError |
| Application.SelectedConfidence | surveillance_ui/_application.py:683-685 | the slider is inverse to confidence: 0 gives 1.0, 100 gives 0.0, and the range stays within 0..1 |
| Application.InitialSlider | surveillance_ui/_application.py:479 | `int((1 - initial_confidence) * 100)`: the percentage of doubt truncated toward zero, non-negative for a confidence up to 1 |
| Application.InitialSliderRoundTrip | surveillance_ui/_application.py:479 | the initial slider lies in 0..100, and reading it back through `_get_selected_confidence` gives the initial confidence, rounded up by less than 0.01 |
| Application.EnabledFlags | surveillance_ui/_application.py:162 | one flag per interest: whether it starts enabled |
| Application.DefaultSettings | surveillance_ui/_application.py:159-164 | the first `configure` uses the interests enabled by default, in order, and the initial confidence |
| Application.Detector.constructor | surveillance_ui/_application.py:114-120 | nothing is pending and nothing is configured |
| Application.Detector.UpdateModel | surveillance_ui/_application.py:114-120 | exactly one pending pair of classes and confidence remains, the latest |
| Application.Detector.ConfigureDefaults | surveillance_ui/_application.py:159-164 | the detector is configured with the default settings |
| Application.InForce | surveillance_ui/_application.py:171-175 | the settings in force are the pending pair if any, else the last configured |
| Application.Configured | surveillance_ui/_application.py:171-173 | taking the slot adds at most one `configure` call, the pending pair, and the settings then in force are the ones the slot held |
| Application.Detector.TakePending | surveillance_ui/_application.py:171-175 | the slot ends empty and its pair, if any, is the one new `configure` call |
| Application.StopIndex | surveillance_ui/_application.py:167-169 | the first camera before which shutdown is seen |
| Application.Emission | surveillance_ui/_application.py:177-187 | a camera with no frame is skipped; a result is emitted exactly when the filtered detections are non-empty; a filter exception propagates |
| Application.Emissions | surveillance_ui/_application.py:167-187 | the cameras are visited in configuration order, and every emitted result has detections |
| Application.EmissionsFailsFromPrefix | surveillance_ui/_application.py:167-187 | an exception at one camera ends the pass |
| Application.EmissionsIgnoreLaterVisits | surveillance_ui/_application.py:167-169 | the results up to a camera do not depend on the later cameras |
| Application.Detector.DetectorPass | surveillance_ui/_application.py:166-187 | one pass: shutdown is checked before each camera; the pending settings are applied together at the first camera; the results are those of the round-robin specification |
| Application.Detector.VisitCamera | surveillance_ui/_application.py:177-187 | the work at one camera gives exactly what `Emission` says |
| Application.Detector.VisitNext | surveillance_ui/_application.py:171-187 | one camera more: the slot is taken and the results grow to those of the longer prefix of cameras |
| Application.OptionalPath | surveillance_ui/_application.py:216-219 | a missing sound path adds nothing, a present one adds itself |
| Application.InterestSounds | surveillance_ui/_application.py:214-217 | at most one sound per detection; an unknown class raises |
| Application.InterestSoundsFailsFromPrefix | surveillance_ui/_application.py:214-217 | an unknown class early on ends the gathering |
| Application.InterestSoundsPassIffKnown | surveillance_ui/_application.py:214-217 | the gathering succeeds exactly when every class is known |
| Application.Leading | surveillance_ui/_application.py:214 | `detections[:5]`: the first five, or all of them when there are fewer |
| Application.AlertSounds | surveillance_ui/_application.py:212-220 | at most six sounds: the interest sounds of the first five detections, then the camera's sound |
| Application.AlertSoundsPassIffKnown | surveillance_ui/_application.py:212-220 | the alert's lookups succeed exactly when the leading classes and the camera are known |
| Application.PlayNext | surveillance_ui/_application.py:243-252 | acts only when ready and the queue is non-empty: clears the flag and plays the head of the first group; no empty group remains and the order of the sounds is kept |
| Application.Enqueue | surveillance_ui/_application.py:222-225 | an empty group is never queued; a non-empty one joins the end, and when the player is not ready that is the only change; when it is ready, the first sound of the queue is played, the player becomes busy, and exactly that one sound leaves the queue |
| Application.PlayersFor | surveillance_ui/_application.py:217-220 | one player per sound path |
| Application.AlertPlayer.constructor | surveillance_ui/_application.py:197-204 | ready to play, with an empty queue and an empty cache |
| Application.AlertPlayer.GetSound | surveillance_ui/_application.py:254-265 | a cached path returns its player; a new path gets a new player for that source, added to the cache |
| Application.AlertPlayer.TryPlayNextSound | surveillance_ui/_application.py:243-252 | the queue and flag change as `PlayNext` says |
| Application.AlertPlayer.OnMediaStatusChange | surveillance_ui/_application.py:237-241 | only EndOfMedia sets the flag and plays the next sound |
| Application.AlertPlayer.FetchSound | surveillance_ui/_application.py:216-220 | fetches the player for a path that is present, and nothing otherwise |
| Application.AlertPlayer.CollectInterestSounds | surveillance_ui/_application.py:214-217 | the loop gathers the interest sounds, growing the cache |
| Application.AlertPlayer.CollectNext | surveillance_ui/_application.py:214-217 | one detection more: its interest's sound joins the gathering, or the unknown class ends it with the cache unchanged |
| Application.AlertPlayer.TryAlert | surveillance_ui/_application.py:212-227 | queues the alert's group and tries to play; a failed lookup raises and leaves the queue unchanged |
| Application.FloorDiv | surveillance_ui/_application.py:318 | `math.floor(a / c)`, for either sign of c |
| Application.CeilDiv | surveillance_ui/_application.py:316 | `math.ceil(a / c)` for positive c |
| Application.PyMod | surveillance_ui/_application.py:319 | Python's `%`: its sign follows the divisor |
| Application.AutoLayoutCell | surveillance_ui/_application.py:308-324 | the cell of widget `index`; a column count of zero raises ZeroDivisionError |
| Application.AutoLayoutInGrid | surveillance_ui/_application.py:318-319 | the column lies in 0..c-1 and the row is non-negative |
| Application.AutoLayoutAnnotationBelow | surveillance_ui/_application.py:313-319 | annotation n+i sits in the column of widget i, ceil(n/c) rows lower, below every live view |
| Application.GridPositionDetermines | surveillance_ui/_application.py:318-319 | distinct indices have distinct rows or columns |
| Application.AutoLayoutDistinct | surveillance_ui/_application.py:308-324 | the 2n widgets occupy distinct cells |
| Application.MaxOf | surveillance_ui/_application.py:355-356 | `max` is a member of the list and at least every element |
| Application.Bottoms | surveillance_ui/_application.py:355 | `y + height` of each location |
| Application.Rights | surveillance_ui/_application.py:356 | `x + width` of each location |
| Application.ShiftedDown | surveillance_ui/_application.py:360 | copies of the locations, moved down by the given amount |
| Application.ManualLayout | surveillance_ui/_application.py:344-363 | a location count outside {n, 2n} raises the formatted ValueError, and no location at all makes `max` raise; otherwise 2n locations starting with the given ones |
| Application.ManualPlan | surveillance_ui/_application.py:354-363 | n locations are extended with a shifted copy of themselves and the row count doubles; the given locations come first |
| Application.ManualLayoutEncloses | surveillance_ui/_application.py:355-363 | every location fits inside the computed aspect, and the column count is at least the grid's |
| Application.ManualPlanEncloses | surveillance_ui/_application.py:355-363 | every location of the plan fits inside the computed aspect |
| Application.ManualLayoutAnnotationsBelow | surveillance_ui/_application.py:358-361 | with n locations, the annotation copies lie in the lower half and the live views in the upper half |
| Application.ManualPlanAnnotationsBelow | surveillance_ui/_application.py:358-361 | the extended plan puts the given locations in the upper half and their copies, shifted by half the rows, in the lower half |
| Application.BatchOf | surveillance_ui/_application.py:689-690 | the batch's camera, time and frame size (width, height) |
| Application.BatchInfos | surveillance_ui/_application.py:694 | one detection record per detection of the batch |
| Application.IsFreshMeansNoneCovers | surveillance_ui/_history.py:54-62 | freshness checks the stored detections only |
| Application.MaxEntries | surveillance_ui/_history.py:68 | the number of entries a trim that does not raise keeps: the bound itself when it is non-negative |
| Application.Screen | surveillance_ui/_application.py:692-697 | at most one fresh detection per detection, and an empty batch changes nothing |
| Application.ScreenNext | surveillance_ui/_application.py:692-697 | one detection more: it is stored exactly when no record on file covers it |
| Application.ScreenWithoutEviction | surveillance_ui/_application.py:692-697 | while the history has room and the delay is non-negative, the fresh detections are added in order, no stored record covers any of them, and no two of them share a class |
| Application.ScreenEvictionRepeats | surveillance_ui/_application.py:692-697 | with max_history_entries 1, the batch [a, b, a] reports a twice as fresh |
| Application.SurveillanceWidget.constructor | surveillance_ui/_application.py:536-614 | one annotation per camera, none showing a picture yet |
| Application.SurveillanceWidget.RecordFresh | surveillance_ui/_application.py:692-697 | the loop adds each fresh detection to the history before it checks the next one, as `Screen` says |
| Application.SurveillanceWidget.RecordNext | surveillance_ui/_application.py:692-697 | one detection more: the history follows `Screen` of the longer prefix unless `add` raises |
| Application.SurveillanceWidget.OnDetection | surveillance_ui/_application.py:688-710 | the history follows `Screen`; an alert is tried exactly when some detection is fresh; then the camera's annotation is updated at its position, or an unknown camera raises |
| LegacyApplication.Voiced | surveillance_ui/__init__.py:438-445 | one played sound per path, at the given volume |
| LegacyApplication.VoicedAppend | surveillance_ui/__init__.py:158-162 | the sounds of two runs of paths, one after the other |
| LegacyApplication.LegacyAlertPlayer.constructor | surveillance_ui/__init__.py:140-145 | the slot starts empty |
| LegacyApplication.LegacyAlertPlayer.TryFire | surveillance_ui/__init__.py:165-171 | nothing at a volume of 0.001 or less; the alert fills an empty slot, and a new alert is dropped when one is pending |
| LegacyApplication.LegacyAlertPlayer.PlaySoundFileBlocking | surveillance_ui/__init__.py:438-440 | a None path plays nothing |
| LegacyApplication.LegacyAlertPlayer.PlayInterestSounds | surveillance_ui/__init__.py:158-160 | the interest sounds of the leading detections, in order; an unknown class raises after the sounds before it |
| LegacyApplication.LegacyAlertPlayer.PlayNextInterest | surveillance_ui/__init__.py:158-160 | one detection more: its sound is played, or an unknown class raises with nothing played |
| LegacyApplication.LegacyAlertPlayer.PlayAlert | surveillance_ui/__init__.py:158-162 | at most five interest sounds, then the camera sound, as `AlertSounds` says |
| LegacyApplication.LegacyAlertPlayer.PlayStep | surveillance_ui/__init__.py:149-162 | one turn: stop on the shutdown flag, wait on an empty slot, else empty the slot and play its alert |
| LegacyApplication.MultiviewCells | surveillance_ui/__init__.py:317-324 | row floor(i/c) and column i - row*c (in 0..c-1); the annotation goes ceil(n/c) rows lower in the same column; zero columns raise |
| LegacyApplication.MultiviewAgreesWithAuto | surveillance_ui/__init__.py:317-324 | the older multiview puts both widgets where the newer automatic layout does |

## Left out

- Threads, daemon flags, `join`, and the locks of `synchronized.py`. Each lock-guarded section is one
  sequential step, and concurrency is not modelled.
- Opening and decoding streams with PyAV, resampling, and the FFmpegError retry loop. These are
  foreign I/O; frames arrive as a sequence with a shutdown flag before each.
- QAudioSink, QMediaPlayer and pygame, and the conversions between bytes and durations. These are
  foreign devices. The buffered microseconds and the answers to `write` are inputs, and a played
  media player is recorded instead of heard.
- PIL pictures, the JSON text format and the OS file system. Files are a map from name to entry, the
  ignore file holds decoded values, and the directory listing order is an input.
- The detector model, `supervision` annotation and detection indexing. These are foreign calls,
  passed as functions.
- Floating point. Floats are reals: float32 coordinates, the division in `_is_ignored`, and `%.0f`
  of a float product are exact here.
- Regular expression `\d` is modelled as the ASCII digits only; Python's also matches other Unicode
  digits.
- `strftime("%Y")` is modelled as four digits with leading zeros; the C library may print years
  before 1000 without them.
- `datetime` overflow (a year outside 1..9999) in `when + redetection_delay` is not modelled.
- `excepthook`, `log_error`'s file and `datetime.now()`. The log and the dialogs are sequences, and
  the clock readings are parameters. The traceback lines are parameters too, since
  `traceback.format_exception` is a foreign call.
- The `graceful_handler` decorators around the alert player, the worker and the widget. Their effect
  is `HandleGracefully`, modelled once, and is not repeated around each handler.
- `_AlertPlayer.set_volume` and `_AlertPlayer.shut_down`: they only forward to media players, which
  are foreign.
- All widget code: `_live_view.py`, `_ignore_list_view.py` (which registers the ignore list's
  listeners, so those are never registered in this model), `FittingImage`, `make_percentage_slider`,
  QMessageBox, `adjust_cam_sizes`, `setGeometry`, `heightForWidth`, and the QSize conversion of the
  manual layout's aspect.
- A negative grid column count in the automatic layout is computed with Python's rules, but Qt's
  handling of the resulting negative cells is not modelled.
- The older `_on_detection` and `_detector_process` of `__init__.py`. They rely on a history view
  class, `SurveillanceHistoryView`, and its `persist_if_fresh` (surveillance_ui/__init__.py:381,
  imported from `_history` at lines 27-29 and constructed at line 293). This version of
  `_history.py` does not define that class, so what the older handlers store cannot be read from
  the sources. They alert through the older player's `try_fire` with the volume slider's value
  divided by 100 (surveillance_ui/__init__.py:390), not through `try_alert`; that call is
  `LegacyApplication.LegacyAlertPlayer.TryFire`.
- `yolov9_detection_logic.py` and `example.py`.
- Utility.AudioStreamPlayerWorker.WriteData, Utility.AudioStreamPlayerWorker.Step: they use the
  drain loop as intended (`Drain`), where only a positive answer counts as bytes taken; the loop as
  written, which slices on -1 as well, is `DrainAsWritten` (see Findings). The `print` and the
  10 ms `sleep` after a refused write are left out: a log line on the console and a pause change
  no state of the model.
- History.SortByWhen: states order and permutation but not stability among equal times.
- Application.SurveillanceWidget.RecordFresh: does not describe the history after `add` raises
  part-way through the batch.
- Application.SurveillanceWidget.OnDetection: does not describe the history or the alert player after
  an exception, only that the annotations are unchanged.
- Application.ManualLayoutEncloses, Application.ManualPlanEncloses: require every location's bottom to be non-negative. Otherwise
  the shifted copies can rise above the computed row count, so the property does not hold.
- Application.ManualLayoutAnnotationsBelow, Application.ManualPlanAnnotationsBelow: require every
  location's top to be non-negative. The copy of a location with a negative top starts above the
  middle, so the copies would not all lie in the lower half.
- Application.ScreenWithoutEviction: the "one fresh detection per camera and class" rule needs room
  in the history. Application.ScreenEvictionRepeats shows that it fails when eviction happens inside
  the batch.

## Findings

| source | as written | input that shows it | evidently intended | confidence | as-written member | corrected member |
|---|---|---|---|---|---|---|
| surveillance_ui/utility.py:280-282 | `if written:` is true for QIODevice's error answer -1, and `data[-1:]` then keeps only the last byte | a 3-byte chunk [1, 2, 3] where the device answers -1 and then 1: only byte 3 is kept and sent, and bytes 1 and 2 are lost | treat only a positive count as accepted, and retry the same bytes otherwise | not executed | Utility.DrainAsWrittenDropsBytesOnError | Utility.DrainConservesData |
