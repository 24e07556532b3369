/**
 * `DetectionHistory`: the bounded list of recorded detections, the freshness rule that decides
 * whether a detection is recorded, and the detections folder that keeps one picture per record and
 * rebuilds the list at start-up. The folder is a map from file name to entry; the order in which
 * the operating system lists it is a parameter.
 */
module History {
  import opened Wrappers
  import opened Timestamps
  import opened Common
  import opened Interface
  import opened Utility
  import opened HistoryCodec
  import opened Lists

  /** An entry of the detections folder. */
  datatype FolderEntry = RegularFile(image: Image) | Directory

  type Folder = map<string, FolderEntry>

  /** The detections the records stand for, in order. */
  function Infos(records: seq<DetectionRecord>): (infos: seq<DetectionInfo>)
    ensures |infos| == |records| && forall i :: 0 <= i < |records| ==> infos[i] == records[i].info
  {
    if records == [] then [] else Infos(records[..|records| - 1]) + [records[|records| - 1].info]
  }

  // ---------------------------------------------------------------------------------------------
  // Freshness
  // ---------------------------------------------------------------------------------------------

  /**
   * Whether a stored detection makes a new one a repeat: same camera, same class, and the new one
   * no later than the stored time plus the delay. There is no lower bound on the new time.
   */
  predicate CoversRepeat(existing: DetectionInfo, d: DetectionInfo, redetectionDelay: int) {
    && existing.camId == d.camId
    && existing.supervision.cocoClassId == d.supervision.cocoClassId
    && Micros(d.when) <= Micros(existing.when) + redetectionDelay
  }

  /** `is_fresh_detection`: no stored record covers the detection. */
  function IsFreshDetection(records: seq<DetectionRecord>, d: DetectionInfo, redetectionDelay: int): (isFresh: bool)
    ensures !isFresh <==> exists i :: 0 <= i < |records| && CoversRepeat(records[i].info, d, redetectionDelay)
  {
    if records == [] then true
    else if CoversRepeat(records[0].info, d, redetectionDelay) then false
    else
      var r := IsFreshDetection(records[1..], d, redetectionDelay);
      assert forall i :: 1 <= i < |records| ==> records[i] == records[1..][i - 1];
      r
  }

  /** A record just added covers any later detection of its camera and class within the delay. */
  lemma RecordedDetectionCoversRepeat(records: seq<DetectionRecord>, r: DetectionRecord, d: DetectionInfo, redetectionDelay: int)
    requires r.info.camId == d.camId && r.info.supervision.cocoClassId == d.supervision.cocoClassId
    requires Micros(d.when) <= Micros(r.info.when) + redetectionDelay
    ensures !IsFreshDetection(records + [r], d, redetectionDelay)
  {
    assert (records + [r])[|records|] == r;
  }

  // ---------------------------------------------------------------------------------------------
  // Trimming
  // ---------------------------------------------------------------------------------------------

  /** The state `_control_length` leaves behind, and whether it returned or raised. */
  datatype Trimming = Trimming(
    list: seq<DetectionRecord>, folder: Option<Folder>, removedCalls: seq<Call<DetectionRecord>>, outcome: Outcome)

  /**
   * `_control_length`: while the list is longer than the maximum, take its first record, fire the
   * removed event for it and delete its picture. Each step can raise: IndexError when the list is
   * already empty (a negative maximum), AttributeError when no one has registered for the removed
   * event, FileNotFoundError when the picture is missing, IsADirectoryError when it is a folder.
   * `nameOf` is the picture naming, `_detection_to_filename`; the history passes `EncodeFilename`,
   * and the lemmas below hold for any naming.
   */
  function Trim(
    list: seq<DetectionRecord>, folder: Option<Folder>, calls: seq<Call<DetectionRecord>>,
    listeners: Option<seq<ListenerId>>, maxEntries: int, nameOf: DetectionInfo -> string): (t: Trimming)
    ensures |list| <= maxEntries ==> t == Trimming(list, folder, calls, Pass)
    ensures |calls| <= |t.removedCalls| && t.removedCalls[..|calls|] == calls
    decreases |list|
  {
    if |list| <= maxEntries then Trimming(list, folder, calls, Pass)
    else if list == [] then Trimming(list, folder, calls, Fail(IndexError))
    else
      var evicted := list[0];
      if listeners.None? then Trimming(list[1..], folder, calls, Fail(AttributeError))
      else
        var fired := calls + CallsFor(listeners.value, evicted);
        var name := nameOf(evicted.info);
        if folder.None? || name !in folder.value then Trimming(list[1..], folder, fired, Fail(FileNotFoundError))
        else if folder.value[name].Directory? then Trimming(list[1..], folder, fired, Fail(OtherException("IsADirectoryError")))
        else Trim(list[1..], Some(folder.value - {name}), fired, listeners, maxEntries, nameOf)
  }

  /** The removed-event calls for records evicted one after another. */
  function EvictionCalls(listeners: seq<ListenerId>, evicted: seq<DetectionRecord>): seq<Call<DetectionRecord>> {
    if evicted == [] then [] else CallsFor(listeners, evicted[0]) + EvictionCalls(listeners, evicted[1..])
  }

  /** The calls for a run of evictions are those for its first record, then those for the rest. */
  lemma EvictionCallsAfterFirst(calls: seq<Call<DetectionRecord>>, listeners: seq<ListenerId>, evicted: seq<DetectionRecord>)
    requires evicted != []
    ensures calls + EvictionCalls(listeners, evicted)
            == (calls + CallsFor(listeners, evicted[0])) + EvictionCalls(listeners, evicted[1..])
  {
  }

  /** The picture names of the records. */
  function PictureNames(records: seq<DetectionRecord>, nameOf: DetectionInfo -> string): set<string> {
    if records == [] then {} else {nameOf(records[0].info)} + PictureNames(records[1..], nameOf)
  }

  /** Trimming only ever removes records from the front; the rest keep their order. */
  lemma {:induction false} TrimKeepsSuffix(
    list: seq<DetectionRecord>, folder: Option<Folder>, calls: seq<Call<DetectionRecord>>,
    listeners: Option<seq<ListenerId>>, maxEntries: int, nameOf: DetectionInfo -> string)
    ensures var t := Trim(list, folder, calls, listeners, maxEntries, nameOf);
            |t.list| <= |list| && t.list == list[|list| - |t.list|..]
    decreases |list|
  {
    if |list| > maxEntries && list != [] && listeners.Some? {
      var name := nameOf(list[0].info);
      if folder.Some? && name in folder.value && folder.value[name].RegularFile? {
        TrimKeepsSuffix(list[1..], Some(folder.value - {name}), calls + CallsFor(listeners.value, list[0]), listeners, maxEntries, nameOf);
      }
    }
  }

  /**
   * When trimming returns normally the list holds at most the maximum: all of it when it was
   * short enough, otherwise exactly the maximum.
   */
  lemma {:induction false} TrimOnSuccessBound(
    list: seq<DetectionRecord>, folder: Option<Folder>, calls: seq<Call<DetectionRecord>>,
    listeners: Option<seq<ListenerId>>, maxEntries: int, nameOf: DetectionInfo -> string)
    requires Trim(list, folder, calls, listeners, maxEntries, nameOf).outcome.Pass?
    ensures var t := Trim(list, folder, calls, listeners, maxEntries, nameOf);
            && |t.list| <= maxEntries
            && (|list| <= maxEntries ==> t.list == list && t.folder == folder && t.removedCalls == calls)
            && (|list| > maxEntries ==> |t.list| == maxEntries)
    decreases |list|
  {
    if |list| > maxEntries {
      var name := nameOf(list[0].info);
      TrimOnSuccessBound(list[1..], Some(folder.value - {name}), calls + CallsFor(listeners.value, list[0]), listeners, maxEntries, nameOf);
    }
  }

  /**
   * When trimming returns normally after evicting the first `k` records, the removed event fired
   * for each of them in eviction order and exactly their pictures are gone from the folder.
   */
  lemma {:induction false} TrimOnSuccessEvictions(
    list: seq<DetectionRecord>, folder: Option<Folder>, calls: seq<Call<DetectionRecord>>,
    listeners: Option<seq<ListenerId>>, maxEntries: int, nameOf: DetectionInfo -> string)
    requires Trim(list, folder, calls, listeners, maxEntries, nameOf).outcome.Pass?
    ensures var t := Trim(list, folder, calls, listeners, maxEntries, nameOf);
            var k := |list| - |t.list|;
            0 <= k <= |list| && t.list == list[k..]
            && (k > 0 ==> listeners.Some? && folder.Some? && t.folder == Some(folder.value - PictureNames(list[..k], nameOf))
                          && t.removedCalls == calls + EvictionCalls(listeners.value, list[..k]))
    decreases |list|
  {
    TrimKeepsSuffix(list, folder, calls, listeners, maxEntries, nameOf);
    if |list| > maxEntries {
      var name := nameOf(list[0].info);
      var fired := calls + CallsFor(listeners.value, list[0]);
      var shrunk := folder.value - {name};
      var t := Trim(list[1..], Some(shrunk), fired, listeners, maxEntries, nameOf);
      TrimKeepsSuffix(list[1..], Some(shrunk), fired, listeners, maxEntries, nameOf);
      assert Trim(list, folder, calls, listeners, maxEntries, nameOf) == t;
      var k := |list| - |t.list|;
      var evicted := list[..k];
      assert evicted[0] == list[0] && evicted[1..] == list[1..][..k - 1];
      if |list[1..]| <= maxEntries {
        assert k == 1 && evicted[1..] == [];
        assert folder.value - PictureNames(evicted, nameOf) == shrunk;
        assert EvictionCalls(listeners.value, evicted[1..]) == [];
      } else {
        TrimOnSuccessBound(list[1..], Some(shrunk), fired, listeners, maxEntries, nameOf);
        TrimOnSuccessEvictions(list[1..], Some(shrunk), fired, listeners, maxEntries, nameOf);
        var rest := PictureNames(list[1..][..k - 1], nameOf);
        assert t.folder == Some(shrunk - rest);
        assert shrunk - rest == folder.value - PictureNames(evicted, nameOf);
        EvictionCallsAfterFirst(calls, listeners.value, evicted);
      }
    }
  }

  /**
   * When trimming returns normally, the detections left are the last `maxEntries` of those it was
   * given.
   */
  lemma TrimPassKeepsLast(
    list: seq<DetectionRecord>, folder: Option<Folder>, calls: seq<Call<DetectionRecord>>,
    listeners: Option<seq<ListenerId>>, maxEntries: int, nameOf: DetectionInfo -> string)
    requires Trim(list, folder, calls, listeners, maxEntries, nameOf).outcome.Pass?
    ensures maxEntries >= 0
    ensures Infos(Trim(list, folder, calls, listeners, maxEntries, nameOf).list) == KeepLast(Infos(list), maxEntries)
  {
    TrimOnSuccessBound(list, folder, calls, listeners, maxEntries, nameOf);
    TrimKeepsSuffix(list, folder, calls, listeners, maxEntries, nameOf);
  }

  /** Before anyone listens for removals, any trimming that has to evict raises AttributeError. */
  lemma TrimUnregisteredFails(
    list: seq<DetectionRecord>, folder: Option<Folder>, calls: seq<Call<DetectionRecord>>, maxEntries: int, nameOf: DetectionInfo -> string)
    requires list != [] && maxEntries < |list|
    ensures Trim(list, folder, calls, None, maxEntries, nameOf).outcome == Fail(AttributeError)
  {
  }

  // ---------------------------------------------------------------------------------------------
  // Loading
  // ---------------------------------------------------------------------------------------------

  predicate IsRegularFile(folder: Folder, name: string) {
    name in folder && folder[name].RegularFile?
  }

  /** A listed name the loader keeps: a regular file whose name parses. */
  predicate Loadable(folder: Folder, name: string) {
    IsRegularFile(folder, name) && ParseFilename(name).Some?
  }

  /**
   * The detections the loader collects from the names as listed: regular files whose names parse.
   * A missing folder yields none (the FileNotFoundError of the listing is caught).
   */
  function SavedDetections(folder: Option<Folder>, listing: seq<string>): (ds: seq<DetectionInfo>)
    ensures |ds| <= |listing|
    ensures folder.None? ==> ds == []
    ensures forall d :: d in ds ==> exists i :: 0 <= i < |listing| && IsRegularFile(folder.value, listing[i]) && ParseFilename(listing[i]) == Some(d)
  {
    if folder.None? || listing == [] then []
    else
      var n := |listing| - 1;
      var front := SavedDetections(folder, listing[..n]);
      assert forall i :: 0 <= i < n ==> listing[..n][i] == listing[i];
      front + (if Loadable(folder.value, listing[n]) then [ParseFilename(listing[n]).value] else [])
  }

  /** One listed name on its own: its detection when the loader keeps it, nothing otherwise. */
  lemma SavedDetectionsOfName(folder: Folder, name: string)
    ensures SavedDetections(Some(folder), [name]) == if Loadable(folder, name) then [ParseFilename(name).value] else []
  {
    assert [name][..0] == [];
  }

  /** Nothing the loader can read is missed: every listed regular file whose name parses gives its detection. */
  lemma SavedDetectionsComplete(folder: Folder, listing: seq<string>, i: nat)
    requires i < |listing| && Loadable(folder, listing[i])
    ensures ParseFilename(listing[i]).value in SavedDetections(Some(folder), listing)
  {
    var before, after := listing[..i], listing[i + 1..];
    var d := ParseFilename(listing[i]).value;
    SplitAround(listing, i);
    SavedDetectionsAppend(Some(folder), before + [listing[i]], after);
    SavedDetectionsAppend(Some(folder), before, [listing[i]]);
    SavedDetectionsOfName(folder, listing[i]);
    InMiddle(SavedDetections(Some(folder), before), d, SavedDetections(Some(folder), after));
  }

  /** One more listed name: its detection joins the end when the loader keeps it. */
  lemma SavedDetectionsNext(folder: Folder, listing: seq<string>, i: nat)
    requires i < |listing|
    ensures SavedDetections(Some(folder), listing[..i + 1])
            == SavedDetections(Some(folder), listing[..i]) + if Loadable(folder, listing[i]) then [ParseFilename(listing[i]).value] else []
  {
    assert listing[..i + 1][..i] == listing[..i];
  }

  /** The loader keeps the listing order: the names listed first give the detections that come first. */
  lemma {:induction false} SavedDetectionsAppend(folder: Option<Folder>, a: seq<string>, b: seq<string>)
    ensures SavedDetections(folder, a + b) == SavedDetections(folder, a) + SavedDetections(folder, b)
    decreases |b|
  {
    if folder.None? {
    } else if b == [] {
      assert a + b == a;
    } else {
      var n := |b| - 1;
      assert (a + b)[..|a + b| - 1] == a + b[..n];
      assert (a + b)[|a + b| - 1] == b[n];
      SavedDetectionsAppend(folder, a, b[..n]);
    }
  }

  function WhenKey(d: DetectionInfo): int {
    Micros(d.when)
  }

  /** `list.sort(key=lambda x: x.when)`: ascending time, as a rearrangement of the input. */
  function SortByWhen(ds: seq<DetectionInfo>): (r: seq<DetectionInfo>)
    ensures |r| == |ds| && multiset(r) == multiset(ds)
    ensures forall i, j :: 0 <= i < j < |r| ==> Micros(r[i].when) <= Micros(r[j].when)
  {
    var r := SortBy(ds, WhenKey);
    assert |multiset(r)| == |multiset(ds)|;
    r
  }

  // ---------------------------------------------------------------------------------------------
  // The history object
  // ---------------------------------------------------------------------------------------------

  /** The folder after `mkdir(exist_ok=True)`. */
  function EnsureFolder(folder: Option<Folder>): (made: Folder)
    ensures folder.Some? ==> made == folder.value
    ensures folder.None? ==> made == map[]
  {
    if folder.None? then map[] else folder.value
  }

  class DetectionHistory {
    const configuration: Configuration
    var detectionList: seq<DetectionRecord>
    /** The detections folder, None while it does not exist. */
    var folder: Option<Folder>
    const added: EventDispatcher<DetectionRecord>
    const removed: EventDispatcher<DetectionRecord>

    /** The two dispatchers are distinct objects, so firing one leaves the other's calls alone. */
    predicate Valid() {
      added != removed
    }

    /** The first half of `__init__`: empty list and fresh dispatchers nobody has registered with. */
    constructor (configuration: Configuration, folder: Option<Folder>)
      ensures Valid() && this.configuration == configuration && this.folder == folder && detectionList == []
      ensures fresh(added) && fresh(removed)
      ensures added.listeners == None && removed.listeners == None && added.calls == [] && removed.calls == []
    {
      this.configuration := configuration;
      this.folder := folder;
      detectionList := [];
      added := new EventDispatcher();
      removed := new EventDispatcher();
    }

    /** `_control_length`. */
    method ControlLength() returns (outcome: Outcome)
      requires Valid()
      modifies this, removed
      ensures var t := Trim(old(detectionList), old(folder), old(removed.calls), old(removed.listeners), configuration.maxHistoryEntries, EncodeFilename);
              detectionList == t.list && folder == t.folder && removed.calls == t.removedCalls && outcome == t.outcome
      ensures removed.listeners == old(removed.listeners)
    {
      ghost var goal := Trim(detectionList, folder, removed.calls, removed.listeners, configuration.maxHistoryEntries, EncodeFilename);
      while |detectionList| > configuration.maxHistoryEntries
        invariant Trim(detectionList, folder, removed.calls, removed.listeners, configuration.maxHistoryEntries, EncodeFilename) == goal
        invariant removed.listeners == old(removed.listeners)
        decreases |detectionList|
      {
        if detectionList == [] {
          return Fail(IndexError);
        }
        var detection := detectionList[0];
        detectionList := detectionList[1..];
        var fired := removed.Fire(detection);
        if fired.Fail? {
          return fired;
        }
        var name := EncodeFilename(detection.info);
        if folder.None? || name !in folder.value {
          return Fail(FileNotFoundError);
        }
        if folder.value[name].Directory? {
          return Fail(OtherException("IsADirectoryError"));
        }
        folder := Some(folder.value - {name});
      }
      outcome := Pass;
    }

    /**
     * `add`: save the picture under the detection's name, append the record, fire the added event,
     * trim; returns True unless one of these raised.
     */
    method Add(record: DetectionRecord, image: Image) returns (r: Result<bool>)
      requires Valid()
      modifies this, added, removed
      ensures var name := EncodeFilename(record.info);
              var before := EnsureFolder(old(folder));
              name in before && before[name].Directory? ==>
                r == Err(OtherException("IsADirectoryError")) && detectionList == old(detectionList)
                && folder == Some(before) && added.calls == old(added.calls) && removed.calls == old(removed.calls)
      ensures var name := EncodeFilename(record.info);
              var before := EnsureFolder(old(folder));
              var saved := Some(before[name := RegularFile(image)]);
              !(name in before && before[name].Directory?) && old(added.listeners).None? ==>
                r == Err(AttributeError) && detectionList == old(detectionList) + [record]
                && folder == saved && added.calls == old(added.calls) && removed.calls == old(removed.calls)
      ensures var name := EncodeFilename(record.info);
              var before := EnsureFolder(old(folder));
              var saved := Some(before[name := RegularFile(image)]);
              var t := Trim(old(detectionList) + [record], saved, old(removed.calls), old(removed.listeners), configuration.maxHistoryEntries, EncodeFilename);
              !(name in before && before[name].Directory?) && old(added.listeners).Some? ==>
                && added.calls == old(added.calls) + CallsFor(old(added.listeners).value, record)
                && detectionList == t.list && folder == t.folder && removed.calls == t.removedCalls
                && r == (if t.outcome.Pass? then Ok(true) else Err(t.outcome.error))
      ensures added.listeners == old(added.listeners) && removed.listeners == old(removed.listeners)
      ensures r.Ok? ==>
                && configuration.maxHistoryEntries >= 0
                && Infos(detectionList) == KeepLast(Infos(old(detectionList)) + [record.info], configuration.maxHistoryEntries)
    {
      var before := EnsureFolder(folder);
      folder := Some(before);
      var name := EncodeFilename(record.info);
      if name in before && before[name].Directory? {
        return Err(OtherException("IsADirectoryError"));
      }
      folder := Some(before[name := RegularFile(image)]);
      detectionList := detectionList + [record];
      var fired := added.Fire(record);
      if fired.Fail? {
        return Err(fired.error);
      }
      ghost var grown := detectionList;
      ghost var saved := folder;
      ghost var calls := removed.calls;
      var trimmed := ControlLength();
      if trimmed.Fail? {
        return Err(trimmed.error);
      }
      TrimPassKeepsLast(grown, saved, calls, removed.listeners, configuration.maxHistoryEntries, EncodeFilename);
      assert Infos(grown) == Infos(old(detectionList)) + [record.info];
      r := Ok(true);
    }

    /** `get_detections`: a copy of the list. */
    method GetDetections() returns (copy: seq<DetectionRecord>)
      ensures copy == detectionList
    {
      copy := detectionList;
    }

    /** `get_detection_image_data`: the saved picture of a detection. */
    method GetDetectionImageData(record: DetectionRecord) returns (r: Result<Image>)
      ensures var name := EncodeFilename(record.info);
              if folder.Some? && IsRegularFile(folder.value, name) then r == Ok(folder.value[name].image)
              else if folder.Some? && name in folder.value then r == Err(OtherException("IsADirectoryError"))
              else r == Err(FileNotFoundError)
    {
      var name := EncodeFilename(record.info);
      if folder.None? || name !in folder.value {
        return Err(FileNotFoundError);
      }
      if folder.value[name].Directory? {
        return Err(OtherException("IsADirectoryError"));
      }
      r := Ok(folder.value[name].image);
    }

    /** The first loop of `_load_saved_detections`: the parseable regular files, in listing order. */
    method CollectSavedDetections(listing: seq<string>) returns (found: seq<DetectionInfo>)
      ensures found == SavedDetections(folder, listing)
    {
      found := [];
      if folder.None? {
        return;
      }
      var i := 0;
      while i < |listing|
        invariant 0 <= i <= |listing|
        invariant found == SavedDetections(folder, listing[..i])
      {
        var name := listing[i];
        SavedDetectionsNext(folder.value, listing, i);
        if name in folder.value && folder.value[name].RegularFile? {
          var parsed := ParseFilename(name);
          if parsed.Some? {
            found := found + [parsed.value];
          }
        }
        i := i + 1;
      }
      assert listing[..|listing|] == listing;
    }

    /** Appends one new record per detection, in order. */
    method AppendRecords(infos: seq<DetectionInfo>) returns (loaded: seq<DetectionRecord>)
      modifies this
      ensures Infos(loaded) == infos
      ensures forall i :: 0 <= i < |loaded| ==> fresh(loaded[i])
      ensures detectionList == old(detectionList) + loaded && folder == old(folder)
    {
      loaded := [];
      var j := 0;
      while j < |infos|
        invariant 0 <= j <= |infos|
        invariant Infos(loaded) == infos[..j]
        invariant forall k :: 0 <= k < |loaded| ==> fresh(loaded[k])
        invariant detectionList == old(detectionList) + loaded && folder == old(folder)
      {
        var record := new DetectionRecord(infos[j]);
        assert (loaded + [record])[..|loaded|] == loaded;
        loaded := loaded + [record];
        detectionList := detectionList + [record];
        assert infos[..j + 1] == infos[..j] + [infos[j]];
        j := j + 1;
      }
      assert infos[..|infos|] == infos;
    }

    /**
     * `_load_saved_detections`: collect the parseable regular files in listing order, sort them by
     * time, append them as new records, and trim. `listing` is the order `os.listdir` yields.
     */
    method LoadSavedDetections(listing: seq<string>) returns (outcome: Outcome, loaded: seq<DetectionRecord>)
      requires Valid()
      modifies this, removed
      ensures Infos(loaded) == SortByWhen(SavedDetections(old(folder), listing))
      ensures forall i :: 0 <= i < |loaded| ==> fresh(loaded[i])
      ensures var t := Trim(old(detectionList) + loaded, old(folder), old(removed.calls), old(removed.listeners), configuration.maxHistoryEntries, EncodeFilename);
              detectionList == t.list && folder == t.folder && removed.calls == t.removedCalls && outcome == t.outcome
      ensures removed.listeners == old(removed.listeners)
    {
      var found := CollectSavedDetections(listing);
      loaded := AppendRecords(SortByWhen(found));
      outcome := ControlLength();
    }

    /**
     * `__init__`: a new history that loads the saved detections. Nobody can have registered for
     * the removed event yet, so when more parseable pictures are saved than the maximum allows,
     * the trimming raises AttributeError and construction fails. A negative maximum always fails:
     * with AttributeError when something was loaded, and with IndexError (popping from an empty
     * list) when nothing was.
     */
    static method Open(configuration: Configuration, folder: Option<Folder>, listing: seq<string>)
      returns (history: DetectionHistory, outcome: Outcome)
      ensures fresh(history) && history.Valid() && history.configuration == configuration
      ensures history.added.listeners == None && history.removed.listeners == None
      ensures var saved := SavedDetections(folder, listing);
              saved != [] && configuration.maxHistoryEntries < |saved| ==> outcome == Fail(AttributeError)
      ensures var saved := SavedDetections(folder, listing);
              saved == [] && configuration.maxHistoryEntries < 0 ==> outcome == Fail(IndexError)
      ensures var saved := SavedDetections(folder, listing);
              |saved| <= configuration.maxHistoryEntries ==>
                outcome == Pass && Infos(history.detectionList) == SortByWhen(saved) && history.folder == folder
    {
      history := new DetectionHistory(configuration, folder);
      var loaded;
      outcome, loaded := history.LoadSavedDetections(listing);
      var saved := SavedDetections(folder, listing);
      assert |loaded| == |SortByWhen(saved)| by {
        assert |multiset(SortByWhen(saved))| == |multiset(saved)|;
      }
      if saved != [] && configuration.maxHistoryEntries < |saved| {
        TrimUnregisteredFails([] + loaded, folder, [], configuration.maxHistoryEntries, EncodeFilename);
      }
      assert [] + loaded == loaded;
    }
  }

  /** After an add that returns normally, the history holds at most the maximum number of records. */
  lemma AddKeepsBound(
    list: seq<DetectionRecord>, record: DetectionRecord, folder: Option<Folder>, calls: seq<Call<DetectionRecord>>,
    listeners: Option<seq<ListenerId>>, maxEntries: int, nameOf: DetectionInfo -> string)
    requires Trim(list + [record], folder, calls, listeners, maxEntries, nameOf).outcome.Pass?
    ensures |Trim(list + [record], folder, calls, listeners, maxEntries, nameOf).list| <= maxEntries
    ensures maxEntries > 0 ==> var t := Trim(list + [record], folder, calls, listeners, maxEntries, nameOf).list;
                               |t| > 0 && t[|t| - 1] == record
  {
    TrimOnSuccessBound(list + [record], folder, calls, listeners, maxEntries, nameOf);
    TrimKeepsSuffix(list + [record], folder, calls, listeners, maxEntries, nameOf);
  }
}
