/**
 * The older window of `surveillance_ui/__init__.py`: an alert player with a single pending
 * slot that drops newer alerts, a sound thread that plays one alert's sounds end to end, and the
 * grid arithmetic of its multiview. Its settings slot and the selected classes behave as the
 * newer window's (module Application) and are modelled there.
 */
module LegacyApplication {
  import opened Wrappers
  import opened Interface
  import opened Common
  import opened Application

  /** Volumes at or below this do not alert at all. */
  const MinimumAudibleVolume: real := 0.001

  /** What `try_fire` puts into the slot: the batch and the volume to play it at. */
  datatype PendingAlert = PendingAlert(info: ImageDetectionsInfo, volume: real)

  /** One call to `_play_sound_file_blocking` that made a sound. */
  datatype PlayedSound = PlayedSound(path: string, volume: real)

  /** The sounds made for a list of paths, all at one volume. */
  function Voiced(paths: seq<string>, volume: real): (sounds: seq<PlayedSound>)
    ensures |sounds| == |paths| && forall i :: 0 <= i < |paths| ==> sounds[i] == PlayedSound(paths[i], volume)
  {
    seq(|paths|, i requires 0 <= i < |paths| => PlayedSound(paths[i], volume))
  }

  /** The sounds for two lists of paths, one after the other. */
  lemma VoicedAppend(a: seq<string>, b: seq<string>, volume: real)
    ensures Voiced(a + b, volume) == Voiced(a, volume) + Voiced(b, volume)
  {
    assert forall i :: 0 <= i < |a| ==> (a + b)[i] == a[i];
    assert forall i :: |a| <= i < |a| + |b| ==> (a + b)[i] == b[i - |a|];
  }

  /** What one turn of `_play_sound_proc`'s loop comes to. */
  datatype PlayerStep =
    | ShutDown                 // the flag was set: the thread returns
    | NothingQueued            // the slot stayed empty: the loop goes round again
    | Alerted(outcome: Outcome) // an alert was played; an exception ends the thread

  /** The older `_AlertPlayer`: a queue of capacity one, read by the sound thread. */
  class LegacyAlertPlayer {
    const configuration: Configuration
    /** `_sound_alert_queue`, which holds at most one alert. */
    var slot: Option<PendingAlert>
    var shutDownPending: bool
    /** Every sound made, in order. */
    var played: seq<PlayedSound>

    constructor (configuration: Configuration)
      ensures this.configuration == configuration && slot == None && !shutDownPending && played == []
    {
      this.configuration := configuration;
      slot := None;
      shutDownPending := false;
      played := [];
    }

    /**
     * `try_fire`: nothing at a volume of 0.001 or less; otherwise the alert fills an empty slot,
     * and is dropped when one is already pending.
     */
    method TryFire(info: ImageDetectionsInfo, volume: real)
      modifies this
      ensures volume <= MinimumAudibleVolume ==> slot == old(slot)
      ensures volume > MinimumAudibleVolume && old(slot).None? ==> slot == Some(PendingAlert(info, volume))
      ensures old(slot).Some? ==> slot == old(slot)
      ensures played == old(played) && shutDownPending == old(shutDownPending)
    {
      if volume <= MinimumAudibleVolume {
        return;
      }
      if slot.None? {
        slot := Some(PendingAlert(info, volume));
      }
    }

    /** `_play_sound_file_blocking`: a missing path plays nothing. */
    method PlaySoundFileBlocking(path: Option<string>, volume: real)
      modifies this
      ensures played == old(played) + Voiced(OptionalPath(path), volume)
      ensures slot == old(slot) && shutDownPending == old(shutDownPending)
    {
      if path.None? {
        assert Voiced([], volume) == [];
        return;
      }
      played := played + [PlayedSound(path.value, volume)];
    }

    /**
     * The loop of `_play_sound_proc`: the interest sound of each detection, looked up just before
     * it is played; a failed lookup raises after the sounds played before it.
     */
    method PlayInterestSounds(lead: seq<SvDetection>, volume: real) returns (outcome: Outcome)
      modifies this
      ensures var g := InterestSounds(configuration.interests, lead);
              played == old(played) + Voiced(g.paths, volume) && outcome == g.outcome
      ensures slot == old(slot) && shutDownPending == old(shutDownPending)
    {
      ghost var paths: seq<string> := [];
      var i := 0;
      while i < |lead|
        invariant 0 <= i <= |lead|
        invariant InterestSounds(configuration.interests, lead[..i]) == Gathering(paths, Pass)
        invariant played == old(played) + Voiced(paths, volume)
        invariant slot == old(slot) && shutDownPending == old(shutDownPending)
      {
        var step: Outcome;
        step, paths := PlayNextInterest(lead, i, volume, old(played), paths);
        if step.Fail? {
          return step;
        }
        i := i + 1;
      }
      assert lead[..i] == lead;
      outcome := Pass;
    }

    /** One turn of the loop: look up the interest of detection `i` and play its sound. */
    method PlayNextInterest(lead: seq<SvDetection>, i: nat, volume: real, ghost start: seq<PlayedSound>, ghost paths: seq<string>)
      returns (outcome: Outcome, ghost grown: seq<string>)
      requires i < |lead| && InterestSounds(configuration.interests, lead[..i]) == Gathering(paths, Pass)
      requires played == start + Voiced(paths, volume)
      modifies this
      ensures outcome.Fail? ==>
                InterestSounds(configuration.interests, lead) == Gathering(paths, outcome) && played == old(played)
      ensures outcome.Pass? ==>
                InterestSounds(configuration.interests, lead[..i + 1]) == Gathering(grown, Pass) && played == start + Voiced(grown, volume)
      ensures slot == old(slot) && shutDownPending == old(shutDownPending)
    {
      assert lead[..i + 1][..i] == lead[..i];
      var interest := GetInterest(configuration.interests, lead[i].cocoClassId);
      if interest.Err? {
        InterestSoundsFailsFromPrefix(configuration.interests, lead, i + 1);
        return Fail(interest.error), paths;
      }
      PlaySoundFileBlocking(interest.value.soundAlertPath, volume);
      VoicedAppend(paths, OptionalPath(interest.value.soundAlertPath), volume);
      grown := paths + OptionalPath(interest.value.soundAlertPath);
      outcome := Pass;
    }

    /**
     * The body of `_play_sound_proc` for one alert: the interest sounds of the first five
     * detections, then the camera's sound. A failed lookup raises after the sounds played before it.
     */
    method PlayAlert(alert: PendingAlert) returns (outcome: Outcome)
      modifies this
      ensures var g := AlertSounds(configuration, alert.info.frameInfo.camId, alert.info.detections);
              played == old(played) + Voiced(g.paths, alert.volume) && outcome == g.outcome
      ensures slot == old(slot) && shutDownPending == old(shutDownPending)
    {
      var lead := Leading(alert.info.detections);
      outcome := PlayInterestSounds(lead, alert.volume);
      if outcome.Fail? {
        return;
      }
      ghost var paths := InterestSounds(configuration.interests, lead).paths;
      var cam := GetCamDefinition(configuration.camDefinitions, alert.info.frameInfo.camId);
      if cam.Err? {
        return Fail(cam.error);
      }
      PlaySoundFileBlocking(cam.value.soundAlertPath, alert.volume);
      VoicedAppend(paths, OptionalPath(cam.value.soundAlertPath), alert.volume);
    }

    /**
     * One turn of `_play_sound_proc`'s loop: stop on the shutdown flag, else take the pending
     * alert, if any, and play it.
     */
    method PlayStep() returns (step: PlayerStep)
      modifies this
      ensures shutDownPending == old(shutDownPending)
      ensures old(shutDownPending) ==> step == ShutDown && slot == old(slot) && played == old(played)
      ensures !old(shutDownPending) && old(slot).None? ==> step == NothingQueued && slot == None && played == old(played)
      ensures !old(shutDownPending) && old(slot).Some? ==>
                var alert := old(slot).value;
                var g := AlertSounds(configuration, alert.info.frameInfo.camId, alert.info.detections);
                && slot == None && step == Alerted(g.outcome)
                && played == old(played) + Voiced(g.paths, alert.volume)
    {
      if shutDownPending {
        return ShutDown;
      }
      if slot.None? {
        return NothingQueued;
      }
      var alert := slot.value;
      slot := None;
      var outcome := PlayAlert(alert);
      step := Alerted(outcome);
    }
  }

  /** Where the multiview puts a camera's live view and its annotation. */
  datatype CellPair = CellPair(live: Cell, annotation: Cell)

  /**
   * The multiview placement of camera `index` of `camCount`: row `floor(index / columns)`, column
   * the rest, and the annotation `ceil(camCount / columns)` rows lower in the same column. A column
   * count of zero raises ZeroDivisionError.
   */
  function MultiviewCells(camCount: nat, columns: int, index: nat): (r: Result<CellPair>)
    ensures r.Err? <==> columns == 0
    ensures r.Err? ==> r.error == OtherException("ZeroDivisionError")
    ensures r.Ok? && columns > 0 ==> 0 <= r.value.live.column < columns && 0 <= r.value.live.row
    ensures r.Ok? && columns > 0 && index < camCount ==> r.value.live.row < r.value.annotation.row
  {
    if columns == 0 then Err(OtherException("ZeroDivisionError"))
    else
      var row := FloorDiv(index, columns);
      var column := index - row * columns;
      assert columns > 0 && index < camCount ==> row < CeilDiv(camCount, columns) by {
        if columns > 0 && index < camCount {
          AutoLayoutAnnotationBelow(camCount, columns, index);
        }
      }
      Ok(CellPair(Cell(row, column), Cell(row + CeilDiv(camCount, columns), column)))
  }

  /** The older multiview places every camera's two widgets where the newer automatic layout does. */
  lemma MultiviewAgreesWithAuto(camCount: nat, columns: int, index: nat)
    requires columns != 0 && index < camCount
    ensures MultiviewCells(camCount, columns, index)
            == Ok(CellPair(AutoLayoutCell(camCount, columns, index).value, AutoLayoutCell(camCount, columns, camCount + index).value))
  {
    assert camCount + index - camCount == index;
  }
}
