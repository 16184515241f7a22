/** The main window of windows/main_window.py: playback controls over the
    media engine, the save location and its two thumbnail lists, and the
    capture of the current frame. Dialogs, the file-system watcher and the
    engine's decoding are inputs: a chosen path, a directory listing, the
    media's properties and the current frame arrive as parameters. */
module Controller {
  import opened Wrappers
  import opened Paths
  import opened Playback
  import opened Listing
  import opened ImageWindow

  /** The icon on the play/pause button. */
  datatype Icon = PlayIcon | PauseIcon

  datatype Key = Space | Period | KeyC | OtherKey

  /** What a capture request led to: nothing, the "No Save Location" warning,
      or the preview dialog opened on `frame` with `saveLocation`. */
  datatype Capture = NotCaptured | NoSaveLocation | Preview(frame: Image, saveLocation: string)

  /** The position slider with its range; Qt keeps the value inside the range. */
  datatype Slider = Slider(minimum: int, maximum: int, value: int) {
    predicate Valid() {
      minimum <= value <= maximum
    }
  }

  /** `QSlider.setValue`: the value, bounded to the slider's range. */
  function SetSliderValue(s: Slider, v: int): (r: Slider)
    requires s.Valid()
    ensures r.Valid() && r.minimum == s.minimum && r.maximum == s.maximum
    ensures s.minimum <= v <= s.maximum ==> r.value == v
    ensures v < s.minimum ==> r.value == s.minimum
    ensures v > s.maximum ==> r.value == s.maximum
  {
    s.(value := if v < s.minimum then s.minimum else if v > s.maximum then s.maximum else v)
  }

  /** `QSlider.setRange`: a maximum below the minimum is raised to it, and
      the value is bounded to the new range. */
  function SetSliderRange(s: Slider, lo: int, hi: int): (r: Slider)
    ensures r.Valid() && r.minimum == lo && r.maximum == (if hi < lo then lo else hi)
    ensures r.minimum <= s.value <= r.maximum ==> r.value == s.value
    ensures s.value < lo ==> r.value == lo
    ensures s.value > r.maximum ==> r.value == r.maximum
  {
    var top := if hi < lo then lo else hi;
    SetSliderValue(Slider(lo, top, lo), s.value)
  }

  const FileBoxPlaceholder := "Select \"Open File\"..."
  const LocationBoxPlaceholder := "Select \"Browse\" to set location..."

  class MainWindow {
    /** The media engine. */
    var player: Player
    var startIcon: Icon
    var slider: Slider
    /** `self.file`: the path of the last file chooser, even when cancelled. */
    var file: Option<string>
    var fileBox: string
    /** `self.location`: None until the first directory choice. */
    var location: Option<string>
    var locationBox: string
    /** The directories the file-system watcher reports changes of. */
    var watched: set<string>
    var fullList: seq<string>
    var croppedList: seq<string>

    /** The window's invariant: the engine leaves Stopped only with video,
        the button shows "pause" while playing and "play" while paused, the
        slider keeps its value in range, and a loaded source and a non-empty
        save location are shown in their boxes. */
    ghost predicate Valid()
      reads this
    {
      (player.state != Stopped ==> player.hasVideo) &&
      (player.state == Playing ==> startIcon == PauseIcon) &&
      (player.state == Paused ==> startIcon == PlayIcon) &&
      slider.Valid() && slider.minimum == 0 &&
      (player.source != "" ==> fileBox == player.source) &&
      (location.Some? && location.value != "" ==> locationBox == location.value && location.value in watched)
    }

    constructor ()
      ensures Valid()
      ensures player == Idle() && startIcon == PlayIcon && slider == Slider(0, 99, 0)
      ensures file == None && fileBox == FileBoxPlaceholder
      ensures location == None && locationBox == LocationBoxPlaceholder && watched == {}
      ensures fullList == [] && croppedList == []
    {
      player := Idle();
      startIcon := PlayIcon;
      slider := Slider(0, 99, 0);
      file := None;
      fileBox := FileBoxPlaceholder;
      location := None;
      locationBox := LocationBoxPlaceholder;
      watched := {};
      fullList := [];
      croppedList := [];
    }

    method PlayVideo()
      modifies this`player, this`startIcon
      ensures player == Play(old(player)) && startIcon == PauseIcon
    {
      player := Play(player);
      startIcon := PauseIcon;
    }

    method PauseVideo()
      modifies this`player, this`startIcon
      ensures player == Pause(old(player)) && startIcon == PlayIcon
    {
      player := Pause(player);
      startIcon := PlayIcon;
    }

    /** `play_pause_video`: nothing without video; otherwise Playing with
        the "pause" icon from Paused or Stopped, Paused with the "play" icon
        from Playing. */
    method PlayPauseVideo()
      requires Valid()
      modifies this`player, this`startIcon
      ensures Valid()
      ensures player == TogglePlayback(old(player))
      ensures !old(player.hasVideo) ==> startIcon == old(startIcon)
      ensures old(player.hasVideo) ==> startIcon == (if player.state == Playing then PauseIcon else PlayIcon)
    {
      var state := player.state;
      if !player.hasVideo {
        return;
      }
      if state == Paused || state == Stopped {
        PlayVideo();
      } else {
        PauseVideo();
      }
    }

    /** `stop_video`: Stopped, rewound, with the "play" icon. */
    method StopVideo()
      requires Valid()
      modifies this`player, this`startIcon
      ensures Valid()
      ensures player == Stop(old(player)) && player.state == Stopped && startIcon == PlayIcon
    {
      player := Stop(player);
      startIcon := PlayIcon;
    }

    /** `set_position`, on a move of the slider. */
    method SetPosition(position: int)
      requires Valid()
      modifies this`player
      ensures Valid()
      ensures player == Seek(old(player), position)
    {
      player := Seek(player, position);
    }

    /** `position_changed`, on the engine's signal: the slider follows,
        within its range. */
    method PositionChanged(position: int)
      requires Valid()
      modifies this`slider
      ensures Valid()
      ensures slider == SetSliderValue(old(slider), position)
    {
      slider := SetSliderValue(slider, position);
    }

    /** `duration_changed`, on the engine's signal: the slider spans 0 to
        the new duration. */
    method DurationChanged(duration: int)
      requires Valid()
      modifies this`slider
      ensures Valid()
      ensures slider == SetSliderRange(old(slider), 0, duration)
    {
      slider := SetSliderRange(slider, 0, duration);
    }

    /** `keyPressEvent`: Space toggles playback, the period key steps one
        second ahead while Paused (and is ignored otherwise), C captures the
        current frame. `accepted` is false only for an ignored event. */
    method KeyPressEvent(key: Key, frame: Image) returns (accepted: bool, outcome: Capture)
      requires Valid()
      modifies this`player, this`startIcon
      ensures Valid()
      ensures key == Space ==> player == TogglePlayback(old(player))
      ensures key == Space ==> startIcon == (if !old(player.hasVideo) then old(startIcon)
                                             else if player.state == Playing then PauseIcon else PlayIcon)
      ensures key == KeyC ==> player == (if old(player.state) == Playing then Pause(old(player)) else old(player))
      ensures key == KeyC ==> startIcon == (if old(player.state) == Playing then PlayIcon else old(startIcon))
      ensures key == Period ==> player == StepForward(old(player)) && startIcon == old(startIcon)
      ensures key == OtherKey ==> player == old(player) && startIcon == old(startIcon)
      ensures accepted <==> !(key == Period && old(player.state) != Paused)
      ensures key != KeyC ==> outcome == NotCaptured
      ensures key == KeyC ==> outcome == CaptureOutcome(old(player), location, locationBox, frame)
    {
      accepted, outcome := true, NotCaptured;
      if key == Space {
        PlayPauseVideo();
      } else if key == Period {
        if player.state == Paused {
          player := Play(player);
          player := Seek(player, player.position + StepMs);
          player := Pause(player);
        } else {
          accepted := false;
        }
      } else if key == KeyC {
        outcome := CaptureFrame(frame);
      }
    }

    /** `open_file`, with the chooser's result as `chosen` and the loaded
        file's properties as `media`: the chosen path is recorded even when
        the chooser was cancelled; a non-empty one is shown and loaded. */
    method OpenFile(chosen: string, media: Media)
      requires Valid()
      modifies this`file, this`fileBox, this`player
      ensures Valid()
      ensures file == Some(chosen)
      ensures chosen == "" ==> fileBox == old(fileBox) && player == old(player)
      ensures chosen != "" ==> fileBox == chosen && player == Load(old(player), chosen, media)
    {
      file := Some(chosen);
      if chosen == "" {
        return;
      }
      fileBox := chosen;
      player := Load(player, chosen, media);
    }

    /** `set_save_location`, with the chooser's result as `chosen` and the
        directory's entries as `entries`: the location becomes `chosen` even
        when the chooser was cancelled (""), and only a non-empty choice is
        shown, watched and listed. */
    method SetSaveLocation(chosen: string, entries: seq<string>)
      requires Valid()
      modifies this`location, this`locationBox, this`watched, this`fullList, this`croppedList
      ensures Valid()
      ensures location == Some(chosen)
      ensures chosen == "" ==>
                locationBox == old(locationBox) && watched == old(watched) &&
                fullList == old(fullList) && croppedList == old(croppedList)
      ensures chosen != "" ==>
                locationBox == chosen && watched == old(watched) + {chosen} &&
                fullList == FullNames(entries) && croppedList == CroppedNames(entries)
    {
      location := Some(chosen);
      if chosen == "" {
        return;
      }
      locationBox := chosen;
      watched := watched + {chosen};
      UpdateLists(entries);
    }

    /** `capture_frame`, with the frame the engine currently shows as
        `frame`. */
    method CaptureFrame(frame: Image) returns (outcome: Capture)
      requires Valid()
      modifies this`player, this`startIcon
      ensures Valid()
      ensures outcome == CaptureOutcome(old(player), location, locationBox, frame)
      ensures old(player.state) == Playing ==> player == Pause(old(player)) && startIcon == PlayIcon
      ensures old(player.state) != Playing ==> player == old(player) && startIcon == old(startIcon)
    {
      // `capture_frame` tests `hasVideo` without calling it, and a bound
      // method is always true, so only the Stopped test can return here.
      if player.state == Stopped {
        return NotCaptured;
      }
      if player.state == Playing {
        PauseVideo();
      }
      if location == None {
        return NoSaveLocation;
      }
      return Preview(frame, locationBox);
    }

    /** `update_lists`: both lists are emptied, then every name the glob
        matches goes to the cropped list or the full list by its suffix. */
    method UpdateLists(entries: seq<string>)
      modifies this`fullList, this`croppedList
      ensures fullList == FullNames(entries) && croppedList == CroppedNames(entries)
    {
      fullList := [];
      croppedList := [];
      var matches := Glob(entries);
      for i := 0 to |matches|
        invariant croppedList == Filter(matches[..i], IsCroppedName)
        invariant fullList == Filter(matches[..i], IsFullName)
      {
        var fileName := matches[i];
        FilterAppend(matches[..i], fileName, IsCroppedName);
        FilterAppend(matches[..i], fileName, IsFullName);
        assert matches[..i + 1] == matches[..i] + [fileName];
        if EndsWith(fileName, CroppedSuffix) {
          croppedList := croppedList + [fileName];
        } else if EndsWith(fileName, FullSuffix) {
          fullList := fullList + [fileName];
        }
      }
      assert matches[..|matches|] == matches;
    }
  }

  /** The outcome of `capture_frame` from the engine state before it and the
      save location: nothing when Stopped, whether or not the media has
      video; the warning when no location was ever chosen; otherwise the
      preview, given the location box's text rather than `location`. */
  function CaptureOutcome(p: Player, location: Option<string>, locationBox: string, frame: Image): (r: Capture)
    ensures r == NotCaptured <==> p.state == Stopped
    ensures r == NoSaveLocation <==> p.state != Stopped && location == None
    ensures r.Preview? ==> r.frame == frame && r.saveLocation == locationBox
  {
    if p.state == Stopped then NotCaptured
    else if location == None then NoSaveLocation
    else Preview(frame, locationBox)
  }

  /** Under the window's invariant the capture guard as written, which only
      tests for Stopped, agrees with the guard that also tests for video. */
  lemma MissingVideoTestHarmless(w: MainWindow)
    requires w.Valid()
    ensures (w.player.state == Stopped) == (!w.player.hasVideo || w.player.state == Stopped)
  {
  }
}
