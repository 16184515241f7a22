/** Whole sessions driven through the main window and the preview dialog. */
module Scenarios {
  import opened Paths
  import opened Playback
  import opened ImageWindow
  import opened Controller

  /** Load a video, choose an empty directory, play, capture a 1920 x 1080
      frame and save it as "shot1": exactly two files appear, the full frame
      and its 489 x 1029 crop; saving "shot1" again is refused and keeps them. */
  method CaptureAndSaveShot(frame: Image, other: Image) returns (outcome: Capture, again: SaveOutcome, files: map<string, Image>)
    requires frame.Valid() && frame.width == 1920 && frame.height == 1080
    requires Croppable(other)
    ensures outcome == Preview(frame, "captures")
    ensures again == NameTaken
    ensures files.Keys == {FullPath("captures", "shot1"), CroppedPath("captures", "shot1")}
    ensures files[FullPath("captures", "shot1")] == frame
    ensures files[CroppedPath("captures", "shot1")] == CroppedImage(frame)
    ensures var crop := files[CroppedPath("captures", "shot1")]; crop.width == 489 && crop.height == 1029
  {
    var window := new MainWindow();
    window.OpenFile("clip.mp4", Media(true, 60000));
    window.SetSaveLocation("captures", []);
    window.PlayPauseVideo();
    outcome := window.CaptureFrame(frame);
    assert window.player.state == Paused;
    var disk := new Disk(map[]);
    var dialog := new FrameWindow(frame, outcome.saveLocation);
    var first := dialog.SaveImages("shot1", disk);
    assert first == Written;
    var retry := new FrameWindow(other, outcome.saveLocation);
    again := retry.SaveImages("shot1", disk);
    files := disk.files;
  }

  /** Capturing while playing before any location was chosen pauses the
      video and reports the missing location. */
  method CaptureWithoutLocation(frame: Image) returns (outcome: Capture, state: PlaybackState)
    ensures outcome == NoSaveLocation && state == Paused
  {
    var window := new MainWindow();
    window.OpenFile("clip.mp4", Media(true, 60000));
    window.PlayPauseVideo();
    outcome := window.CaptureFrame(frame);
    state := window.player.state;
  }

  /** Cancelling the first directory choice sets the location to "" rather
      than leaving it unset, so a capture opens the preview with the location
      box's placeholder text as its save location. */
  method CaptureAfterCancelledChoice(frame: Image) returns (outcome: Capture)
    ensures outcome == Preview(frame, LocationBoxPlaceholder)
  {
    var window := new MainWindow();
    window.OpenFile("clip.mp4", Media(true, 60000));
    window.SetSaveLocation("", []);
    window.PlayPauseVideo();
    outcome := window.CaptureFrame(frame);
  }

  /** Media without a video track cannot be started, so neither the period
      key nor capture does anything. */
  method AudioOnlyFile(frame: Image) returns (accepted: bool, outcome: Capture, state: PlaybackState)
    ensures !accepted && outcome == NotCaptured && state == Stopped
  {
    var window := new MainWindow();
    window.OpenFile("song.mp4", Media(false, 60000));
    window.PlayPauseVideo();
    var toggled, none := window.KeyPressEvent(Space, frame);
    accepted, none := window.KeyPressEvent(Period, frame);
    outcome := window.CaptureFrame(frame);
    state := window.player.state;
  }
}
