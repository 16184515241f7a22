# CropDuster, modelled in Dafny

CropDuster is a desktop tool for scrubbing through a video, pausing on a
frame, cutting a fixed region out of it and saving both the full frame and
the crop under a name the operator types. Almost all of it is Qt widget
assembly; this project models the decision logic beneath the widgets:

- **Playback control** (`Controller.MainWindow`, over the engine record of
  module `Playback`): play/pause toggling guarded by the media having video,
  stop, seeking from the slider, the slider following the engine's position
  and duration signals, the Space / period / C keys, opening a file, and the
  guards of `capture_frame`.
- **Save location and listing** (`SetSaveLocation`, `UpdateLists`, module
  `Listing`): the directory is the sequence of its entry names in listing
  order; the `*.jpg` glob keeps names ending in ".jpg" that are not hidden;
  a match ending in "_cropped.jpg" goes to the cropped list, one ending in
  "_full.jpg" to the full list, and any other match (such as `abc.jpg`) to
  neither.
- **Crop arithmetic** (`ImageWindow.CroppedImage`): an image is rows of
  pixels; the crop box is `(600, 51, width - 831, height)`, so the crop is
  the (width - 1431) x (height - 51) sub-rectangle at offset (600, 51).
- **Name derivation and the guarded save** (`Paths`, `ImageWindow.Save`,
  `FrameWindow`): the filesystem is a map from path to image; saving writes
  `{loc}/{name}_full.jpg` and `{loc}/{name}_cropped.jpg` only for a
  non-empty name neither of whose paths exists, and then closes the dialog.

Modules: `Wrappers` (Option), `Paths`, `ImageWindow`, `Listing`,
`Playback`, `Controller`, `Scenarios` (whole sessions through the window
and the dialog, including the 1920 x 1080 capture saved as "shot1").

Behaviour of the code that the model keeps on purpose:

- `capture_frame` tests `not self.video_player.hasVideo` without calling
  it; a bound method is always true, so only the Stopped test returns
  early. `Controller.MissingVideoTestHarmless` shows that under the
  window's invariant (the engine only leaves Stopped with video) the
  written guard agrees with the intended one.
- A cancelled directory chooser stores `""` in `location` instead of
  keeping the previous value; the location box and the watcher keep their
  old state. Because `location` is then no longer `None`, a capture opens
  the preview with the location box's text, which is the placeholder if no
  directory was ever chosen (`Scenarios.CaptureAfterCancelledChoice`).
- The preview receives `location_box.text()`, not `location`.
- `open_file` stores the chooser's result in `self.file` even when it was
  cancelled.
- The crop box `(600, 51, width - 831, height)` is not checked against the
  frame: at exactly 1431 x 51 it gives an empty image.
- The `*.jpg` glob skips names that start with a dot, so a capture saved
  under a name such as ".x" is written but never appears in either list.
- Loading a new source stops the engine but leaves the button's icon as it
  was, so the window invariant only ties the icon to Playing and Paused.

## Model

| member | source | states |
|---|---|---|
| Paths.FullPath | windows/image_window.py:119 | the full-frame path is `{loc}/` followed by a name ending "_full.jpg" |
| Paths.CroppedPath | windows/image_window.py:120 | the cropped-frame path is `{loc}/` followed by a name ending "_cropped.jpg" |
| Paths.SuffixesExclusive | windows/main_window.py:232-235 | no file name ends in both "_full.jpg" and "_cropped.jpg" |
| Paths.DerivedPathsDistinct | windows/image_window.py:106-107 | the two paths written for one name are distinct |
| Paths.DerivedPathsSeparate | windows/image_window.py:119-120 | a full path never equals a cropped path, and each path determines its name |
| ImageWindow.Crop | windows/image_window.py:98 | cropping to a box inside the image gives an image of the box's size whose pixel (x, y) is the source's pixel at (x + left, y + upper) |
| ImageWindow.CroppedImage | windows/image_window.py:95-98 | the crop of a frame of at least 1431 x 51 has size (width - 1431) x (height - 51) and pixel (x, y) equal to the frame's pixel (x + 600, y + 51) |
| ImageWindow.Save | windows/image_window.py:100-116 | an empty name writes nothing; a taken name writes nothing; otherwise exactly the two derived paths are added, holding the full and the cropped image; no existing file is ever changed |
| ImageWindow.SecondSaveRefused | windows/image_window.py:105-123 | a second save under a just-written name is refused and the first files stay as written |
| ImageWindow.SaveTakesOnlyItsName | windows/image_window.py:118-123 | after a save, another name is taken exactly when it was taken before or is the saved name |
| ImageWindow.Disk.Write | windows/image_window.py:106-107 | writing an image at a path replaces what is at that path and nothing else |
| ImageWindow.FrameWindow.constructor | windows/image_window.py:14-57 | the dialog keeps the frame and the save location, computes the crop of the frame, and is open |
| ImageWindow.FrameWindow.FileNameIsUnique | windows/image_window.py:118-123 | a name is unique exactly when neither `{loc}/{name}_full.jpg` nor `{loc}/{name}_cropped.jpg` exists |
| ImageWindow.FrameWindow.SaveImages | windows/image_window.py:100-116 | the filesystem and outcome are those of `Save`; the dialog closes exactly when the images were written |
| Listing.ListsPartitionBySuffix | windows/main_window.py:227-235 | a name is in the cropped list iff it is a listed visible ".jpg" name ending "_cropped.jpg", in the full list iff ending "_full.jpg"; no name is in both |
| Listing.ListsFollowListingOrder | windows/main_window.py:230-235 | the lists of a concatenated listing are the concatenated lists: order follows the directory listing |
| Listing.ListingIdempotent | windows/main_window.py:227-235 | a directory holding only the names of one list lists them back unchanged, in order |
| Listing.SavedPairsListed | windows/main_window.py:230-235 | a directory listing exactly N saved pairs, each full name then its cropped name, in save order, none of whose names starts with '.', lists exactly the N cropped and the N full names in that order (hidden names are skipped by the glob) |
| Listing.SavedPairsListedInAnyOrder | windows/main_window.py:230-235 | in whatever order the directory lists N saved pairs (names not starting with '.'), the cropped list holds exactly the N cropped names and the full list exactly the N full names (as multisets), so each list has N entries |
| Listing.FilterPerm | windows/main_window.py:230-235 | two orderings of the same entries filter to the same names |
| Listing.FilterMembership | windows/main_window.py:230-235 | a name survives a filter exactly when it is listed and accepted |
| Listing.FilterConcat | windows/main_window.py:230-235 | filtering preserves order across concatenation |
| Listing.FilterIdempotent | windows/main_window.py:227-235 | filtering twice equals filtering once |
| Playback.Load | windows/main_window.py:193 | setting a source leaves the engine Stopped at position 0 with the new media's properties |
| Playback.TogglePlayback | windows/main_window.py:142-157 | without video nothing changes; otherwise Playing exactly when it was not Playing before, never Stopped, and only the state changes |
| Playback.StepForward | windows/main_window.py:176-182 | while Paused the position grows by exactly 1000 and the state stays Paused; otherwise nothing changes |
| Playback.ToggleTwiceRestores | windows/main_window.py:146-157 | from Playing or Paused, two toggles restore the engine state |
| Playback.StepsAccumulate | windows/main_window.py:176-182 | n period presses while Paused advance the position by n * 1000; in other states they do nothing |
| Controller.SetSliderValue | windows/main_window.py:166-167 | the slider takes the position, bounded to its range |
| Controller.SetSliderRange | windows/main_window.py:169-170 | the range becomes lo to max(lo, hi); a value inside it is kept, one below moves to lo, one above moves to the new maximum |
| Controller.MainWindow.constructor | windows/main_window.py:17-140 | the window starts Stopped without media, with the "play" icon, no save location, placeholder texts and empty lists |
| Controller.MainWindow.PlayVideo | windows/main_window.py:151-153 | the engine plays and the button shows "pause" |
| Controller.MainWindow.PauseVideo | windows/main_window.py:155-157 | the engine pauses and the button shows "play" |
| Controller.MainWindow.PlayPauseVideo | windows/main_window.py:142-149 | without video nothing changes; otherwise the engine toggles and the icon shows "pause" exactly when it now plays |
| Controller.MainWindow.StopVideo | windows/main_window.py:159-161 | from any state the engine is Stopped and rewound, with the "play" icon |
| Controller.MainWindow.SetPosition | windows/main_window.py:163-164 | a slider move seeks the engine to that position |
| Controller.MainWindow.PositionChanged | windows/main_window.py:166-167 | the slider shows the engine's position, bounded to its range |
| Controller.MainWindow.DurationChanged | windows/main_window.py:169-170 | the slider's range becomes 0 to the duration |
| Controller.MainWindow.KeyPressEvent | windows/main_window.py:172-184 | Space toggles; the period key steps forward while Paused and is ignored otherwise; C captures; other keys change nothing |
| Controller.MainWindow.OpenFile | windows/main_window.py:186-194 | the chooser's result is always stored; a non-empty path is shown and loaded; a cancelled one changes nothing else |
| Controller.MainWindow.SetSaveLocation | windows/main_window.py:196-202 | the location always becomes the chooser's result, "" when cancelled; only a non-empty path is shown, watched and listed |
| Controller.MainWindow.CaptureFrame | windows/main_window.py:213-225 | nothing when Stopped; from Playing the video pauses first; then the missing-location warning or the preview with the location box's text |
| Controller.MainWindow.UpdateLists | windows/main_window.py:227-235 | both lists are replaced by the cropped and full names of the listing, whatever they held before |
| Controller.CaptureOutcome | windows/main_window.py:213-225 | no capture exactly when Stopped, the warning exactly when not Stopped and no location was ever set, else a preview of the frame with the location box's text |
| Controller.MissingVideoTestHarmless | windows/main_window.py:214-216 | for a window whose invariant holds, the guard without the video test equals the guard with it |
| Scenarios.CaptureAndSaveShot | windows/image_window.py:100-108 | a 1920 x 1080 capture saved as "shot1" creates exactly the full frame and its crop, which is `CroppedImage` of the frame and 489 x 1029; a second "shot1" is refused |
| Scenarios.CaptureWithoutLocation | windows/main_window.py:218-222 | capturing while playing with no location pauses and reports the missing location |
| Scenarios.CaptureAfterCancelledChoice | windows/main_window.py:196-199 | after a cancelled first choice a capture opens the preview with the placeholder text as save location |
| Scenarios.AudioOnlyFile | windows/main_window.py:142-145 | media without video never starts, so the period key is ignored and capture does nothing |

## Left out

- Widget construction, layouts, icons' images, sizes, window titles and the presentation of the two warning boxes (windows/main_window.py:17-140, 204-211; windows/image_window.py:15-93): the warnings appear as outcomes `NoSaveLocation` and `NameTaken`.
- The media engine's decoding, its own clock (the position advancing during playback), end of media and the video sink: the engine is a value record, the current frame is a parameter of capture, and what the engine learns about a loaded file (video track, duration) is the `Media` parameter of `OpenFile`, although the engine reports it later and asynchronously.
- Playback.StepForward: the engine's own bounding of a seek past the end of the media is not modelled; the position grows by exactly 1000.
- Controller.MainWindow.SetPosition: likewise, the engine's bounding of the seek position is not modelled.
- Image conversion between Qt and the imaging library and JPEG encoding: a written file holds the image value itself; writes never fail, even in a directory that does not exist.
- Crops of frames narrower than 1431 or shorter than 51 pixels: the imaging library pads or rejects them; here they are a precondition of `CroppedImage` and of the dialog.
- The file and directory choosers, the file-system watcher and the glob are inputs: a chosen path string and the directory's entry names in listing order. The entries given to `UpdateLists` are those of the directory `{location}`; the model does not track which directory that is (after a cancelled choice it is the root directory).
- The thumbnails (`QIcon` of each file) in the lists: the lists hold file names only.
- Path normalisation, glob metacharacters inside the location, and case-insensitive matching on Windows: paths are compared as strings and the glob is the POSIX one.
- The dialog's position offset and preview scaling; duster.py (startup and `resource_path`); windows/components/custom_button.py (a button that swallows key events).
