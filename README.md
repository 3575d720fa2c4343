# Sea-star video annotator: a Dafny model of its bookkeeping

The program loads an underwater video and runs a YOLO detector on every
frame. It shows the annotated frames in a small GUI with a slider and a
pause/play button. It exports the result as a re-encoded video and as a
spreadsheet with one row per detected box.

This project models the bookkeeping around frames and detections:

- `media.dfy` (`Media`) holds the values shared by the rest of the model. These are images, boxes and the decoded video stream. `Read` is the decoder's `read()`, and `FirstFrames` is the capped prefix that the frame readers keep.
- `filenames.dfy` (`Filenames`) models how the output filename gets its `.mp4` or `.xlsx` suffix when it is missing.
- `annotation.dfy` (`Annotation`) covers one annotation run of the application, stated on values. It gives the three parallel stores `annotated_frames`, `prediction_boxes` and `pred_lengths` after a run. It also holds the run as written, where `pred_lengths` is never emptied, next to a corrected run.
- `report.dfy` (`Report`) models the exported sheet:
  - the label column, which repeats frame `i` `pred_lengths[i]` times;
  - the two in-place column swaps, done on an `array2`;
  - the missing or zero frame rate and the row-count mismatch that make building the sheet fail.
- `events.dfy` (`Events`) models the flag logic of the foreground event handler as a transition function, plus the background job each event starts.
- `application.dfy` (`Application`) models the application object `GuiApp`. Its fields are the stores, the flags and the widget values the code writes. Its methods are the event handler, the annotation loop and the two exporters.
- `video_extractor.dfy` (`VideoExtractor`) and `video_extactor.dfy` (`VideoExtactor`) model the two `FrameAnnotator` classes:
  - `video_extractor.py` keeps at most 4 frames and emits one image per predicted box;
  - `video_extactor.py`, the one the application imports, keeps at most 22 frames and emits one image per frame.

Three things the model cannot see are passed in as parameters: the detector, the blur/flip transform and the decoded video. They are total functions or plain values:

- `Detector = Image -> Detection` is the application's single-frame annotation. It returns the frame with its overlay and the frame's boxes.
- `predict: Image -> seq<Box>` and `transform: Image -> Image` are fixed when a `FrameAnnotator` is built.
- A `Capture` is the sequence of frames the decoder yields, plus its frame rate.

In `annotate_frames_gui` the model selector's value and the loader's outcome are parameters of `AnnotateFramesGui`. The loader's outcome is `None` when the loader raised.

Notes on what the code does:

- The sheet's "Y Bound, Upper" column holds `y2` and "Y Bound, Lower" holds `y1`. This is the effect of the two swaps at application.py:187-188. `Report.YBoundsExportedSwapped` states it.
- Exporting a session with no counts raises nothing and writes a sheet with no rows. Otherwise each label divides by the selected annotator's frame rate, so the export fails when that rate was never recorded or is zero (`Application.GuiApp.SaveXlsx`). Once the rate is usable, `Report.SheetRows` fails only when the label column and the box rows differ in length.
- The frame readers stop after 4 or 22 frames; they do not drain the container.
- Each event builds fresh thread objects, so the "already running" test never holds and every launching event starts its job (`Events.Launch`).

## Model

| member | source | states |
|---|---|---|
| Media.Read | video_extractor.py:29-35 | a read succeeds exactly while frames remain, and then yields the next frame of the stream |
| Media.DrawRectangle | video_extractor.py:57-59 | drawing a box gives a copy with the same size and pixels and that box as its last outline |
| Media.FirstFrames | video_extractor.py:28-35 | the frames kept are an in-order prefix of the stream, at most `cap` long, and the whole stream when it is shorter |
| Filenames.WithSuffix | application.py:158-160 | the name always ends with the suffix, starts with the given name and grows by at most the suffix |
| Filenames.WithSuffixKeeps | application.py:159 | a name that already ends with the suffix is unchanged |
| Filenames.WithSuffixAppends | application.py:159-160 | any other name gets exactly the suffix appended |
| Filenames.WithSuffixIdempotent | application.py:194-197 | normalising twice is normalising once |
| Filenames.UpperCaseExtensionIsAppended | application.py:159-160 | the suffix test is case-sensitive: "clip.MP4" becomes "clip.MP4.mp4" |
| Filenames.OutputTarget | application.py:162-163 | the written path is the folder, a slash and the normalised name, and ends with the suffix |
| Annotation.AnnotatedOf | application.py:132-137 | a run yields exactly one annotated frame per frame |
| Annotation.AnnotatedOfAt | application.py:134-137 | annotated frame `i` is the detector's annotation of frame `i` |
| Annotation.CountsOf | application.py:140 | a run appends exactly one count per frame |
| Annotation.CountsOfAt | application.py:135-140 | count `i` is the number of boxes predicted for frame `i` |
| Annotation.AnnotateOneMore | application.py:132-140 | each iteration appends one annotated frame, exactly that frame's boxes, and their number |
| Annotation.Run | application.py:127-140 | a run leaves one annotated frame per frame, and the count store grows by one entry per frame |
| Annotation.RunKeepsCounts | application.py:127-140 | a run empties the annotated frames and boxes but not the counts: the old counts stay in front, followed by one count per frame |
| Annotation.RunReset | application.py:127-140 | a run that also empties `pred_lengths` leaves the stores consistent: one count per annotated frame, and the counts add up to the box rows |
| Annotation.BoxesOf | application.py:138-139 | no frames give no box rows, and a single frame gives exactly its own boxes |
| Annotation.BoxesCounted | application.py:138-140 | a run appends as many box rows as its counts add up to |
| Annotation.BoxesOfFrame | application.py:138-139 | frame `i`'s boxes sit in the box store right after the boxes of the frames before it |
| Annotation.RunTotals | application.py:127-140 | after a run the counts add up to the old counts' total plus the new box rows |
| Annotation.RunConsistentIff | application.py:54-56 | a run leaves the stores consistent if and only if the count store was empty before it: on a fresh application, or when every earlier run was over no frames |
| Annotation.SecondRunInconsistent | application.py:127-140 | a first run over a non-empty video is consistent, and a second run over it is not |
| Report.Repeat | application.py:180-183 | frame `i`'s label is written exactly `n` times |
| Report.FrameColumn | application.py:174-183 | the label column has exactly sum(`pred_lengths`) entries |
| Report.FrameColumnAt | application.py:175-183 | row `k` of the label column names the frame whose block of rows contains `k` |
| Report.FrameColumnBlock | application.py:175-183 | frame `i`'s block is its label repeated `pred_lengths[i]` times, after the blocks of the frames before it |
| Report.FrameColumnAscending | application.py:175-183 | labels never decrease down the column |
| Report.BoxRow | application.py:184-185 | before the swaps a box row has five cells: its frame's label, then x1, y1, x2, y2 |
| Report.SwapCells | application.py:187 | swapping two columns exchanges those cells and keeps the others |
| Report.ReorderColumns | application.py:187-188 | the two swaps turn `[label, x1, y1, x2, y2]` into `[label, x1, x2, y2, y1]` |
| Report.ReorderedBoxRow | application.py:184-190 | a box's exported row has its label, then x1 under "X Bound, Left", x2 under "X Bound, Right", y2 under "Y Bound, Upper" and y1 under "Y Bound, Lower" |
| Report.YBoundsExportedSwapped | application.py:187-190 | a box with y1 < y2 is exported with "Y Bound, Upper" greater than "Y Bound, Lower" |
| Report.SheetRows | application.py:172-192 | building the sheet fails exactly when the label column and the box rows differ in length; otherwise every box row is exported, in order, under its label |
| Report.SwapColumns | application.py:187-188 | swapping columns in place moves every row's cells between the two columns and nothing else |
| Report.SheetRowOfFrame | application.py:174-188 | in a sheet that can be built, box `j` of frame `i`'s block is exported under frame `i`'s label |
| Report.ResetRunSheet | application.py:127-140 | after a resetting run the sheet can always be built, and every box is labelled with its own frame |
| Report.RunSheetFails | application.py:184-185 | after an as-written run, building the sheet fails exactly when earlier counts hold boxes |
| Report.ShiftedSheetRow | application.py:175-185 | counts that add up to zero, placed first, keep each box row where it was but raise its label by their number |
| Report.RunSheetMislabels | application.py:127-140 | after an as-written run whose earlier counts hold no boxes, box `j` of frame `i` is labelled frame `i` plus the number of earlier counts |
| Events.Step | application.py:77-101 | a redraw only shows an existing annotated frame; Exit or closing sets the exit flag for good; the browse buttons choose the dialog; the slider pauses, Play toggles the pause flag; Next Frame always moves the slider one past its value |
| Events.Launch | application.py:79-107 | exactly the browse, annotate and two save events start a job, and both browse buttons start a browse |
| Events.PlayTwice | application.py:100-101 | pressing Play twice restores the state |
| Events.SliderRedraw | application.py:90-94 | dragging the slider redraws exactly when its index is below the number of annotated frames |
| Events.NextFrameRedraw | application.py:95-99 | below the last frame, Next Frame moves the slider one on and draws that frame, and changes nothing else |
| Events.NextFramePastEnd | application.py:95-99 | past the last frame, Next Frame still moves the slider but leaves the canvas |
| Application.GuiApp.constructor | application.py:16-59 | a fresh application has empty stores, the default model, the exit flag clear, browsing set to input, the pause flag clear, and the initial widget values |
| Application.GuiApp.Update | application.py:61-107 | the handler changes the flags and the cursor as `Step` says and starts the job `Launch` names |
| Application.GuiApp.AnnotateFramesGui | application.py:109-150 | an unknown model name changes only the info text; otherwise a failed load keeps the old frames, the stores become a `Run` over the frames, progress reaches the frame count, and the slider and canvas follow the newest frame only while playback is not paused |
| Application.GuiApp.AnnotateLoadedFrames | application.py:126-150 | the annotation loop: it empties two stores, appends each frame's share to all three, and moves progress, slider range, slider and canvas |
| Application.GuiApp.StoreDetection | application.py:137-140 | one frame's annotated image, box rows and box count each go at the end of their store |
| Application.GuiApp.ShowProgress | application.py:142-150 | after frame `i` the progress bar shows `i`+1 and the slider range the annotated frames; the canvas shows frame `i` and the slider `i`+1 only while playback is not paused |
| Application.GuiApp.SaveAnnotatedVideo | application.py:156-164 | the video goes to the normalised ".mp4" path and carries the annotated frames |
| Application.GuiApp.SaveXlsx | application.py:167-199 | with counts present, a missing frame rate fails with `NoFrameRate` and a zero one with `ZeroFrameRate`; otherwise the sheet is `SheetRows` of the stores with the fixed header, written to the normalised ".xlsx" path, and a row-count mismatch fails; the stores are not modified |
| VideoExtractor.FrameBoxImages | video_extractor.py:52-60 | a frame yields one image per box |
| VideoExtractor.FrameBoxImagesAt | video_extractor.py:57-60 | image `j` of a frame is a fresh copy of the frame with only box `j` added, transformed |
| VideoExtractor.FrameImages | video_extractor.py:50-60 | a frame yields one image per box predicted for it |
| VideoExtractor.BoxImages | video_extractor.py:48-60 | no frames give no images, and a single frame gives exactly its own images |
| VideoExtractor.BoxCounts | video_extractor.py:50-52 | one box count per frame |
| VideoExtractor.BoxCountsAt | video_extractor.py:50-52 | count `i` is the number of boxes predicted for frame `i` |
| VideoExtractor.BoxImagesCount | video_extractor.py:48-60 | the output has exactly as many images as boxes over all frames |
| VideoExtractor.BoxImagesAppend | video_extractor.py:48-60 | the images of consecutive runs of frames concatenate |
| VideoExtractor.BoxlessFrameAddsNothing | video_extractor.py:52-60 | a frame with no boxes contributes no image |
| VideoExtractor.BoxImageAt | video_extractor.py:48-60 | box `j` of frame `i` yields the image at index (boxes of earlier frames) + `j`: that frame with that box drawn, transformed |
| VideoExtractor.FrameAnnotator.constructor | video_extractor.py:8-19 | a new annotator has no frames, no annotated frames and no frame rate |
| VideoExtractor.FrameAnnotator.VideoToFrames | video_extractor.py:21-37 | the old frames are replaced by the first at most 4 frames of the stream, in order, and the frame rate is recorded |
| VideoExtractor.FrameAnnotator.AnnotateFrames | video_extractor.py:41-60 | no frames raises and changes nothing; otherwise the annotated frames are replaced by one image per predicted box |
| VideoExtractor.FrameAnnotator.ReconstructVideo | video_extractor.py:62-72 | no annotated frames raises; no frames raises (the first frame's size is read); otherwise every annotated frame is written in order, as mp4v, at the recorded rate, with the first frame's width and height |
| VideoExtractor.FrameAnnotator.GenerateCsv | video_extractor.py:74-76 | raises exactly when no frames are loaded, and changes nothing |
| VideoExtactor.FrameAnnotator.constructor | video_extactor.py:8-19 | a new annotator has no frames, no annotated frames and no frame rate |
| VideoExtactor.FrameAnnotator.VideoToFrames | video_extactor.py:22-38 | the old frames are replaced by the first at most 22 frames of the stream, in order, and the frame rate is recorded |
| VideoExtactor.FrameAnnotator.AnnotateFrames | video_extactor.py:42-53 | no frames raises and changes nothing; otherwise the annotated frames are replaced by exactly one transformed image per frame, in order |
| VideoExtactor.FrameAnnotator.ReconstructVideo | video_extactor.py:55-65 | no annotated frames raises; no frames raises; otherwise every annotated frame is written once, in order, with the first frame's width and height |
| VideoExtactor.FrameAnnotator.GenerateCsv | video_extactor.py:67-69 | raises exactly when no frames are loaded, and changes nothing |

## Left out

- Window construction, rendering and resizing are not modelled: the layout and `frame_update_data`. The canvas is the index of the annotated frame it last showed.
- Threads and the `is_alive` gating are not modelled. The handler returns the job kind it starts, and each job is modelled as one sequential call. The pause flag is constant during a run: the annotation loop reads `touchingSlider`, and no step of the model changes it while the loop runs. A Play press or a slider drag during a run, which the foreground loop would apply between iterations, is not modelled.
- The file dialogs of `browse` are external I/O.
- YOLO prediction, `cv2.VideoCapture`/`VideoWriter`, the torchvision transform and `DataFrame.to_excel` are opaque library calls. They appear only as function parameters, values and results.
- The timestamp text in the label column is float arithmetic with `:.3f` formatting, so it is not modelled. `Report.FrameLabel(i)` stands for frame `i`'s label. Of the frame-rate division only its failure is modelled: the rate is passed to `SaveXlsx` as an option, and a missing or zero rate fails.
- numpy turns the whole table into strings once the label column is prepended. The model keeps the coordinates as reals.
- The info texts of the two save methods ("Saving Video", "Saving Sheet", "Saving Complete") are not modelled.
- `Application.GuiApp.AnnotateFramesGui`: the annotation loop is its own method, `AnnotateLoadedFrames`, the store appends inside it are `StoreDetection`, and the interface update is `ShowProgress`. This keeps each proof small. The steps and their order are those of the source.
- `Application.GuiApp.AnnotateFramesGui`: the application's calls do not match the annotator it imports. `video_to_frames` returns nothing, `annotate_single_frame` does not exist, and `reconstruct_video` takes one argument. So the loop runs against an abstract loader outcome and an abstract detector, and is not linked to the `FrameAnnotator` models.
- `Application.GuiApp.SaveAnnotatedVideo`: it returns the target path and the frames handed to the writer. The encoding itself is left out.
- `VideoExtractor.FrameAnnotator.AnnotateFrames`: the transform is one fixed function. The random blur strength drawn on each call is not modelled.
- `VideoExtactor.FrameAnnotator.AnnotateFrames`: the transform is one fixed function. The prediction is computed and only printed.
- The module-level scripts at the end of both annotator files, and test.py, only load models and run inference or training.

## Findings

| source | as written | input that shows it | evidently intended | confidence | as-written member | corrected member |
|---|---|---|---|---|---|---|
| application.py:127-129 | a new run empties `annotated_frames` and `prediction_boxes` but not `pred_lengths`, so the counts of every earlier run stay in front of the new ones | annotate a video of one frame with one box, then annotate it again: `pred_lengths` is `[1, 1]` against one box row, and building the sheet fails on the row mismatch; with no boxes in the first run, the sheet labels the second run's frame 0 as frame 1 | `pred_lengths` emptied with the other two stores, so the stores stay consistent and each box is labelled with its own frame | not executed | Annotation.Run (with Annotation.SecondRunInconsistent, Report.RunSheetFails, Report.RunSheetMislabels) | Annotation.RunReset (with Report.ResetRunSheet) |
