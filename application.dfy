/** The application object (application.py, class GUIApp): its stores of
    frames, annotated frames and predictions, its interface flags, and the
    operations that update them. Widgets are reduced to the values the code
    writes into them (progress bar, slider, canvas, info text). */
module Application {
  import opened Media
  import opened Filenames
  import opened Annotation
  import opened Report
  import opened Events

  /** The names of the cached models. */
  const ModelNames: set<string> := {"YOLO Base", "YOLO Multi-Class", "YOLO Resilient"}

  class GuiApp {
    // stores kept for saving
    var frames: seq<Image>
    var annotatedFrames: seq<Image>
    var predictionBoxes: seq<Box>
    var predLengths: seq<nat>
    // the selected model and the info text
    var model: string
    var info: string
    // interface flags
    var breakout: bool
    var fileBrowsing: bool
    var touchingSlider: bool
    // widget values the code writes: progress bar, slider, canvas
    var progressCount: nat
    var progressMax: nat
    var sliderMax: nat
    var sliderValue: nat
    var displayed: Option<nat>

    function Stores(): Session
      reads this
    {
      Session(annotatedFrames, predictionBoxes, predLengths)
    }

    function Flags(): Controls
      reads this
    {
      Controls(breakout, fileBrowsing, touchingSlider, sliderValue, displayed)
    }

    constructor ()
      ensures Stores() == Fresh && frames == []
      ensures Flags() == Controls(false, true, false, 0, None)
      ensures model == "YOLO Base" && info == "Info will show up here"
      ensures progressCount == 0 && progressMax == 600 && sliderMax == 100
    {
      frames, annotatedFrames, predictionBoxes, predLengths := [], [], [], [];
      model, info := "YOLO Base", "Info will show up here";
      breakout, fileBrowsing, touchingSlider := false, true, false;
      progressCount, progressMax := 0, 600;
      sliderMax, sliderValue, displayed := 100, 0, None;
    }

    /** Handles one event of the foreground loop; `slider` is the slider's
        value read with it. Returns the background job the event starts. */
    method Update(e: Event, slider: nat) returns (job: Option<Job>)
      modifies this`breakout, this`fileBrowsing, this`touchingSlider, this`sliderValue, this`displayed
      ensures Flags() == Step(old(Flags()), e, slider, |annotatedFrames|)
      ensures job == Launch(e)
    {
      job := None;
      if e.Closed? || e.Exit? {
        breakout := true;
      }
      if e.BrowseInput? {
        fileBrowsing := true;
        job := Some(Browse);
      }
      if e.BrowseOutput? {
        fileBrowsing := false;
        job := Some(Browse);
      }
      if e.StartAnnotating? {
        job := Some(Annotate);
      }
      if e.Slider? {
        touchingSlider := true;
        if slider < |annotatedFrames| {
          displayed := Some(slider);
        }
      }
      if e.NextFrame? {
        if slider + 1 < |annotatedFrames| {
          displayed := Some(slider + 1);
        }
        sliderValue := slider + 1;
      }
      if e.Play? {
        touchingSlider := !touchingSlider;
      }
      if e.SaveVideo? {
        job := Some(ExportVideo);
      }
      if e.SaveSheet? {
        job := Some(ExportSheet);
      }
    }

    /** Loads the frames and annotates them one by one. `selected` is the
        model chosen in the selector, `loaded` the loader's frames (None when
        it raised), `detect` the selected model's single-frame annotation. */
    method AnnotateFramesGui(selected: string, loaded: Option<seq<Image>>, detect: Detector)
      modifies this`model, this`frames, this`info, this`annotatedFrames, this`predictionBoxes, this`predLengths
      modifies this`progressCount, this`progressMax, this`sliderMax, this`sliderValue, this`displayed
      // an unknown model name raises before anything but the info text changes
      ensures selected !in ModelNames ==>
                info == "Loading Frames" && model == old(model) && frames == old(frames) &&
                Stores() == old(Stores()) && Flags() == old(Flags()) &&
                progressCount == old(progressCount) && progressMax == old(progressMax) && sliderMax == old(sliderMax)
      ensures selected in ModelNames ==> model == selected && info == "Annotating Frames"
      // a failed load keeps the previous frames
      ensures selected in ModelNames ==> frames == if loaded.Some? then loaded.value else old(frames)
      ensures selected in ModelNames ==> Stores() == Run(old(Stores()), detect, frames)
      ensures selected in ModelNames ==> progressCount == progressMax == |frames|
      // the slider range follows the annotated frames
      ensures selected in ModelNames ==> sliderMax == if frames == [] then old(sliderMax) else |frames|
      // canvas and slider follow the newest frame only while playback is not paused
      ensures selected in ModelNames && (frames == [] || touchingSlider) ==>
                sliderValue == old(sliderValue) && displayed == old(displayed)
      ensures selected in ModelNames && frames != [] && !touchingSlider ==>
                sliderValue == |frames| && displayed == Some(|frames| - 1)
    {
      info := "Loading Frames";
      if selected !in ModelNames {
        return;
      }
      model := selected;
      if loaded.Some? {
        frames := loaded.value;
      } else {
        info := "Video Path Invalid";
      }
      info := "Annotating Frames";
      AnnotateLoadedFrames(detect);
    }

    /** The annotation loop of `AnnotateFramesGui` over the loaded frames:
        empties the annotated frames and boxes, then appends each frame's
        annotation, boxes and box count, advancing the progress bar and, while
        playback is not paused, the slider and the canvas. */
    method AnnotateLoadedFrames(detect: Detector)
      modifies this`annotatedFrames, this`predictionBoxes, this`predLengths
      modifies this`progressCount, this`progressMax, this`sliderMax, this`sliderValue, this`displayed
      ensures Stores() == Run(old(Stores()), detect, frames)
      ensures progressCount == progressMax == |frames|
      ensures sliderMax == if frames == [] then old(sliderMax) else |frames|
      ensures frames == [] || touchingSlider ==> sliderValue == old(sliderValue) && displayed == old(displayed)
      ensures frames != [] && !touchingSlider ==> sliderValue == |frames| && displayed == Some(|frames| - 1)
    {
      annotatedFrames := [];
      predictionBoxes := [];
      progressCount, progressMax := 0, |frames|;
      var fs := frames;
      var i := 0;
      while i < |fs|
        invariant 0 <= i <= |fs|
        invariant annotatedFrames == AnnotatedOf(detect, fs[..i])
        invariant predictionBoxes == BoxesOf(detect, fs[..i])
        invariant predLengths == old(predLengths) + CountsOf(detect, fs[..i])
        invariant progressCount == i && progressMax == |fs|
        invariant sliderMax == if i == 0 then old(sliderMax) else i
        invariant sliderValue == if i == 0 || touchingSlider then old(sliderValue) else i
        invariant displayed == if i == 0 || touchingSlider then old(displayed) else Some(i - 1)
      {
        var frame := fs[i];
        var d := detect(frame);
        assert annotatedFrames + [d.annotated] == AnnotatedOf(detect, fs[..i + 1]) &&
               predictionBoxes + d.boxes == BoxesOf(detect, fs[..i + 1]) &&
               predLengths + [|d.boxes|] == old(predLengths) + CountsOf(detect, fs[..i + 1]) by {
          AnnotateOneMore(detect, fs, i);
          assert old(predLengths) + CountsOf(detect, fs[..i + 1])
              == (old(predLengths) + CountsOf(detect, fs[..i])) + [|d.boxes|];
        }
        StoreDetection(d);
        ShowProgress(i);
        i := i + 1;
      }
      assert fs[..i] == fs;
    }

    /** Records one frame's annotation: its annotated image, its box rows and
        its box count each go at the end of their store. */
    method StoreDetection(d: Detection)
      modifies this`annotatedFrames, this`predictionBoxes, this`predLengths
      ensures annotatedFrames == old(annotatedFrames) + [d.annotated]
      ensures predictionBoxes == old(predictionBoxes) + d.boxes
      ensures predLengths == old(predLengths) + [|d.boxes|]
    {
      annotatedFrames := annotatedFrames + [d.annotated];
      predictionBoxes := predictionBoxes + d.boxes;
      predLengths := predLengths + [|d.boxes|];
    }

    /** The interface update after frame `i` is annotated: the progress bar
        and the slider range follow the annotated frames, and the canvas and
        the slider position follow frame `i` unless playback is paused. */
    method ShowProgress(i: nat)
      modifies this`progressCount, this`sliderMax, this`sliderValue, this`displayed
      ensures progressCount == i + 1 && sliderMax == |annotatedFrames|
      ensures touchingSlider ==> sliderValue == old(sliderValue) && displayed == old(displayed)
      ensures !touchingSlider ==> sliderValue == i + 1 && displayed == Some(i)
    {
      progressCount := i + 1;
      sliderMax := |annotatedFrames|;
      if !touchingSlider {
        displayed := Some(i);
        sliderValue := i + 1;
      }
    }

    /** The export request of the video button: the target path, with ".mp4"
        added when missing, and the frames to encode. */
    method SaveAnnotatedVideo(outputPath: string, outputFile: string) returns (target: string, written: seq<Image>)
      ensures target == OutputTarget(outputPath, outputFile, VideoSuffix)
      ensures EndsWith(target, VideoSuffix)
      ensures written == annotatedFrames
    {
      var filename := outputFile;
      if !EndsWith(filename, VideoSuffix) {
        filename := filename + VideoSuffix;
      }
      target := outputPath + "/" + filename;
      written := annotatedFrames;
    }

    /** Builds the sheet of the sheet button: the label column frame by frame,
        prepended to the box rows, then two column swaps on the new table.
        `rate` is the frame rate the selected model's annotator recorded
        (None before it has read a video); every label's timestamp divides
        by it. The stores themselves are left untouched. */
    method SaveXlsx(outputPath: string, outputFile: string, rate: Option<real>) returns (r: Result<Sheet, SheetError>)
      ensures predLengths != [] && rate.None? ==> r == Err(NoFrameRate)
      ensures predLengths != [] && rate == Some(0.0) ==> r == Err(ZeroFrameRate)
      ensures RateUsable(predLengths, rate) && SheetRows(predLengths, predictionBoxes).Err? ==>
                r == Err(SheetRows(predLengths, predictionBoxes).error)
      ensures RateUsable(predLengths, rate) && SheetRows(predLengths, predictionBoxes).Ok? ==>
                r == Ok(Sheet(OutputTarget(outputPath, outputFile, SheetSuffix), Header,
                              SheetRows(predLengths, predictionBoxes).value))
    {
      var names: seq<nat> := [];
      var i := 0;
      while i < |predLengths|
        invariant 0 <= i <= |predLengths|
        invariant names == FrameColumn(predLengths[..i])
        invariant i > 0 ==> rate.Some? && rate.value != 0.0
      {
        if rate.None? {
          return Err(NoFrameRate);
        }
        if rate.value == 0.0 {
          return Err(ZeroFrameRate);
        }
        assert predLengths[..i + 1][..i] == predLengths[..i];
        names := names + Repeat(i, predLengths[i]);
        i := i + 1;
      }
      assert predLengths[..i] == predLengths;
      if |names| != |predictionBoxes| {
        return Err(ShapeMismatch(|names|, |predictionBoxes|));
      }
      var n := |names|;
      var boxes := predictionBoxes;
      var table := new Cell[n, 5]((k, c) requires 0 <= k < n && 0 <= c < 5 => BoxRow(names[k], boxes[k])[c]);
      SwapColumns(table, 2, 3);
      SwapColumns(table, 3, 4);
      var rows := seq(n, k requires 0 <= k < n reads table => seq(5, c requires 0 <= c < 5 reads table => table[k, c]));
      ghost var expected := SheetRows(predLengths, predictionBoxes).value;
      forall k | 0 <= k < n
        ensures rows[k] == expected[k]
      {
        assert rows[k] == ReorderColumns(BoxRow(names[k], boxes[k]));
      }
      var filename := outputFile;
      if !EndsWith(filename, SheetSuffix) {
        filename := filename + SheetSuffix;
      }
      assert rows == expected;
      assert filename == WithSuffix(outputFile, SheetSuffix);
      r := Ok(Sheet(outputPath + "/" + filename, Header, rows));
    }
  }
}
