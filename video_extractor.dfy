/** The frame annotator of video_extractor.py: it keeps the first four frames
    of a video, and emits one annotated image per predicted box (the frame
    with that box drawn on it, then blurred and flipped). The detector and
    the transform are opaque functions fixed at construction. */
module VideoExtractor {
  import opened Media

  /** The reading loop stops once its counter passes 3. */
  const FrameCap: nat := 4

  /** The images one frame yields: for each box, in order, a fresh copy of the
      frame with that box drawn on it, transformed. */
  function FrameBoxImages(transform: Image -> Image, frame: Image, boxes: seq<Box>): (r: seq<Image>)
    ensures |r| == |boxes|
  {
    if boxes == [] then []
    else FrameBoxImages(transform, frame, boxes[..|boxes| - 1]) + [transform(DrawRectangle(frame, boxes[|boxes| - 1]))]
  }

  /** Image `j` of a frame carries box `j` drawn on the frame itself, not on
      the images of the boxes before it. */
  lemma {:induction false} FrameBoxImagesAt(transform: Image -> Image, frame: Image, boxes: seq<Box>, j: nat)
    requires j < |boxes|
    ensures FrameBoxImages(transform, frame, boxes)[j] == transform(DrawRectangle(frame, boxes[j]))
    ensures DrawRectangle(frame, boxes[j]).outlines == frame.outlines + [boxes[j]]
    decreases |boxes|
  {
    if j < |boxes| - 1 {
      FrameBoxImagesAt(transform, frame, boxes[..|boxes| - 1], j);
    }
  }

  /** The images of one frame for its predicted boxes. */
  function FrameImages(predict: Image -> seq<Box>, transform: Image -> Image, frame: Image): (r: seq<Image>)
    ensures |r| == |predict(frame)|
  {
    FrameBoxImages(transform, frame, predict(frame))
  }

  /** Every frame's images, concatenated in frame order. */
  function BoxImages(predict: Image -> seq<Box>, transform: Image -> Image, frames: seq<Image>): (r: seq<Image>)
    ensures frames == [] ==> r == []
    ensures |frames| == 1 ==> r == FrameImages(predict, transform, frames[0])
  {
    if frames == [] then []
    else BoxImages(predict, transform, frames[..|frames| - 1]) + FrameImages(predict, transform, frames[|frames| - 1])
  }

  /** The number of boxes predicted for each frame. */
  function BoxCounts(predict: Image -> seq<Box>, frames: seq<Image>): (r: seq<nat>)
    ensures |r| == |frames|
  {
    if frames == [] then [] else BoxCounts(predict, frames[..|frames| - 1]) + [|predict(frames[|frames| - 1])|]
  }

  lemma {:induction false} BoxCountsAt(predict: Image -> seq<Box>, frames: seq<Image>, i: nat)
    requires i < |frames|
    ensures BoxCounts(predict, frames)[i] == |predict(frames[i])|
    decreases |frames|
  {
    if i < |frames| - 1 {
      BoxCountsAt(predict, frames[..|frames| - 1], i);
    }
  }

  /** One image per predicted box: as many images as boxes over all frames. */
  lemma {:induction false} BoxImagesCount(predict: Image -> seq<Box>, transform: Image -> Image, frames: seq<Image>)
    ensures |BoxImages(predict, transform, frames)| == Sum(BoxCounts(predict, frames))
    decreases |frames|
  {
    if frames != [] {
      BoxImagesCount(predict, transform, frames[..|frames| - 1]);
    }
  }

  /** The images of consecutive runs of frames are the concatenation of each
      run's images. */
  lemma {:induction false} BoxImagesAppend(predict: Image -> seq<Box>, transform: Image -> Image, a: seq<Image>, b: seq<Image>)
    ensures BoxImages(predict, transform, a + b) == BoxImages(predict, transform, a) + BoxImages(predict, transform, b)
    decreases |b|
  {
    if b == [] {
      assert a + b == a;
    } else {
      var init, last := b[..|b| - 1], b[|b| - 1];
      assert (a + b)[..|a + b| - 1] == a + init;
      assert (a + b)[|a + b| - 1] == last;
      BoxImagesAppend(predict, transform, a, init);
      assert BoxImages(predict, transform, a + b)
          == BoxImages(predict, transform, a + init) + FrameImages(predict, transform, last);
    }
  }

  /** A frame without predicted boxes contributes no image. */
  lemma BoxlessFrameAddsNothing(predict: Image -> seq<Box>, transform: Image -> Image, frames: seq<Image>, i: nat)
    requires i < |frames| && predict(frames[i]) == []
    ensures BoxImages(predict, transform, frames)
         == BoxImages(predict, transform, frames[..i]) + BoxImages(predict, transform, frames[i + 1..])
  {
    var before, after := frames[..i], frames[i + 1..];
    var upTo := before + [frames[i]];
    assert frames == upTo + after;
    BoxImagesAppend(predict, transform, upTo, after);
    assert BoxImages(predict, transform, upTo) == BoxImages(predict, transform, before) by {
      assert upTo[..|upTo| - 1] == before && upTo[|upTo| - 1] == frames[i];
      assert FrameImages(predict, transform, frames[i]) == [];
    }
  }

  /** Box `j` of frame `i` yields image `k`, right after the images of the
      frames before it: that frame with only that box drawn, transformed. */
  lemma {:induction false} BoxImageAt(predict: Image -> seq<Box>, transform: Image -> Image, frames: seq<Image>, i: nat, j: nat, k: nat)
    requires i < |frames| && j < |predict(frames[i])|
    requires k == Sum(BoxCounts(predict, frames)[..i]) + j
    ensures k < |BoxImages(predict, transform, frames)|
    ensures BoxImages(predict, transform, frames)[k] == transform(DrawRectangle(frames[i], predict(frames[i])[j]))
    decreases |frames|
  {
    var n := |frames|;
    var init := frames[..n - 1];
    var counts := BoxCounts(predict, frames);
    assert counts[..n - 1] == BoxCounts(predict, init);
    BoxImagesCount(predict, transform, init);
    if i == n - 1 {
      FrameBoxImagesAt(transform, frames[i], predict(frames[i]), j);
    } else {
      assert counts[..i] == BoxCounts(predict, init)[..i];
      assert init[i] == frames[i];
      BoxImageAt(predict, transform, init, i, j, k);
    }
  }

  class FrameAnnotator {
    var frames: seq<Image>
    var annotatedFrames: seq<Image>
    var frameRate: Option<real>
    /** The detector's boxes for a frame at confidence 0.25, corners first. */
    const predict: Image -> seq<Box>
    /** The blur-then-flip transform applied to each emitted image. */
    const transform: Image -> Image

    constructor (predict: Image -> seq<Box>, transform: Image -> Image)
      ensures frames == [] && annotatedFrames == [] && frameRate == None
      ensures this.predict == predict && this.transform == transform
    {
      this.predict, this.transform := predict, transform;
      frames, annotatedFrames, frameRate := [], [], None;
    }

    /** Replaces the frames with the first frames the decoder yields, at most
        `FrameCap` of them, and records the container's frame rate. */
    method VideoToFrames(video: Capture)
      modifies this`frames, this`frameRate
      ensures frames == FirstFrames(video, FrameCap)
      ensures frameRate == Some(video.fps)
    {
      frames := [];
      var pos := 0;
      var more, img := Read(video, pos).0, Read(video, pos).1;
      pos := pos + 1;
      frameRate := Some(video.fps);
      var count := 0;
      while more && count <= 3
        invariant pos == count + 1 && count <= FrameCap && count <= |video.stream|
        invariant frames == video.stream[..count]
        invariant more <==> count < |video.stream|
        invariant more ==> img == Some(video.stream[count])
        invariant frameRate == Some(video.fps)
        decreases |video.stream| - count
      {
        count := count + 1;
        frames := frames + [img.value];
        more, img := Read(video, pos).0, Read(video, pos).1;
        pos := pos + 1;
      }
      assert count == |video.stream| ==> video.stream[..count] == video.stream;
    }

    /** Annotates the frames: raises when there are none, otherwise replaces
        the annotated frames with one image per predicted box. */
    method AnnotateFrames() returns (raised: Option<AnnotatorError>)
      modifies this`annotatedFrames
      ensures frames == [] ==> raised == Some(NoFramesLoaded) && annotatedFrames == old(annotatedFrames)
      ensures frames != [] ==> raised == None && annotatedFrames == BoxImages(predict, transform, frames)
    {
      if |frames| == 0 {
        return Some(NoFramesLoaded);
      }
      annotatedFrames := [];
      var fs := frames;
      for i := 0 to |fs|
        invariant annotatedFrames == BoxImages(predict, transform, fs[..i])
      {
        var frame := fs[i];
        var predictions := predict(frame);
        assert fs[..i + 1][..i] == fs[..i];
        for j := 0 to |predictions|
          invariant annotatedFrames == BoxImages(predict, transform, fs[..i]) + FrameBoxImages(transform, frame, predictions[..j])
        {
          assert predictions[..j + 1][..j] == predictions[..j];
          var drawn := DrawRectangle(frame, predictions[j]);
          annotatedFrames := annotatedFrames + [transform(drawn)];
        }
        assert predictions[..|predictions|] == predictions;
      }
      assert fs[..|fs|] == fs;
      raised := None;
    }

    /** Writes the annotated frames, in order, as an mp4v video with the
        recorded frame rate and the first frame's size. */
    method ReconstructVideo(filename: string) returns (r: Result<VideoFile, AnnotatorError>)
      ensures annotatedFrames == [] ==> r == Err(NoFramesAnnotated)
      ensures annotatedFrames != [] && frames == [] ==> r == Err(FirstFrameMissing)
      ensures annotatedFrames != [] && frames != [] ==>
                r == Ok(VideoFile(filename, Mp4v, frameRate, frames[0].width, frames[0].height, annotatedFrames))
    {
      if |annotatedFrames| == 0 {
        return Err(NoFramesAnnotated);
      }
      if |frames| == 0 {
        return Err(FirstFrameMissing);
      }
      var width, height := frames[0].width, frames[0].height;
      var written: seq<Image> := [];
      for k := 0 to |annotatedFrames|
        invariant written == annotatedFrames[..k]
      {
        written := written + [annotatedFrames[k]];
      }
      assert annotatedFrames[..|annotatedFrames|] == annotatedFrames;
      r := Ok(VideoFile(filename, Mp4v, frameRate, width, height, written));
    }

    /** Raises when no frames are loaded; otherwise does nothing. */
    method GenerateCsv() returns (raised: Option<AnnotatorError>)
      ensures raised.Some? <==> frames == []
      ensures raised.Some? ==> raised.value == NoFramesLoaded
    {
      if |frames| == 0 {
        return Some(NoFramesLoaded);
      }
      return None;
    }
  }
}
