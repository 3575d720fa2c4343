/** The frame annotator of video_extactor.py, the one the application
    imports: it keeps the first twenty-two frames of a video and emits one
    transformed image per frame; the detector's prediction for the frame is
    computed and only printed. */
module VideoExtactor {
  import opened Media

  /** The reading loop stops once its counter passes 21. */
  const FrameCap: nat := 22

  class FrameAnnotator {
    var frames: seq<Image>
    var annotatedFrames: seq<Image>
    var frameRate: Option<real>
    /** The detector's boxes for a frame at confidence 0.25. */
    const predict: Image -> seq<Box>
    /** The blur-then-flip transform applied to each frame. */
    const transform: Image -> Image

    constructor (predict: Image -> seq<Box>, transform: Image -> Image)
      ensures frames == [] && annotatedFrames == [] && frameRate == None
      ensures this.predict == predict && this.transform == transform
    {
      this.predict, this.transform := predict, transform;
      frames, annotatedFrames, frameRate := [], [], None;
    }

    /** Replaces the frames with the first frames the decoder yields, at most
        `FrameCap` of them, and records the container's frame rate. */
    method VideoToFrames(video: Capture)
      modifies this`frames, this`frameRate
      ensures frames == FirstFrames(video, FrameCap)
      ensures frameRate == Some(video.fps)
    {
      frames := [];
      var pos := 0;
      var more, img := Read(video, pos).0, Read(video, pos).1;
      pos := pos + 1;
      frameRate := Some(video.fps);
      var count := 0;
      while more && count <= 21
        invariant pos == count + 1 && count <= FrameCap && count <= |video.stream|
        invariant frames == video.stream[..count]
        invariant more <==> count < |video.stream|
        invariant more ==> img == Some(video.stream[count])
        invariant frameRate == Some(video.fps)
        decreases |video.stream| - count
      {
        count := count + 1;
        frames := frames + [img.value];
        more, img := Read(video, pos).0, Read(video, pos).1;
        pos := pos + 1;
      }
      assert count == |video.stream| ==> video.stream[..count] == video.stream;
    }

    /** Annotates the frames: raises when there are none, otherwise replaces
        the annotated frames with exactly one transformed image per frame, in
        frame order. */
    method AnnotateFrames() returns (raised: Option<AnnotatorError>)
      modifies this`annotatedFrames
      ensures frames == [] ==> raised == Some(NoFramesLoaded) && annotatedFrames == old(annotatedFrames)
      ensures frames != [] ==> raised == None
      ensures frames != [] ==> |annotatedFrames| == |frames|
      ensures frames != [] ==> forall i :: 0 <= i < |frames| ==> annotatedFrames[i] == transform(frames[i])
    {
      if |frames| == 0 {
        return Some(NoFramesLoaded);
      }
      annotatedFrames := [];
      var fs := frames;
      for i := 0 to |fs|
        invariant |annotatedFrames| == i
        invariant forall k :: 0 <= k < i ==> annotatedFrames[k] == transform(fs[k])
      {
        var frame := fs[i];
        var prediction := predict(frame);
        annotatedFrames := annotatedFrames + [transform(frame)];
      }
      raised := None;
    }

    /** Writes the annotated frames, in order, as an mp4v video with the
        recorded frame rate and the first frame's size. */
    method ReconstructVideo(filename: string) returns (r: Result<VideoFile, AnnotatorError>)
      ensures annotatedFrames == [] ==> r == Err(NoFramesAnnotated)
      ensures annotatedFrames != [] && frames == [] ==> r == Err(FirstFrameMissing)
      ensures annotatedFrames != [] && frames != [] ==>
                r == Ok(VideoFile(filename, Mp4v, frameRate, frames[0].width, frames[0].height, annotatedFrames))
    {
      if |annotatedFrames| == 0 {
        return Err(NoFramesAnnotated);
      }
      if |frames| == 0 {
        return Err(FirstFrameMissing);
      }
      var width, height := frames[0].width, frames[0].height;
      var written: seq<Image> := [];
      for k := 0 to |annotatedFrames|
        invariant written == annotatedFrames[..k]
      {
        written := written + [annotatedFrames[k]];
      }
      assert annotatedFrames[..|annotatedFrames|] == annotatedFrames;
      r := Ok(VideoFile(filename, Mp4v, frameRate, width, height, written));
    }

    /** Raises when no frames are loaded; otherwise does nothing. */
    method GenerateCsv() returns (raised: Option<AnnotatorError>)
      ensures raised.Some? <==> frames == []
      ensures raised.Some? ==> raised.value == NoFramesLoaded
    {
      if |frames| == 0 {
        return Some(NoFramesLoaded);
      }
      return None;
    }
  }
}
