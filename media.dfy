/** Values shared by the annotator and the application: images, boxes, the
    decoded video stream, and small sequence helpers. */
module Media {

  datatype Option<+T> = None | Some(value: T)

  datatype Result<+T, +E> = Ok(value: T) | Err(error: E)

  /** One predicted box in the detector's native layout: corners (x1, y1) and
      (x2, y2) in source-frame pixel coordinates. */
  datatype Box = Box(x1: real, y1: real, x2: real, y2: real)

  /** A raster image. `outlines` lists the rectangles drawn onto it, in the
      order they were drawn; a decoded frame has none of its own. */
  datatype Image = Image(width: nat, height: nat, pixels: seq<int>, outlines: seq<Box>)

  /** Draws one red rectangle outline onto a copy of `img`: the copy has the
      same size and pixels, and `b` as its last outline. */
  function DrawRectangle(img: Image, b: Box): (r: Image)
    ensures r.width == img.width && r.height == img.height && r.pixels == img.pixels
    ensures r.outlines == img.outlines + [b]
  {
    img.(outlines := img.outlines + [b])
  }

  /** An opened video: the frames its decoder yields, in order, and the frame
      rate the container reports. A path that cannot be opened behaves as a
      capture with no frames. */
  datatype Capture = Capture(stream: seq<Image>, fps: real)

  /** The decoder's `read()` after `pos` earlier reads: whether a frame was
      decoded, and that frame. */
  function Read(video: Capture, pos: nat): (r: (bool, Option<Image>))
    ensures r.0 <==> pos < |video.stream|
    ensures r.0 ==> r.1 == Some(video.stream[pos])
    ensures !r.0 ==> r.1 == None
  {
    if pos < |video.stream| then (true, Some(video.stream[pos])) else (false, None)
  }

  /** The first `cap` frames of the stream (all of them when it is shorter). */
  function FirstFrames(video: Capture, cap: nat): (r: seq<Image>)
    ensures |r| <= cap && |r| <= |video.stream|
    ensures r <= video.stream
    ensures |r| == cap || r == video.stream
  {
    if |video.stream| <= cap then video.stream else video.stream[..cap]
  }

  /** What `FrameAnnotator` raises: annotating or exporting with no frames
      loaded, reconstructing with none annotated, and the index error of
      reading the first frame's size when the frames were emptied again. */
  datatype AnnotatorError = NoFramesLoaded | NoFramesAnnotated | FirstFrameMissing

  /** The four-character code of the video writer. */
  const Mp4v: string := "mp4v"

  /** A video as the writer produces it: the path, the codec, the frame rate
      it was given, the frame size (width, height) and the frames written, in
      order. */
  datatype VideoFile = VideoFile(path: string, fourcc: string, fps: Option<real>, width: nat, height: nat, frames: seq<Image>)

  function Sum(s: seq<nat>): nat
  {
    if s == [] then 0 else Sum(s[..|s| - 1]) + s[|s| - 1]
  }

  lemma {:induction false} SumAppend(a: seq<nat>, b: seq<nat>)
    ensures Sum(a + b) == Sum(a) + Sum(b)
    decreases |b|
  {
    if b == [] {
      assert a + b == a;
    } else {
      var b' := b[..|b| - 1];
      assert (a + b)[..|a + b| - 1] == a + b';
      SumAppend(a, b');
    }
  }

  /** A prefix never sums to more than the whole. */
  lemma {:induction false} SumPrefix(s: seq<nat>, i: nat)
    requires i <= |s|
    ensures Sum(s[..i]) <= Sum(s)
    ensures i < |s| ==> Sum(s[..i + 1]) == Sum(s[..i]) + s[i]
  {
    assert s == s[..i] + s[i..];
    SumAppend(s[..i], s[i..]);
    if i < |s| {
      assert s[..i + 1][..i] == s[..i];
    }
  }
}
