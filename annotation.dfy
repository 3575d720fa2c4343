/** The bookkeeping of one annotation run of the application
    (application.py, annotate_frames_gui), stated on values: what the three
    parallel stores hold after a run, given the stores before it, the frames
    and the selected model's single-frame annotation. */
module Annotation {
  import opened Media

  /** What annotating one frame returns: the frame with its overlay drawn, and
      its predicted boxes (rows of four coordinates). */
  datatype Detection = Detection(annotated: Image, boxes: seq<Box>)

  type Detector = Image -> Detection

  /** The three stores of the application: `annotated_frames`,
      `prediction_boxes` and `pred_lengths`. */
  datatype Session = Session(annotated: seq<Image>, boxes: seq<Box>, predLengths: seq<nat>)

  /** The stores of a freshly constructed application. */
  const Fresh: Session := Session([], [], [])

  /** The relation the stores are meant to keep: one count per annotated frame,
      and as many box rows as the counts add up to. */
  predicate Consistent(s: Session)
  {
    |s.annotated| == |s.predLengths| && Sum(s.predLengths) == |s.boxes|
  }

  /** The annotated images, one per frame, in frame order. */
  function AnnotatedOf(detect: Detector, frames: seq<Image>): (r: seq<Image>)
    ensures |r| == |frames|
  {
    if frames == [] then []
    else AnnotatedOf(detect, frames[..|frames| - 1]) + [detect(frames[|frames| - 1]).annotated]
  }

  /** The box rows of a run are exactly as many as its frames' counts add up to. */
  lemma {:induction false} BoxesCounted(detect: Detector, frames: seq<Image>)
    ensures |BoxesOf(detect, frames)| == Sum(CountsOf(detect, frames))
  {
    if frames != [] {
      var init := frames[..|frames| - 1];
      BoxesCounted(detect, init);
      assert CountsOf(detect, frames)[..|frames| - 1] == CountsOf(detect, init);
    }
  }

  /** Annotated image `i` is frame `i` annotated. */
  lemma {:induction false} AnnotatedOfAt(detect: Detector, frames: seq<Image>, i: nat)
    requires i < |frames|
    ensures AnnotatedOf(detect, frames)[i] == detect(frames[i]).annotated
    decreases |frames|
  {
    if i < |frames| - 1 {
      AnnotatedOfAt(detect, frames[..|frames| - 1], i);
    }
  }

  /** Every frame's boxes, concatenated in frame order: no frames yield no
      boxes, and a single frame yields just its own boxes. */
  function BoxesOf(detect: Detector, frames: seq<Image>): (r: seq<Box>)
    ensures frames == [] ==> r == []
    ensures |frames| == 1 ==> r == detect(frames[0]).boxes
  {
    if frames == [] then []
    else BoxesOf(detect, frames[..|frames| - 1]) + detect(frames[|frames| - 1]).boxes
  }

  /** The number of boxes of each frame, in frame order. */
  function CountsOf(detect: Detector, frames: seq<Image>): (r: seq<nat>)
    ensures |r| == |frames|
  {
    if frames == [] then []
    else CountsOf(detect, frames[..|frames| - 1]) + [|detect(frames[|frames| - 1]).boxes|]
  }

  /** Count `i` is the number of boxes predicted for frame `i`. */
  lemma {:induction false} CountsOfAt(detect: Detector, frames: seq<Image>, i: nat)
    requires i < |frames|
    ensures CountsOf(detect, frames)[i] == |detect(frames[i]).boxes|
    decreases |frames|
  {
    if i < |frames| - 1 {
      CountsOfAt(detect, frames[..|frames| - 1], i);
    }
  }

  /** Annotating one more frame extends each store by that frame's share. */
  lemma AnnotateOneMore(detect: Detector, frames: seq<Image>, i: nat)
    requires i < |frames|
    ensures AnnotatedOf(detect, frames[..i + 1]) == AnnotatedOf(detect, frames[..i]) + [detect(frames[i]).annotated]
    ensures BoxesOf(detect, frames[..i + 1]) == BoxesOf(detect, frames[..i]) + detect(frames[i]).boxes
    ensures CountsOf(detect, frames[..i + 1]) == CountsOf(detect, frames[..i]) + [|detect(frames[i]).boxes|]
  {
    assert frames[..i + 1][..i] == frames[..i];
  }

  /** One run as the application performs it: `annotated_frames` and
      `prediction_boxes` are emptied first, `pred_lengths` is not. */
  function Run(s: Session, detect: Detector, frames: seq<Image>): (r: Session)
    ensures |r.annotated| == |frames|
    ensures |r.predLengths| == |s.predLengths| + |frames|
  {
    Session(AnnotatedOf(detect, frames), BoxesOf(detect, frames), s.predLengths + CountsOf(detect, frames))
  }

  /** After an as-written run the old counts are still in front, followed by
      one count per frame of the run. */
  lemma RunKeepsCounts(s: Session, detect: Detector, frames: seq<Image>)
    ensures Run(s, detect, frames).predLengths[..|s.predLengths|] == s.predLengths
    ensures Run(s, detect, frames).predLengths[|s.predLengths|..] == CountsOf(detect, frames)
  {
  }

  /** One run that also empties `pred_lengths` first, as the stores' relation
      requires. */
  function RunReset(s: Session, detect: Detector, frames: seq<Image>): (r: Session)
    ensures Consistent(r)
    ensures |r.annotated| == |frames|
    ensures r.predLengths == CountsOf(detect, frames)
  {
    BoxesCounted(detect, frames);
    Session(AnnotatedOf(detect, frames), BoxesOf(detect, frames), CountsOf(detect, frames))
  }

  /** Frame `i`'s boxes sit in the concatenation right after the boxes of the
      frames before it. */
  lemma {:induction false} BoxesOfFrame(detect: Detector, frames: seq<Image>, i: nat)
    requires i < |frames|
    ensures Sum(CountsOf(detect, frames)[..i]) + |detect(frames[i]).boxes| <= |BoxesOf(detect, frames)|
    ensures BoxesOf(detect, frames)[Sum(CountsOf(detect, frames)[..i])..Sum(CountsOf(detect, frames)[..i]) + |detect(frames[i]).boxes|]
            == detect(frames[i]).boxes
    decreases |frames|
  {
    var n := |frames|;
    var init := frames[..n - 1];
    var counts := CountsOf(detect, frames);
    assert counts[..n - 1] == CountsOf(detect, init);
    assert BoxesOf(detect, frames) == BoxesOf(detect, init) + detect(frames[n - 1]).boxes;
    BoxesCounted(detect, init);
    if i == n - 1 {
      assert counts[..i] == CountsOf(detect, init);
    } else {
      assert counts[..i] == CountsOf(detect, init)[..i];
      assert init[i] == frames[i];
      BoxesOfFrame(detect, init, i);
    }
  }

  /** After an as-written run the counts hold the old counts too, so they add
      up to the old total plus the new box rows. */
  lemma RunTotals(s: Session, detect: Detector, frames: seq<Image>)
    ensures Sum(Run(s, detect, frames).predLengths) == Sum(s.predLengths) + |Run(s, detect, frames).boxes|
  {
    SumAppend(s.predLengths, CountsOf(detect, frames));
    BoxesCounted(detect, frames);
  }

  /** An as-written run leaves the stores consistent exactly when no run came
      before it, i.e. only on a fresh application. */
  lemma RunConsistentIff(s: Session, detect: Detector, frames: seq<Image>)
    ensures Consistent(Run(s, detect, frames)) <==> s.predLengths == []
  {
    RunTotals(s, detect, frames);
  }

  /** Two as-written runs over the same non-empty video leave one count per
      frame of both runs but the annotated frames of the second only. */
  lemma SecondRunInconsistent(detect: Detector, frames: seq<Image>)
    requires frames != []
    ensures Consistent(Run(Fresh, detect, frames))
    ensures !Consistent(Run(Run(Fresh, detect, frames), detect, frames))
  {
    RunConsistentIff(Fresh, detect, frames);
    RunConsistentIff(Run(Fresh, detect, frames), detect, frames);
  }
}
