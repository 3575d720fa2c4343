/** The event handling of the application's foreground loop
    (application.py, GUIApp.update), as a transition on the flags and the
    playback cursor it changes. */
module Events {
  import opened Media

  /** The events `update` reacts to; `Closed` is the window being closed
      (no event), `Other` any event it ignores. */
  datatype Event =
    | Closed | Exit
    | BrowseInput | BrowseOutput
    | StartAnnotating
    | Slider | NextFrame | Play
    | SaveVideo | SaveSheet
    | Other(key: string)

  /** The background jobs an event starts. */
  datatype Job = Browse | Annotate | ExportVideo | ExportSheet

  /** The state `update` reads and writes: the exit flag, which dialog a
      browse opens, the pause flag, the slider position the program last set,
      and the annotated frame last drawn on the canvas (None: the logo). */
  datatype Controls = Controls(
    breakout: bool,
    fileBrowsing: bool,
    touchingSlider: bool,
    sliderValue: nat,
    displayed: Option<nat>)

  /** One event, with the slider's value read alongside it, when `available`
      annotated frames exist. */
  function Step(c: Controls, e: Event, slider: nat, available: nat): (r: Controls)
    // a redraw only ever shows an annotated frame that exists
    ensures r.displayed != c.displayed ==> r.displayed.Some? && r.displayed.value < available
    // closing the window or pressing Exit ends the main loop; nothing clears the flag
    ensures r.breakout <==> c.breakout || e.Closed? || e.Exit?
    // only the two browse buttons choose the dialog
    ensures r.fileBrowsing == if e.BrowseInput? then true else if e.BrowseOutput? then false else c.fileBrowsing
    // only Play and the slider change the pause flag; the slider always pauses
    ensures e.Slider? ==> r.touchingSlider
    ensures e.Play? ==> r.touchingSlider == !c.touchingSlider
    ensures !e.Slider? && !e.Play? ==> r.touchingSlider == c.touchingSlider
    // only Next Frame moves the slider, and it always does
    ensures r.sliderValue == if e.NextFrame? then slider + 1 else c.sliderValue
  {
    match e
    case Closed => c.(breakout := true)
    case Exit => c.(breakout := true)
    case BrowseInput => c.(fileBrowsing := true)
    case BrowseOutput => c.(fileBrowsing := false)
    case Slider =>
      c.(touchingSlider := true,
         displayed := if slider < available then Some(slider) else c.displayed)
    case NextFrame =>
      c.(sliderValue := slider + 1,
         displayed := if slider + 1 < available then Some(slider + 1) else c.displayed)
    case Play => c.(touchingSlider := !c.touchingSlider)
    case _ => c
  }

  /** The job an event starts. Each event builds fresh thread objects, so the
      "not alive" test before starting always passes. */
  function Launch(e: Event): (j: Option<Job>)
    ensures j.Some? <==> e.BrowseInput? || e.BrowseOutput? || e.StartAnnotating? || e.SaveVideo? || e.SaveSheet?
    ensures j == Some(Browse) <==> e.BrowseInput? || e.BrowseOutput?
  {
    match e
    case BrowseInput => Some(Browse)
    case BrowseOutput => Some(Browse)
    case StartAnnotating => Some(Annotate)
    case SaveVideo => Some(ExportVideo)
    case SaveSheet => Some(ExportSheet)
    case _ => None
  }

  /** Pressing Play twice leaves everything as it was. */
  lemma PlayTwice(c: Controls, slider: nat, available: nat)
    ensures Step(Step(c, Play, slider, available), Play, slider, available) == c
  {
  }

  /** Dragging the slider redraws exactly when the index is below the number
      of annotated frames. */
  lemma SliderRedraw(c: Controls, slider: nat, available: nat)
    ensures Step(c, Slider, slider, available).displayed ==
            if slider < available then Some(slider) else c.displayed
  {
  }

  /** Next Frame moves the slider one past its value even when no frame there
      can be drawn, leaving the canvas as it was. */
  lemma NextFramePastEnd(c: Controls, slider: nat, available: nat)
    requires available <= slider + 1
    ensures Step(c, NextFrame, slider, available) == c.(sliderValue := slider + 1)
  {
  }

  /** Next Frame within the annotated frames moves the slider one on and draws
      that frame; nothing else changes. */
  lemma NextFrameRedraw(c: Controls, slider: nat, available: nat)
    requires slider + 1 < available
    ensures Step(c, NextFrame, slider, available) == c.(sliderValue := slider + 1, displayed := Some(slider + 1))
  {
  }
}
