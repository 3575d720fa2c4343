/** The sheet the application exports (application.py, save_xlsx): one row per
    predicted box, a label column naming the box's frame, and the box
    coordinates permuted by two column swaps. */
module Report {
  import opened Media
  import opened Annotation

  /** A sheet cell. `FrameLabel(i)` stands for the text
      "Frame: i, Timestamp: mm:ss.sss" of frame `i`. */
  datatype Cell = FrameLabel(frame: nat) | Coord(value: real)

  type Row = seq<Cell>

  /** Why no sheet is built: the timestamp of a label divides by a frame rate
      that was never recorded, or that is zero; or the label column and the
      box rows differ in length. */
  datatype SheetError =
    | NoFrameRate
    | ZeroFrameRate
    | ShapeMismatch(labelRows: nat, boxRows: nat)

  /** The timestamps can be computed: there are no counts to label, or the
      frame rate is recorded and not zero. */
  predicate RateUsable(predLengths: seq<nat>, rate: Option<real>)
  {
    predLengths == [] || (rate.Some? && rate.value != 0.0)
  }

  /** A written sheet: where it goes, its header row and its data rows. */
  datatype Sheet = Sheet(path: string, header: seq<string>, rows: seq<Row>)

  const Header: seq<string> :=
    ["Current Frame", "X Bound, Left", "X Bound, Right", "Y Bound, Upper", "Y Bound, Lower"]

  /** Frame `i`'s label written `n` times. */
  function Repeat(i: nat, n: nat): (r: seq<nat>)
    ensures |r| == n
    ensures forall k :: 0 <= k < n ==> r[k] == i
  {
    seq(n, _ => i)
  }

  /** The label column, as frame indices: frame `i` repeated `counts[i]`
      times, in ascending `i`. */
  function FrameColumn(counts: seq<nat>): (r: seq<nat>)
    ensures |r| == Sum(counts)
  {
    if counts == [] then []
    else FrameColumn(counts[..|counts| - 1]) + Repeat(|counts| - 1, counts[|counts| - 1])
  }

  /** Row `k` of the label column names the frame whose block of rows
      contains `k`. */
  lemma {:induction false} FrameColumnAt(counts: seq<nat>, k: nat)
    requires k < Sum(counts)
    ensures FrameColumn(counts)[k] < |counts|
    ensures Sum(counts[..FrameColumn(counts)[k]]) <= k
            < Sum(counts[..FrameColumn(counts)[k]]) + counts[FrameColumn(counts)[k]]
    decreases |counts|
  {
    var n := |counts|;
    var init := counts[..n - 1];
    if k < Sum(init) {
      FrameColumnAt(init, k);
      var i := FrameColumn(init)[k];
      assert FrameColumn(counts)[k] == i;
      assert counts[..i] == init[..i];
    } else {
      assert FrameColumn(counts)[k] == n - 1;
      assert counts[..n - 1] == init;
    }
  }

  /** Frame `i`'s block of the label column is its label, `counts[i]` times. */
  lemma {:induction false} FrameColumnBlock(counts: seq<nat>, i: nat)
    requires i < |counts|
    ensures Sum(counts[..i]) + counts[i] <= Sum(counts)
    ensures FrameColumn(counts)[Sum(counts[..i])..Sum(counts[..i]) + counts[i]] == Repeat(i, counts[i])
    decreases |counts|
  {
    var n := |counts|;
    var init := counts[..n - 1];
    if i == n - 1 {
      assert counts[..i] == init;
    } else {
      FrameColumnBlock(init, i);
      assert counts[..i] == init[..i];
      assert init[i] == counts[i];
      SumPrefix(init, i + 1);
      assert init[..i + 1][..i] == init[..i];
    }
  }

  /** Labels never go down the column. */
  lemma FrameColumnAscending(counts: seq<nat>, j: nat, k: nat)
    requires j <= k < Sum(counts)
    ensures FrameColumn(counts)[j] <= FrameColumn(counts)[k]
  {
    FrameColumnAt(counts, j);
    FrameColumnAt(counts, k);
  }

  /** A box row before the swaps: five cells, one per header column, the frame's
      label first, then the box in its native x1, y1, x2, y2 order. */
  function BoxRow(frame: nat, b: Box): (r: Row)
    ensures |r| == 5 && r[0] == FrameLabel(frame)
    ensures r[1] == Coord(b.x1) && r[2] == Coord(b.y1) && r[3] == Coord(b.x2) && r[4] == Coord(b.y2)
  {
    [FrameLabel(frame), Coord(b.x1), Coord(b.y1), Coord(b.x2), Coord(b.y2)]
  }

  /** The column `c` reads from after swapping columns `i` and `j`. */
  function Swapped(c: nat, i: nat, j: nat): nat
  {
    if c == i then j else if c == j then i else c
  }

  function SwapCells(r: Row, i: nat, j: nat): (t: Row)
    requires i < |r| && j < |r|
    ensures |t| == |r|
    ensures forall c :: 0 <= c < |r| ==> t[c] == r[Swapped(c, i, j)]
  {
    r[i := r[j]][j := r[i]]
  }

  /** The two swaps of the exporter: columns 2 and 3, then 3 and 4. */
  function ReorderColumns(r: Row): (t: Row)
    requires |r| == 5
    ensures t == [r[0], r[1], r[3], r[4], r[2]]
  {
    SwapCells(SwapCells(r, 2, 3), 3, 4)
  }

  /** What the exported columns hold: "X Bound, Left" x1, "X Bound, Right" x2,
      "Y Bound, Upper" y2 and "Y Bound, Lower" y1. */
  predicate ExportedRow(row: Row, frame: nat, b: Box)
  {
    |row| == 5 && row[0] == FrameLabel(frame) &&
    row[1] == Coord(b.x1) && row[2] == Coord(b.x2) && row[3] == Coord(b.y2) && row[4] == Coord(b.y1)
  }

  lemma ReorderedBoxRow(frame: nat, b: Box)
    ensures ExportedRow(ReorderColumns(BoxRow(frame, b)), frame, b)
  {
  }

  /** A box whose y1 lies above its y2 is exported with "Y Bound, Upper"
      greater than "Y Bound, Lower". */
  lemma YBoundsExportedSwapped(frame: nat, b: Box)
    requires b.y1 < b.y2
    ensures ReorderColumns(BoxRow(frame, b))[3].value > ReorderColumns(BoxRow(frame, b))[4].value
  {
  }

  /** The rows of the sheet built from `pred_lengths` and `prediction_boxes`;
      the label column and the box rows must have the same length, or the
      column prepend fails. */
  function SheetRows(predLengths: seq<nat>, boxes: seq<Box>): (r: Result<seq<Row>, SheetError>)
    ensures r.Err? <==> Sum(predLengths) != |boxes|
    ensures r.Err? ==> r.error == ShapeMismatch(Sum(predLengths), |boxes|)
    ensures r.Ok? ==> |r.value| == |boxes|
    ensures r.Ok? ==> forall k :: 0 <= k < |boxes| ==> ExportedRow(r.value[k], FrameColumn(predLengths)[k], boxes[k])
  {
    var labels := FrameColumn(predLengths);
    if |labels| != |boxes| then Err(ShapeMismatch(|labels|, |boxes|))
    else Ok(seq(|boxes|, k requires 0 <= k < |boxes| => ReorderColumns(BoxRow(labels[k], boxes[k]))))
  }

  /** Swaps columns `i` and `j` of every row, in place. */
  method SwapColumns(a: array2<Cell>, i: nat, j: nat)
    requires i < a.Length1 && j < a.Length1
    modifies a
    ensures forall r, c :: 0 <= r < a.Length0 && 0 <= c < a.Length1 ==> a[r, c] == old(a[r, Swapped(c, i, j)])
  {
    var r := 0;
    while r < a.Length0
      invariant 0 <= r <= a.Length0
      invariant forall q, c :: 0 <= q < r && 0 <= c < a.Length1 ==> a[q, c] == old(a[q, Swapped(c, i, j)])
      invariant forall q, c :: r <= q < a.Length0 && 0 <= c < a.Length1 ==> a[q, c] == old(a[q, c])
    {
      var t := a[r, i];
      a[r, i] := a[r, j];
      a[r, j] := t;
      r := r + 1;
    }
  }

  /** In a sheet that can be built, box `j` of frame `i`'s block is exported
      under frame `i`'s label. */
  lemma SheetRowOfFrame(counts: seq<nat>, boxes: seq<Box>, i: nat, j: nat, k: nat)
    requires Sum(counts) == |boxes|
    requires i < |counts| && j < counts[i] && k == Sum(counts[..i]) + j
    ensures SheetRows(counts, boxes).Ok?
    ensures k < |boxes|
    ensures ExportedRow(SheetRows(counts, boxes).value[k], i, boxes[k])
  {
    FrameColumnBlock(counts, i);
    var start := Sum(counts[..i]);
    assert FrameColumn(counts)[start + j] == Repeat(i, counts[i])[j];
  }

  /** The sheet after a run that also resets `pred_lengths`: it can always be
      built, and box `j` of frame `i` (its boxes are `b`), in row `k`, is
      exported under frame `i`'s label. */
  lemma ResetRunSheet(s: Session, detect: Detector, frames: seq<Image>, i: nat, b: seq<Box>, j: nat, k: nat)
    requires i < |frames| && b == detect(frames[i]).boxes && j < |b|
    requires k == Sum(CountsOf(detect, frames)[..i]) + j
    ensures SheetRows(RunReset(s, detect, frames).predLengths, RunReset(s, detect, frames).boxes).Ok?
    ensures k < |RunReset(s, detect, frames).boxes|
    ensures ExportedRow(SheetRows(RunReset(s, detect, frames).predLengths, RunReset(s, detect, frames).boxes).value[k], i, b[j])
  {
    var counts, boxes := CountsOf(detect, frames), BoxesOf(detect, frames);
    assert Sum(counts) == |boxes| && counts[i] == |b| by {
      BoxesCounted(detect, frames);
      CountsOfAt(detect, frames, i);
    }
    assert boxes[k] == b[j] by {
      BoxesOfFrame(detect, frames, i);
      assert boxes[k] == boxes[Sum(counts[..i])..Sum(counts[..i]) + |b|][j];
    }
    SheetRowOfFrame(counts, boxes, i, j, k);
    assert RunReset(s, detect, frames) == Session(AnnotatedOf(detect, frames), boxes, counts);
  }

  /** The sheet after an as-written run: building it fails exactly when an
      earlier run left counts with boxes behind. */
  lemma RunSheetFails(s: Session, detect: Detector, frames: seq<Image>)
    ensures var t := Run(s, detect, frames);
            SheetRows(t.predLengths, t.boxes).Err? <==> Sum(s.predLengths) > 0
  {
    RunTotals(s, detect, frames);
  }

  /** Counts that add up to nothing, placed before others, leave every box
      row where it was but raise its frame label by their number. */
  lemma ShiftedSheetRow(before: seq<nat>, c: seq<nat>, boxes: seq<Box>, i: nat, j: nat, k: nat)
    requires Sum(before) == 0 && Sum(c) == |boxes|
    requires i < |c| && j < c[i] && k == Sum(c[..i]) + j
    ensures SheetRows(before + c, boxes).Ok?
    ensures k < |boxes|
    ensures ExportedRow(SheetRows(before + c, boxes).value[k], |before| + i, boxes[k])
  {
    var counts := before + c;
    var n := |before| + i;
    assert Sum(counts) == |boxes| by {
      SumAppend(before, c);
    }
    assert counts[n] == c[i];
    assert Sum(counts[..n]) == Sum(c[..i]) by {
      assert counts[..n] == before + c[..i];
      SumAppend(before, c[..i]);
    }
    SheetRowOfFrame(counts, boxes, n, j, k);
  }

  /** When the earlier counts hold no boxes the sheet is built, but box `j`
      of frame `i` (its boxes are `b`), in row `k`, is labelled as frame `i`
      plus the number of earlier counts. */
  lemma RunSheetMislabels(s: Session, detect: Detector, frames: seq<Image>, i: nat, b: seq<Box>, j: nat, k: nat)
    requires Sum(s.predLengths) == 0
    requires i < |frames| && b == detect(frames[i]).boxes && j < |b|
    requires k == Sum(CountsOf(detect, frames)[..i]) + j
    ensures SheetRows(Run(s, detect, frames).predLengths, Run(s, detect, frames).boxes).Ok?
    ensures k < |Run(s, detect, frames).boxes|
    ensures ExportedRow(SheetRows(Run(s, detect, frames).predLengths, Run(s, detect, frames).boxes).value[k],
                        |s.predLengths| + i, b[j])
  {
    var c := CountsOf(detect, frames);
    var boxes := BoxesOf(detect, frames);
    assert Sum(c) == |boxes| && c[i] == |b| by {
      BoxesCounted(detect, frames);
      CountsOfAt(detect, frames, i);
    }
    assert boxes[k] == b[j] by {
      BoxesOfFrame(detect, frames, i);
      assert boxes[k] == boxes[Sum(c[..i])..Sum(c[..i]) + |b|][j];
    }
    ShiftedSheetRow(s.predLengths, c, boxes, i, j, k);
    assert Run(s, detect, frames) == Session(AnnotatedOf(detect, frames), boxes, s.predLengths + c);
  }
}
