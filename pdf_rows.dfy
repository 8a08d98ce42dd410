/** The two-column table rows of the package PDF. */
module PdfRows {

  const PLACEHOLDER: string := "—"

  /** `xs[i] ?? "—"` */
  function CellAt(xs: seq<string>, i: nat): string {
    if i < |xs| then xs[i] else PLACEHOLDER
  }

  function Max(a: nat, b: nat): nat { if a < b then b else a }

  /** `mergeRows`: pairs the two lists side by side, padding the shorter one. */
  method MergeRows(left: seq<string>, right: seq<string>) returns (rows: seq<seq<string>>)
    ensures |rows| == Max(|left|, |right|)
    ensures forall i :: 0 <= i < |rows| ==> |rows[i]| == 2
    ensures forall i :: 0 <= i < |rows| ==> rows[i][0] == (if i < |left| then left[i] else PLACEHOLDER)
    ensures forall i :: 0 <= i < |rows| ==> rows[i][1] == (if i < |right| then right[i] else PLACEHOLDER)
  {
    var max := Max(|left|, |right|);
    rows := [];
    var i := 0;
    while i < max
      invariant 0 <= i <= max
      invariant |rows| == i
      invariant forall k :: 0 <= k < i ==> rows[k] == [CellAt(left, k), CellAt(right, k)]
    {
      rows := rows + [[CellAt(left, i), CellAt(right, i)]];
      i := i + 1;
    }
  }
}
