/**
 Selecting columns of a one-row frame by label, as `frame[labels]` does: each
 label is resolved to a column through the frame's label index, and the row
 is rebuilt in the order of the labels. Absent labels are an error that names
 them all.
 */
module Frames {
  import opened Wrappers

  /** The error raised when selected labels are absent, naming them. */
  datatype SchemaError = MissingColumns(names: seq<string>)

  /** Whether `name` resolves, through `columnOf`, to a column that `frame` holds. */
  predicate HasLabel<K>(frame: map<K, real>, columnOf: string -> Option<K>, name: string)
  {
    columnOf(name).Some? && columnOf(name).value in frame
  }

  /** The labels of `labels` that select no column of `frame`, in order. */
  function MissingLabels<K>(frame: map<K, real>, columnOf: string -> Option<K>, labels: seq<string>): (missing: seq<string>)
    ensures forall n :: n in missing <==> n in labels && !HasLabel(frame, columnOf, n)
  {
    if labels == [] then []
    else
      assert forall n :: n in labels <==> n == labels[0] || n in labels[1..];
      (if HasLabel(frame, columnOf, labels[0]) then [] else [labels[0]])
        + MissingLabels(frame, columnOf, labels[1..])
  }

  /** The values `labels` select from `frame`, in the order of `labels`. */
  function Take<K>(frame: map<K, real>, columnOf: string -> Option<K>, labels: seq<string>): (row: seq<real>)
    requires forall i :: 0 <= i < |labels| ==> columnOf(labels[i]).Some? && columnOf(labels[i]).value in frame
    ensures |row| == |labels|
    ensures forall i :: 0 <= i < |labels| ==> row[i] == frame[columnOf(labels[i]).value]
  {
    if labels == [] then []
    else [frame[columnOf(labels[0]).value]] + Take(frame, columnOf, labels[1..])
  }

  /**
   `frame[labels]`: the row reordered into the order of `labels`, or, when some
   label selects no column, an error listing every such label.
   */
  function Select<K>(frame: map<K, real>, columnOf: string -> Option<K>, labels: seq<string>): (r: Result<seq<real>, SchemaError>)
    ensures r.Ok? <==> forall i :: 0 <= i < |labels| ==> columnOf(labels[i]).Some? && columnOf(labels[i]).value in frame
    ensures r.Ok? ==> |r.value| == |labels|
    ensures r.Ok? ==> forall i :: 0 <= i < |labels| ==> r.value[i] == frame[columnOf(labels[i]).value]
    ensures r.Err? ==> r.error.names != []
    ensures r.Err? ==> forall n :: n in r.error.names <==> n in labels && !HasLabel(frame, columnOf, n)
  {
    var missing := MissingLabels(frame, columnOf, labels);
    if missing == [] then
      assert forall i :: 0 <= i < |labels| ==> labels[i] in labels && HasLabel(frame, columnOf, labels[i]);
      Ok(Take(frame, columnOf, labels))
    else
      assert missing[0] in labels && !HasLabel(frame, columnOf, missing[0]);
      Err(MissingColumns(missing))
  }
}
