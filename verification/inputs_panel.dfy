/** The state updates of components/InputsPanel.js: editing the list of
    via-point texts and reading the buffer-width field. */
module InputsPanel {
  import opened Wrappers

  /** `parseInt`, abstracted: None stands for NaN. */
  type IntParser = string -> Option<int>

  /** The width used when the field does not hold a non-zero integer. */
  const DefaultBufferWidth: int := 1000

  /** `handleAddViaPoint`: `[...viaPoints, '']`. */
  function AddViaPoint(viaPoints: seq<string>): (r: seq<string>)
    ensures |r| == |viaPoints| + 1
    ensures r[..|viaPoints|] == viaPoints
    ensures r[|viaPoints|] == ""
  {
    viaPoints + [""]
  }

  /** `handleRemoveViaPoint`: `viaPoints.filter((_, i) => i !== index)`. At a
      valid index exactly that entry goes and the others keep their order;
      at any other index the list is unchanged. */
  function RemoveViaPoint(viaPoints: seq<string>, index: int): (r: seq<string>)
    ensures 0 <= index < |viaPoints| ==> r == viaPoints[..index] + viaPoints[index + 1..]
    ensures 0 <= index < |viaPoints| ==> |r| == |viaPoints| - 1
    ensures !(0 <= index < |viaPoints|) ==> r == viaPoints
    decreases |viaPoints|
  {
    if |viaPoints| == 0 then []
    else
      var last := |viaPoints| - 1;
      RemoveViaPoint(viaPoints[..last], index) + (if last != index then [viaPoints[last]] else [])
  }

  /** `handleViaPointChange(value, index)`: a copy with entry `index` set. The
      only caller passes the index of a rendered entry. */
  function ChangeViaPoint(viaPoints: seq<string>, value: string, index: nat): (r: seq<string>)
    requires index < |viaPoints|
    ensures |r| == |viaPoints|
    ensures r[index] == value
    ensures forall i :: 0 <= i < |viaPoints| && i != index ==> r[i] == viaPoints[i]
  {
    viaPoints[index := value]
  }

  /** Typing the same text into the same entry twice is the same as once. */
  lemma ChangeViaPointIdempotent(viaPoints: seq<string>, value: string, index: nat)
    requires index < |viaPoints|
    ensures ChangeViaPoint(ChangeViaPoint(viaPoints, value, index), value, index)
            == ChangeViaPoint(viaPoints, value, index)
  {
  }

  /** Removing an entry after editing it is the same as removing it unedited. */
  lemma RemoveAfterChange(viaPoints: seq<string>, value: string, index: nat)
    requires index < |viaPoints|
    ensures RemoveViaPoint(ChangeViaPoint(viaPoints, value, index), index)
            == RemoveViaPoint(viaPoints, index)
  {
  }

  /** Adding an entry and removing it again restores the list. */
  lemma AddThenRemoveRestores(viaPoints: seq<string>)
    ensures RemoveViaPoint(AddViaPoint(viaPoints), |viaPoints|) == viaPoints
  {
  }

  /** `parseInt(value) || 1000`: the parsed integer unless it is NaN or 0,
      then 1000; the stored width is never 0, and negative numbers pass. */
  function BufferWidth(input: string, parseInt: IntParser): (width: int)
    ensures width != 0
    ensures parseInt(input).Some? && parseInt(input).value != 0 ==> width == parseInt(input).value
    ensures parseInt(input).None? || parseInt(input).value == 0 ==> width == DefaultBufferWidth
  {
    match parseInt(input)
    case Some(n) => if n != 0 then n else DefaultBufferWidth
    case None => DefaultBufferWidth
  }
}
