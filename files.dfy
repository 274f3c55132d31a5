/** The attached-file list shared by the mint form hook and the mint page:
    new files are appended up to a total of five, and a file is removed by
    position. */
module Files {
  import JsString

  /** A selected `File`: only its name and size are read. */
  datatype FileInfo = FileInfo(name: string, size: nat)

  const MaxFiles: nat := 5

  /** `[...prev, ...files.slice(0, 5 - prev.length)]`. When `prev` already
      holds more than five files the end index is negative and counts from
      the end of `files`. */
  function AppendCapped(prev: seq<FileInfo>, files: seq<FileInfo>): (r: seq<FileInfo>)
    ensures |r| >= |prev| && r[..|prev|] == prev
    ensures r[|prev|..] <= files
    ensures |prev| <= MaxFiles ==> |r| == if |prev| + |files| <= MaxFiles then |prev| + |files| else MaxFiles
    ensures |prev| > MaxFiles ==>
      |r| == |prev| + (if |files| + MaxFiles >= |prev| then |files| + MaxFiles - |prev| else 0)
  {
    var kept := JsString.SliceTo(files, MaxFiles - |prev|);
    assert (prev + kept)[|prev|..] == kept;
    prev + kept
  }

  /** A list of at most five files stays within five. */
  lemma AppendCappedBound(prev: seq<FileInfo>, files: seq<FileInfo>)
    requires |prev| <= MaxFiles
    ensures |AppendCapped(prev, files)| <= MaxFiles
  {
  }

  /** Appending nothing, or appending to a full list, changes nothing. */
  lemma AppendCappedFull(prev: seq<FileInfo>, files: seq<FileInfo>)
    requires files == [] || |prev| == MaxFiles
    ensures AppendCapped(prev, files) == prev
  {
    assert AppendCapped(prev, files)[..|prev|] == prev;
  }

  /** `prev.filter((_, i) => i !== index)`, with `offset` the position of
      `prev[0]` in the original list. */
  function DropIndex(prev: seq<FileInfo>, index: int, offset: nat): (r: seq<FileInfo>)
    ensures if offset <= index < offset + |prev| then |r| == |prev| - 1 else r == prev
    ensures offset <= index < offset + |prev| ==>
      (forall i :: 0 <= i < index - offset ==> r[i] == prev[i]) &&
      (forall i :: index - offset <= i < |r| ==> r[i] == prev[i + 1])
    decreases |prev|
  {
    if prev == [] then []
    else
      var rest := DropIndex(prev[1..], index, offset + 1);
      if index == offset then
        assert rest == prev[1..];
        rest
      else
        [prev[0]] + rest
  }

  /** `handleRemoveFile(index)`: removes exactly position `index`. */
  function RemoveAt(prev: seq<FileInfo>, index: int): (r: seq<FileInfo>)
  {
    DropIndex(prev, index, 0)
  }

  /** Removing an index in range leaves the files before and after it, in
      order; any other index changes nothing. */
  lemma RemoveAtSpec(prev: seq<FileInfo>, index: int)
    ensures 0 <= index < |prev| ==> RemoveAt(prev, index) == prev[..index] + prev[index + 1..]
    ensures !(0 <= index < |prev|) ==> RemoveAt(prev, index) == prev
  {
    if 0 <= index < |prev| {
      var r := RemoveAt(prev, index);
      assert forall i :: 0 <= i < |r| ==> r[i] == (prev[..index] + prev[index + 1..])[i];
    }
  }

  /** Removing never lengthens the list, so it keeps the bound of five. */
  lemma RemoveAtBound(prev: seq<FileInfo>, index: int)
    ensures |RemoveAt(prev, index)| <= |prev|
  {
  }
}
