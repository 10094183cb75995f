/** The drag-and-drop example: a drop zone that is highlighted while files are
    dragged over it and that lists the names of the files dropped on it. */
module DropZone {
  import opened Wrappers

  /** A dropped file; the update only reads its name. */
  datatype File = File(name: string)

  /** A browser `FileList`: the entry at each index in `0..length()`, as `item(index)`
      reports it, `None` when the list has no file there. */
  type FileList = seq<Option<File>>

  datatype Msg = DragEnter | DragOver | DragLeave | Drop(files: FileList)

  /** The label the drop zone shows before anything is dropped. */
  const Placeholder: string := "Drop files here"

  /** The value of the model: whether the zone is highlighted, and the labels it shows. */
  datatype State = State(active: bool, content: seq<string>)

  /** The names of the files present in `files`, in index order (the `filter_map`/`map` pass). */
  function PresentNames(files: FileList): seq<string>
  {
    if files == [] then []
    else
      (match files[0] case Some(file) => [file.name] case None => []) + PresentNames(files[1..])
  }

  /** One call of `update` on the value of the model. */
  function Step(s: State, msg: Msg): State
  {
    match msg
    case DragEnter => s.(active := true)
    case DragOver => s
    case DragLeave => s.(active := false)
    case Drop(files) => State(false, PresentNames(files))
  }

  /** The state after `update` has consumed every message of `msgs`, in order. */
  function Run(s: State, msgs: seq<Msg>): State
    decreases |msgs|
  {
    if msgs == [] then s else Step(Run(s, msgs[..|msgs| - 1]), msgs[|msgs| - 1])
  }

  /** Rebuilds the content from a dropped file list: walks the indices `0..length()`,
      keeps the entries that are present and makes one label per file name. */
  method CollectNames(files: FileList) returns (labels: seq<string>)
    ensures labels == PresentNames(files)
  {
    labels := [];
    var index := 0;
    while index < |files|
      invariant 0 <= index <= |files|
      invariant labels == PresentNames(files[..index])
    {
      PresentNamesConcat(files[..index], [files[index]]);
      assert files[..index + 1] == files[..index] + [files[index]];
      match files[index] {
        case Some(file) => labels := labels + [file.name];
        case None =>
      }
      index := index + 1;
    }
    assert files[..index] == files;
  }

  class Model {
    var dropZoneActive: bool
    var dropZoneContent: seq<string>

    /** The value the model currently holds. */
    function Snapshot(): State
      reads this
    {
      State(dropZoneActive, dropZoneContent)
    }

    /** `after_mount`: the zone starts inactive and shows only the placeholder. */
    constructor AfterMount()
      ensures !dropZoneActive && dropZoneContent == [Placeholder]
    {
      dropZoneActive := false;
      dropZoneContent := [Placeholder];
    }

    /** `update`: assigns the two fields in place according to the message. */
    method Update(msg: Msg)
      modifies this
      ensures Snapshot() == Step(old(Snapshot()), msg)
      ensures msg.DragEnter? ==> dropZoneActive && dropZoneContent == old(dropZoneContent)
      ensures msg.DragOver? ==> dropZoneActive == old(dropZoneActive) && dropZoneContent == old(dropZoneContent)
      ensures msg.DragLeave? ==> !dropZoneActive && dropZoneContent == old(dropZoneContent)
      ensures msg.Drop? ==> !dropZoneActive && dropZoneContent == PresentNames(msg.files)
    {
      match msg {
        case DragEnter =>
          dropZoneActive := true;
        case DragOver =>
        case DragLeave =>
          dropZoneActive := false;
        case Drop(files) =>
          dropZoneActive := false;
          dropZoneContent := CollectNames(files);
      }
    }
  }

  // ---------- the rebuilt content ----------

  /** Rebuilding distributes over concatenation: the labels of a list are the labels of
      its first part followed by those of the rest, so the order of the files is kept. */
  lemma {:induction false} PresentNamesConcat(a: FileList, b: FileList)
    ensures PresentNames(a + b) == PresentNames(a) + PresentNames(b)
  {
    if a == [] {
      assert a + b == b;
    } else {
      assert (a + b)[1..] == a[1..] + b;
      PresentNamesConcat(a[1..], b);
    }
  }

  /** One label per present entry: absent entries are skipped and nothing else is lost. */
  lemma {:induction false} PresentNamesLength(files: FileList)
    ensures |PresentNames(files)| == |files| - multiset(files)[None]
  {
    if files != [] {
      PresentNamesLength(files[1..]);
      assert files == [files[0]] + files[1..];
    }
  }

  /** A name is shown exactly when some entry of the list is a file with that name. */
  lemma {:induction false} PresentNamesMembership(files: FileList, name: string)
    ensures name in PresentNames(files) <==> exists i :: 0 <= i < |files| && files[i] == Some(File(name))
  {
    if files != [] {
      PresentNamesMembership(files[1..], name);
      if name in PresentNames(files[1..]) {
        var i :| 0 <= i < |files[1..]| && files[1..][i] == Some(File(name));
        assert files[i + 1] == Some(File(name));
      }
      if exists i :: 0 <= i < |files| && files[i] == Some(File(name)) {
        var i :| 0 <= i < |files| && files[i] == Some(File(name));
        if i > 0 {
          assert files[1..][i - 1] == Some(File(name));
        }
      }
    }
  }

  /** When every entry is present, the k-th label is the name of the k-th file. */
  lemma {:induction false} PresentNamesAllPresent(files: FileList)
    requires forall i :: 0 <= i < |files| ==> files[i].Some?
    ensures |PresentNames(files)| == |files|
    ensures forall k :: 0 <= k < |files| ==> PresentNames(files)[k] == files[k].value.name
  {
    if files != [] {
      PresentNamesAllPresent(files[1..]);
    }
  }

  // ---------- message sequences ----------

  /** Any number of `DragOver` messages leaves the whole state as it was. */
  lemma {:induction false} RunDragOverIdle(s: State, msgs: seq<Msg>)
    requires forall j :: 0 <= j < |msgs| ==> msgs[j].DragOver?
    ensures Run(s, msgs) == s
  {
    if msgs != [] {
      RunDragOverIdle(s, msgs[..|msgs| - 1]);
    }
  }

  /** `msgs[i]` is a `DragEnter` and every later message is a `DragOver`: it is the last
      message of `msgs` that affects the highlight. */
  ghost predicate LastAffectingIsEnter(msgs: seq<Msg>, i: int)
  {
    0 <= i < |msgs| && msgs[i].DragEnter? && forall j :: i < j < |msgs| ==> msgs[j].DragOver?
  }

  /** The zone is active exactly when the last `DragEnter`, `DragLeave` or `Drop` was a
      `DragEnter`; when there is none it keeps its starting value. */
  lemma {:induction false} RunActive(s: State, msgs: seq<Msg>)
    ensures Run(s, msgs).active <==>
      (exists i :: LastAffectingIsEnter(msgs, i))
      || (s.active && forall j :: 0 <= j < |msgs| ==> msgs[j].DragOver?)
  {
    if msgs != [] {
      var n := |msgs| - 1;
      var prefix := msgs[..n];
      RunActive(s, prefix);
      if msgs[n].DragOver? {
        if exists i :: LastAffectingIsEnter(prefix, i) {
          var i :| LastAffectingIsEnter(prefix, i);
          assert LastAffectingIsEnter(msgs, i);
        }
        if exists i :: LastAffectingIsEnter(msgs, i) {
          var i :| LastAffectingIsEnter(msgs, i);
          assert LastAffectingIsEnter(prefix, i);
        }
      } else if msgs[n].DragEnter? {
        assert LastAffectingIsEnter(msgs, n);
      }
    }
  }

  /** After a `Drop`, the content is the labels of that drop's files until the next `Drop`,
      whatever the content was before: a drop replaces the list and never appends. */
  lemma {:induction false} RunContentLastDrop(s: State, msgs: seq<Msg>, i: nat)
    requires i < |msgs| && msgs[i].Drop?
    requires forall j :: i < j < |msgs| ==> !msgs[j].Drop?
    ensures Run(s, msgs).content == PresentNames(msgs[i].files)
  {
    if i < |msgs| - 1 {
      RunContentLastDrop(s, msgs[..|msgs| - 1], i);
    }
  }

  /** Without a `Drop`, the content is the starting content. */
  lemma {:induction false} RunContentNoDrop(s: State, msgs: seq<Msg>)
    requires forall j :: 0 <= j < |msgs| ==> !msgs[j].Drop?
    ensures Run(s, msgs).content == s.content
  {
    if msgs != [] {
      RunContentNoDrop(s, msgs[..|msgs| - 1]);
    }
  }

  /** The result of a `Drop` does not depend on the state it is applied to. */
  lemma DropForgetsPrevious(s: State, t: State, files: FileList)
    ensures Step(s, Drop(files)) == Step(t, Drop(files))
    ensures !Step(s, Drop(files)).active
  {
  }
}
