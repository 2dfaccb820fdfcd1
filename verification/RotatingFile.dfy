/**
  The log on disk: a current file and up to five numbered ones, shifted by renames when
  the current one is full. A file is the records in it; file 0 is the current one.
 */
module RotatingFile {
  import Lines

  const KEEP_FILES := 5

  type Files = map<nat, seq<string>>

  function Bytes(records: seq<string>): nat {
    if records == [] then 0 else Bytes(records[..|records| - 1]) + |records[|records| - 1]|
  }

  /** The size of a file is that of its records, end to end. */
  lemma {:induction false} BytesAreCounted(records: seq<string>)
    ensures Bytes(records) == |Lines.Concat(records)|
  {
    if records != [] {
      BytesAreCounted(records[..|records| - 1]);
      Lines.ConcatLast(records);
    }
  }

  function Content(files: Files, k: nat): seq<string> { if k in files then files[k] else [] }

  /** Files k, k-1, ..., 1 and the current one, one after the other. */
  function From(files: Files, k: nat): seq<string> {
    if k == 0 then Content(files, 0) else Content(files, k) + From(files, k - 1)
  }

  /** Everything that is still on disk, oldest first. */
  function OnDisk(files: Files): seq<string> { From(files, KEEP_FILES) }

  lemma OnDiskInOrder(files: Files)
    ensures OnDisk(files) == Content(files, 5) + (Content(files, 4) + (Content(files, 3) + (Content(files, 2)
                             + (Content(files, 1) + Content(files, 0)))))
  {
    assert From(files, 1) == Content(files, 1) + Content(files, 0);
    assert From(files, 2) == Content(files, 2) + From(files, 1);
    assert From(files, 3) == Content(files, 3) + From(files, 2);
    assert From(files, 4) == Content(files, 4) + From(files, 3);
  }

  predicate IsSuffix(s: seq<string>, all: seq<string>) { |s| <= |all| && all[|all| - |s|..] == s }

  /** No numbered file without the one before it. */
  predicate NoGaps(files: Files) { forall k | 2 <= k <= KEEP_FILES && k in files :: k - 1 in files }

  predicate Numbered(files: Files) { forall k | k in files :: k <= KEEP_FILES }

  /** Within the limit, or one record that is longer than the limit by itself. */
  predicate FileOk(records: seq<string>, rotateAt: int) {
    "" !in records && (Bytes(records) <= rotateAt || |records| == 1)
  }

  lemma RecordsHaveBytes(records: seq<string>)
    requires "" !in records
    ensures records != [] ==> Bytes(records) > 0
  {
    if records != [] { assert records[|records| - 1] in records; }
  }

  ghost predicate FilesOk(files: Files, rotateAt: int) { forall k | k in files :: FileOk(files[k], rotateAt) }

  // -------------------------------------------------------------------- one rename

  /** os.Rename: the target is replaced; a missing source is not an error here. */
  function Renamed(files: Files, i: nat): Files {
    if i in files then (files - {i})[i + 1 := files[i]] else files
  }

  lemma {:induction false} FromUnchanged(files: Files, after: Files, k: nat)
    requires forall j: nat | j <= k :: Content(after, j) == Content(files, j)
    ensures From(after, k) == From(files, k)
  {
    if k > 0 { FromUnchanged(files, after, k - 1); }
  }

  /** Moving a file up to a free place keeps the order. */
  lemma {:induction false} RenameToFree(files: Files, i: nat, k: nat)
    requires i + 1 !in files && i + 1 <= k
    ensures From(Renamed(files, i), k) == From(files, k)
  {
    if i in files {
      if k > i + 1 {
        RenameToFree(files, i, k - 1);
        assert Content(Renamed(files, i), k) == Content(files, k);
      } else if i == 0 {
        RenameFirst(files);
      } else {
        RenameNext(files, i);
      }
    }
  }

  lemma RenameFirst(files: Files)
    requires 0 in files && 1 !in files
    ensures From(Renamed(files, 0), 1) == From(files, 1)
  {
    assert From(Renamed(files, 0), 1) == files[0] + [] && From(files, 1) == [] + files[0];
  }

  lemma RenameNext(files: Files, i: nat)
    requires 0 < i && i in files && i + 1 !in files
    ensures From(Renamed(files, i), i + 1) == From(files, i + 1)
  {
    var after := Renamed(files, i);
    FromUnchanged(files, after, i - 1);
    Shift(files[i], From(files, i - 1));
    FromTwo(after, i);
    FromTwo(files, i);
  }

  lemma FromTwo(files: Files, i: nat)
    requires 0 < i
    ensures From(files, i + 1) == Content(files, i + 1) + (Content(files, i) + From(files, i - 1))
  {
    assert From(files, i) == Content(files, i) + From(files, i - 1);
  }

  lemma Shift(a: seq<string>, b: seq<string>)
    ensures a + ([] + b) == [] + (a + b) == a + b
  {}

  /** What a rotation leaves: all but the oldest file, if there is one in its place. */
  function AfterRotation(files: Files): seq<string> {
    if KEEP_FILES - 1 in files then From(files, KEEP_FILES - 1) else OnDisk(files)
  }

  lemma RotationLosesOnlyTheOldest(files: Files, written: seq<string>)
    requires IsSuffix(OnDisk(files), written)
    ensures IsSuffix(AfterRotation(files), written)
  {
    assert OnDisk(files) == Content(files, KEEP_FILES) + From(files, KEEP_FILES - 1);
    SuffixOfSuffix(AfterRotation(files), OnDisk(files), written);
  }

  lemma SuffixOfSuffix(a: seq<string>, b: seq<string>, c: seq<string>)
    requires IsSuffix(a, b) && IsSuffix(b, c)
    ensures IsSuffix(a, c)
  {
    assert c[|c| - |b|..][|b| - |a|..] == c[|c| - |a|..];
  }

  lemma RenameToOldest(files: Files)
    ensures OnDisk(Renamed(files, KEEP_FILES - 1)) == AfterRotation(files)
  {
    var (i, after) := (KEEP_FILES - 1, Renamed(files, KEEP_FILES - 1));
    if i in files {
      FromUnchanged(files, after, i - 1);
      assert Content(after, i) == [];
      assert From(after, i) == [] + From(after, i - 1);
      assert OnDisk(after) == files[i] + From(after, i) && From(files, i) == files[i] + From(files, i - 1);
    }
  }

  /** What is on disk once the files above i have been shifted. */
  function Expected(files: Files, i: nat): seq<string> {
    if i == KEEP_FILES - 1 then OnDisk(files) else AfterRotation(files)
  }

  lemma RenameKeepsOrder(was: Files, files: Files, i: nat)
    requires i < KEEP_FILES && ShiftedFrom(was, files, i) && OnDisk(files) == Expected(was, i)
        && (i == KEEP_FILES - 1 ==> files == was)
    ensures OnDisk(Renamed(files, i)) == AfterRotation(was)
  {
    if i == KEEP_FILES - 1 { RenameToOldest(files); } else { RenameToFree(files, i, KEEP_FILES); }
  }

  /** Which files there are when those above i have been shifted. */
  predicate ShiftedFrom(was: Files, files: Files, i: nat) {
    && (forall k: nat | k <= i :: k in files <==> k in was)
    && (i < KEEP_FILES - 1 ==> i + 1 !in files)
    && (forall k: nat | i + 2 <= k <= KEEP_FILES :: k in files <==> k - 1 in was || (k == KEEP_FILES && k in was))
    && (i == KEEP_FILES - 1 ==> (KEEP_FILES in files <==> KEEP_FILES in was))
  }

  /** What file k holds when those above i have been shifted. */
  predicate HeldAt(was: Files, files: Files, i: nat, k: nat)
    requires k in files
  {
    if i < k && i < KEEP_FILES - 1 && 1 <= k && k - 1 in was then files[k] == was[k - 1]
    else k in was && files[k] == was[k]
  }

  predicate HeldFrom(was: Files, files: Files, i: nat) { forall k: nat | k in files :: HeldAt(was, files, i, k) }

  /** A rotation in full: each numbered file is the one before it, and the last gives way only
      to another. */
  predicate Rotated(was: Files, files: Files) {
    && (forall k: nat | 1 <= k <= 5 && k - 1 in was :: k in files && files[k] == was[k - 1])
    && (5 in was && 4 !in was ==> 5 in files && files[5] == was[5])
    && (forall k: nat | k in files && k != 0 :: k <= 5 && (k - 1 in was || (k == 5 && 5 in was)))
  }

  lemma HeldOne(was: Files, files: Files, i: nat)
    requires 1 <= i < KEEP_FILES && ShiftedFrom(was, files, i) && HeldFrom(was, files, i) && Numbered(files)
    ensures HeldFrom(was, Renamed(files, i), i - 1)
  {
    var after := Renamed(files, i);
    forall k: nat | k in after ensures HeldAt(was, after, i - 1, k) {
      RenamedFiles(files, i, k);
      if k == i + 1 && i in files {
        assert after[k] == files[i] && HeldAt(was, files, i, i);
      } else {
        assert after[k] == files[k] && HeldAt(was, files, i, k);
      }
    }
  }

  lemma RotatedAtLast(was: Files, files: Files)
    requires ShiftedFrom(was, files, 0) && HeldFrom(was, files, 0) && 0 in files && Numbered(files)
    ensures Rotated(was, Renamed(files, 0))
  {
    var after := Renamed(files, 0);
    assert HeldAt(was, files, 0, 0);
    forall k: nat | 1 <= k <= 5 && k - 1 in was ensures k in after && after[k] == was[k - 1] {
      if k > 1 { assert k in files && after[k] == files[k] && HeldAt(was, files, 0, k); }
    }
    if 5 in was && 4 !in was { assert 5 in files && HeldAt(was, files, 0, 5); }
  }

  lemma RenamedFiles(files: Files, i: nat, k: nat)
    ensures k in Renamed(files, i) <==> if i in files then k == i + 1 || (k in files && k != i) else k in files
  {}

  lemma ShiftOne(was: Files, files: Files, i: nat)
    requires 1 <= i < KEEP_FILES && ShiftedFrom(was, files, i)
    ensures ShiftedFrom(was, Renamed(files, i), i - 1)
  {
    var after := Renamed(files, i);
    forall k: nat | k <= i - 1 ensures k in after <==> k in was { RenamedFiles(files, i, k); }
    RenamedFiles(files, i, i);
    forall k: nat | i + 1 <= k <= KEEP_FILES
      ensures k in after <==> k - 1 in was || (k == KEEP_FILES && k in was)
    {
      if k == i + 1 { ShiftedFirst(was, files, i); } else { ShiftedOther(was, files, i, k); }
    }
  }

  lemma ShiftedFirst(was: Files, files: Files, i: nat)
    requires 1 <= i < KEEP_FILES && ShiftedFrom(was, files, i)
    ensures i + 1 in Renamed(files, i) <==> i in was || (i + 1 == KEEP_FILES && i + 1 in was)
  {
    RenamedFiles(files, i, i + 1);
    assert i in files <==> i in was;
    if i == KEEP_FILES - 1 { assert KEEP_FILES in files <==> KEEP_FILES in was; } else { assert i + 1 !in files; }
  }

  lemma ShiftedOther(was: Files, files: Files, i: nat, k: nat)
    requires 1 <= i < KEEP_FILES && ShiftedFrom(was, files, i) && i + 2 <= k <= KEEP_FILES
    ensures k in Renamed(files, i) <==> k - 1 in was || (k == KEEP_FILES && k in was)
  {
    RenamedFiles(files, i, k);
    assert k in files <==> k - 1 in was || (k == KEEP_FILES && k in was);
  }

  lemma ShiftLast(was: Files, files: Files)
    requires ShiftedFrom(was, files, 0) && 0 in files && NoGaps(was)
    ensures NoGaps(Renamed(files, 0))
  {
    var after := Renamed(files, 0);
    forall k | 2 <= k <= KEEP_FILES && k in after ensures k - 1 in after {
      assert k in files;
      if k > 2 {
        if k == KEEP_FILES && k in was { assert k - 1 in was; }
        assert k - 1 in was && k - 2 in was;
      }
    }
  }

  lemma {:induction false} NoneAbove(files: Files, i: nat, k: nat)
    requires NoGaps(files) && 1 <= i <= k <= KEEP_FILES && i !in files
    ensures k !in files
  {
    if i < k { NoneAbove(files, i, k - 1); }
  }

  /** The exception to NoGaps: a daemon killed between two renames, when those above i are
      done and file i is next. It leaves a gap unless nothing has moved yet: if and only if
      there was a file i + 1, the last to be moved out of its place. */
  lemma KilledRotationLeavesAGapIff(was: Files, files: Files, i: nat)
    requires NoGaps(was) && i < KEEP_FILES && ShiftedFrom(was, files, i) && (i == KEEP_FILES - 1 ==> files == was)
    ensures NoGaps(files) <==> i == KEEP_FILES - 1 || i + 1 !in was
  {
    if i < KEEP_FILES - 1 {
      if i + 1 in was {
        assert i + 2 in files && i + 2 - 1 !in files;
      } else {
        forall k | 2 <= k <= KEEP_FILES && k in files ensures k - 1 in files {
          if k > i { GoneAbove(was, files, i, k); }
        }
      }
    }
  }

  lemma GoneAbove(was: Files, files: Files, i: nat, k: nat)
    requires NoGaps(was) && i < KEEP_FILES - 1 && ShiftedFrom(was, files, i) && i + 1 !in was && i < k <= KEEP_FILES
    ensures k !in files
  {
    if k > i + 1 {
      NoneAbove(was, i + 1, k - 1);
      NoneAbove(was, i + 1, KEEP_FILES);
    }
  }

  // ---------------------------------------------------------------------- the file

  /** `written` is every record since the first start, whatever became of it. */
  class RotatingFile {
    const rotateAt: int
    var files: Files
    var size: nat
    var open: bool
    ghost var written: seq<string>

    /** What holds on disk at every moment, also halfway through a rotation. */
    ghost predicate OnDiskOk()
      reads this
    {
      Numbered(files) && FilesOk(files, rotateAt) && IsSuffix(OnDisk(files), written)
    }

    ghost predicate Valid()
      reads this
    {
      OnDiskOk() && (open ==> 0 in files && size == Bytes(files[0]))
    }

    constructor (rotateAt: int)
      requires 0 <= rotateAt
      ensures Valid() && open && files == map[0 := []] && written == [] && this.rotateAt == rotateAt
    {
      this.rotateAt := rotateAt;
      files, size, open, written := map[0 := []], 0, true, [];
      new;
      assert OnDisk(files) == [];
    }

    /** Opens the current file, as it is or new: after a rotation, or a restart. */
    method Open()
      requires OnDiskOk() && 0 <= rotateAt
      modifies this`files, this`size, this`open
      ensures Valid() && open && files == if 0 in old(files) then old(files) else old(files)[0 := []]
      ensures OnDisk(files) == OnDisk(old(files))
    {
      if 0 !in files {
        FromUnchanged(files, files[0 := []], KEEP_FILES);
        files := files[0 := []];
      }
      size := Size(files[0]);
      open := true;
    }

    /** Closes the current file, shifts the numbered ones and starts a new one. The daemon
        may be killed before any of the renames, of which `left` are then still to be done;
        what is on disk is in order even then, and a gap is left if and only if there was a
        file with that number that the last rename has moved. */
    method Rotate() returns (finished: bool, ghost left: nat)
      requires Valid() && open && 0 <= rotateAt
      modifies this`files, this`size, this`open
      ensures Valid() && open == finished
      ensures finished ==> files[0] == [] && Rotated(old(files), files) && (NoGaps(old(files)) ==> NoGaps(files))
      ensures finished ==> OnDisk(files) == AfterRotation(old(files))
      ensures left <= KEEP_FILES && (finished ==> left == 0)
      ensures !finished ==> OnDisk(files) == if left == KEEP_FILES then OnDisk(old(files))
          else AfterRotation(old(files))
      ensures NoGaps(old(files)) ==>
        (NoGaps(files) <==> left == 0 || left == KEEP_FILES || left !in old(files))
    {
      ghost var was := files;
      open := false;
      var i := KEEP_FILES - 1;
      while i >= 1
        invariant 0 <= i < KEEP_FILES && !open && Shifting(was, i)
      {
        var killed: bool := *;
        if killed {
          Killed(was, i);
          return false, i + 1;
        }
        Rename(i, was);
        i := i - 1;
      }
      var killed: bool := *;
      if killed {
        Killed(was, 0);
        return false, 1;
      }
      left := 0;
      finished := StartNew(was);
    }

    /** The last of the renames and the new file. */
    method StartNew(ghost was: Files) returns (finished: bool)
      requires Shifting(was, 0) && !open && 0 <= rotateAt
      modifies this`files, this`size, this`open
      ensures Valid() && open == finished && OnDisk(files) == AfterRotation(was) && (NoGaps(was) ==> NoGaps(files))
      ensures finished ==> 0 in files && files[0] == [] && Rotated(was, files)
    {
      RenameCurrent(was);
      var killed: bool := *;
      if killed { return false; }
      Open();
      finished := true;
    }

    lemma Killed(was: Files, i: nat)
      requires i < KEEP_FILES && Shifting(was, i)
      ensures NoGaps(was) ==> (NoGaps(files) <==> i == KEEP_FILES - 1 || i + 1 !in was)
    {
      if NoGaps(was) { KilledRotationLeavesAGapIff(was, files, i); }
    }

    ghost predicate Shifting(was: Files, i: nat)
      reads this
    {
      && OnDiskOk() && 0 in files && ShiftedFrom(was, files, i) && HeldFrom(was, files, i)
      && OnDisk(files) == Expected(was, i) && (i == KEEP_FILES - 1 ==> files == was)
    }

    /** One numbered file up by one. */
    method Rename(i: nat, ghost was: Files)
      requires 1 <= i < KEEP_FILES && Shifting(was, i) && IsSuffix(OnDisk(was), written)
      modifies this`files
      ensures Shifting(was, i - 1)
    {
      RenameKeepsOrder(was, files, i);
      RotationLosesOnlyTheOldest(was, written);
      ShiftOne(was, files, i);
      HeldOne(was, files, i);
      files := Renamed(files, i);
    }

    /** The current file becomes the first numbered one. */
    method RenameCurrent(ghost was: Files)
      requires Shifting(was, 0)
      modifies this`files
      ensures OnDiskOk() && 0 !in files && OnDisk(files) == AfterRotation(was) && (NoGaps(was) ==> NoGaps(files))
      ensures Rotated(was, files)
    {
      RotatedAtLast(was, files);
      RenameKeepsOrder(was, files, 0);
      if NoGaps(was) { ShiftLast(was, files); }
      files := Renamed(files, 0);
    }

    /** One record. The only way it is not written is that the daemon is killed. */
    method WriteLine(record: string) returns (alive: bool)
      requires Valid() && open && 0 <= rotateAt && record != ""
      modifies this
      ensures Valid() && open == alive
      ensures written == if alive then old(written) + [record] else old(written)
      ensures alive || 1 !in old(files) ==> (NoGaps(old(files)) ==> NoGaps(files))
      ensures alive ==>
        if old(size) == 0 || old(size) + |record| <= rotateAt then files == old(files)[0 := old(files)[0] + [record]]
        else files[0] == [record] && Rotated(old(files), files) && OnDisk(files) == AfterRotation(old(files)) + [record]
    {
      if size > 0 && size + |record| > rotateAt {
        ghost var was := files;
        var finished, left := Rotate();
        if NoGaps(was) && 1 !in was && 1 <= left { NoneAbove(was, 1, left); }
        if !finished { return false; }
      }
      RecordsHaveBytes(files[0]);
      AppendKeeps(files, written, record, rotateAt);
      files := files[0 := files[0] + [record]];
      size := size + |record|;
      written := written + [record];
      alive := true;
    }
  }

  /** Stat. */
  method Size(records: seq<string>) returns (n: nat)
    ensures n == Bytes(records)
  {
    n := 0;
    for i := 0 to |records|
      invariant n == Bytes(records[..i])
    {
      assert records[..i + 1][..i] == records[..i];
      n := n + |records[i]|;
    }
    assert records[..|records|] == records;
  }

  lemma {:induction false} AppendToCurrent(files: Files, record: string, k: nat)
    requires 0 in files
    ensures From(files[0 := files[0] + [record]], k) == From(files, k) + [record]
  {
    if k > 0 {
      AppendToCurrent(files, record, k - 1);
      assert Content(files[0 := files[0] + [record]], k) == Content(files, k);
    }
  }

  lemma AppendKeeps(files: Files, written: seq<string>, record: string, rotateAt: int)
    requires 0 in files && FilesOk(files, rotateAt) && IsSuffix(OnDisk(files), written) && record != ""
    requires Bytes(files[0]) == 0 || Bytes(files[0]) + |record| <= rotateAt
    requires Bytes(files[0]) == 0 ==> files[0] == []
    ensures var after := files[0 := files[0] + [record]];
      && FilesOk(after, rotateAt) && IsSuffix(OnDisk(after), written + [record])
      && OnDisk(after) == OnDisk(files) + [record] && Bytes(after[0]) == Bytes(files[0]) + |record|
  {
    AppendToCurrent(files, record, KEEP_FILES);
    assert (files[0] + [record])[..|files[0]|] == files[0];
    assert FileOk(files[0], rotateAt) && "" !in files[0] + [record];
    SuffixGrows(OnDisk(files), written, record);
  }

  lemma SuffixGrows(s: seq<string>, all: seq<string>, record: string)
    requires IsSuffix(s, all)
    ensures IsSuffix(s + [record], all + [record])
  {
    assert (all + [record])[|all| - |s|..] == all[|all| - |s|..] + [record];
  }
}
