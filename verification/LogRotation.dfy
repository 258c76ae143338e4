/** `log_writer` and `rotate_log`: one instance's size-capped log over a numbered file store. */
module LogRotation {
  import opened Prelude

  type Line = seq<bv8>
  type File = seq<Line>

  /** Bytes a file takes, one newline per line. */
  function Bytes(f: File): nat {
    if f == [] then 0 else Bytes(f[..|f| - 1]) + |f[|f| - 1]| + 1
  }

  // ----- specification: greedy segments of the stream -----

  predicate Overflows(max: nat, current: File, line: Line) {
    max > 0 && Bytes(current) + |line| + 1 > max
  }

  /** Appends a line to the last segment, or starts a new segment when it does not fit. */
  function AddLine(max: nat, segs: seq<File>, line: Line): (r: seq<File>)
    requires segs != []
    ensures r != []
  {
    var last := |segs| - 1;
    if Overflows(max, segs[last], line) then segs + [[line]] else segs[last := segs[last] + [line]]
  }

  function AddLines(max: nat, segs: seq<File>, lines: seq<Line>): (r: seq<File>)
    requires segs != []
    ensures r != []
  {
    if lines == [] then segs else AddLine(max, AddLines(max, segs, lines[..|lines| - 1]), lines[|lines| - 1])
  }

  type Store = map<nat, File>

  function At(files: Store, i: nat): Option<File> {
    if i in files then Some(files[i]) else None
  }

  /** The `i`-th youngest of the last `keep` segments. */
  function KeptAt(segs: seq<File>, keep: nat, i: nat): Option<File> {
    if i < keep && i < |segs| then Some(segs[|segs| - 1 - i]) else None
  }

  /** File 0 is the current log and file i the i-th backup: the last `keep` segments, no other file. */
  ghost predicate Keeps(files: Store, segs: seq<File>, keep: nat) {
    forall i: nat {:trigger At(files, i)} :: At(files, i) == KeptAt(segs, keep, i)
  }

  /** The store after one rotation: every file one place up, the oldest gone, no current file. */
  function RotatedAt(files: Store, keep: nat, i: nat): Option<File> {
    if i == 0 then None else if i < keep then At(files, i - 1) else At(files, i)
  }

  // ----- the store -----

  class LogFiles {
    var files: Store

    constructor (existing: Store)
      ensures files == existing
    {
      files := existing;
    }

    method Rename(src: nat, dst: nat) returns (ok: bool)
      requires src != dst
      modifies this
      ensures ok == (src in old(files))
      ensures forall i: nat {:trigger At(files, i)} ::
                At(files, i) == if !ok then At(old(files), i)
                                else if i == dst then At(old(files), src)
                                else if i == src then None else At(old(files), i)
    {
      ok := src in files;
      if ok {
        files := (files - {src})[dst := files[src]];
      }
    }

    /** Fails only when there is no current file to move away. */
    method RotateLog(keep: nat) returns (ok: bool)
      requires keep > 0
      modifies this
      ensures ok == (keep == 1 || 0 in old(files))
      ensures ok ==> forall i: nat {:trigger At(files, i)} :: At(files, i) == RotatedAt(old(files), keep, i)
    {
      if keep <= 1 {
        files := files - {0};
        return true;
      }
      files := files - {keep - 1};
      var i := keep - 2;
      while i > 0
        invariant 0 <= i <= keep - 2
        invariant forall j: nat {:trigger At(files, j)} ::
                    At(files, j) == if j <= i then At(old(files), j)
                                    else if j == i + 1 then None else RotatedAt(old(files), keep, j)
      {
        if i in files {
          ghost var before := files;
          var _ := Rename(i, i + 1);
          assert forall j: nat {:trigger At(files, j)} ::
              At(files, j) == if j == i + 1 then At(before, i) else if j == i then None else At(before, j);
        } else {
          assert At(files, i) == None;
        }
        i := i - 1;
      }
      assert At(files, 0) == At(old(files), 0);
      ghost var before := files;
      ok := Rename(0, 1);
      assert ok ==> forall j: nat {:trigger At(files, j)} ::
          At(files, j) == if j == 1 then At(before, 0) else if j == 0 then None else At(before, j);
    }

    /**
     * Writes a stream of lines. The store holds the last `keep` segments of what was
     * written before (`segs`) and, afterwards, of that continued by `lines`.
     */
    method LogWriter(lines: seq<Line>, max: nat, keep: nat, ghost segs: seq<File>)
      requires segs != [] && (keep > 0 ==> Keeps(files, segs, keep))
      modifies this
      ensures if keep == 0 then files == old(files) else Keeps(files, AddLines(max, segs, lines), keep)
    {
      if keep == 0 {
        return;
      }
      assert At(files, 0) == Some(segs[|segs| - 1]);
      var size := Bytes(files[0]);
      for n := 0 to |lines|
        invariant Keeps(files, AddLines(max, segs, lines[..n]), keep)
        invariant 0 in files && size == Bytes(files[0])
      {
        assert lines[..n + 1][..n] == lines[..n];
        size := WriteLine(lines[n], max, keep, size, AddLines(max, segs, lines[..n]));
      }
      assert lines[..|lines|] == lines;
    }

    method WriteLine(line: Line, max: nat, keep: nat, size: nat, ghost segs: seq<File>) returns (newSize: nat)
      requires keep > 0 && segs != [] && Keeps(files, segs, keep)
      requires 0 in files && size == Bytes(files[0])
      modifies this
      ensures Keeps(files, AddLine(max, segs, line), keep)
      ensures 0 in files && newSize == Bytes(files[0])
    {
      var lineLen := |line| + 1;
      newSize := size;
      ghost var backups := files;
      assert At(files, 0) == KeptAt(segs, keep, 0);
      if max > 0 && size + lineLen > max {
        var ok := RotateLog(keep);
        backups := files;
        RotationMakesRoom(old(files), backups, segs, keep, line);
        files, newSize := files[0 := []], 0;
      }
      ghost var was := files[0];
      files := files[0 := files[0] + [line]];
      newSize := newSize + lineLen;
      assert files[0][..|files[0]| - 1] == was;
      ghost var after := AddLine(max, segs, line);
      assert files[0] == after[|after| - 1];
      forall i: nat {:trigger At(files, i)} ensures At(files, i) == KeptAt(after, keep, i) {
        if i > 0 {
          assert At(files, i) == At(backups, i);
          assert At(backups, i) == KeptAt(after, keep, i);
        }
      }
    }
  }

  lemma RotationMakesRoom(old_: Store, new_: Store, segs: seq<File>, keep: nat, line: Line)
    requires keep > 0 && segs != [] && Keeps(old_, segs, keep)
    requires forall i: nat {:trigger At(new_, i)} :: At(new_, i) == RotatedAt(old_, keep, i)
    ensures forall i: nat {:trigger At(new_, i)} :: i > 0 ==> At(new_, i) == KeptAt(segs + [[line]], keep, i)
  {
    forall i: nat {:trigger At(new_, i)} | i > 0 ensures At(new_, i) == KeptAt(segs + [[line]], keep, i) {
      assert At(old_, i - 1) == KeptAt(segs, keep, i - 1);
      assert At(old_, i) == KeptAt(segs, keep, i);
    }
  }

  // ----- what the specification promises -----

  function Flatten(segs: seq<File>): seq<Line> {
    if segs == [] then [] else Flatten(segs[..|segs| - 1]) + segs[|segs| - 1]
  }

  lemma {:induction false} AddLinesFlatten(max: nat, segs: seq<File>, lines: seq<Line>)
    requires segs != []
    ensures Flatten(AddLines(max, segs, lines)) == Flatten(segs) + lines
  {
    if lines != [] {
      var n := |lines| - 1;
      AddLinesFlatten(max, segs, lines[..n]);
      var before := AddLines(max, segs, lines[..n]);
      var after := AddLine(max, before, lines[n]);
      var last := |before| - 1;
      if Overflows(max, before[last], lines[n]) {
        assert after[..|after| - 1] == before;
      } else {
        assert after[..last] == before[..last];
      }
      assert Flatten(after) == Flatten(before) + [lines[n]];
      assert Flatten(segs) + lines[..n] + [lines[n]] == Flatten(segs) + lines;
    }
  }

  /** The youngest `count` files, read oldest first. */
  function OldestFirst(files: Store, count: nat): seq<Line>
    requires forall i: nat :: i < count ==> At(files, i).Some?
  {
    if count == 0 then [] else At(files, count - 1).value + OldestFirst(files, count - 1)
  }

  lemma {:induction false} FlattenSplit(segs: seq<File>, k: nat)
    requires k <= |segs|
    ensures Flatten(segs) == Flatten(segs[..k]) + Flatten(segs[k..])
  {
    if k == |segs| {
      assert segs[..k] == segs;
    } else {
      var front := segs[..|segs| - 1];
      FlattenSplit(front, k);
      assert front[..k] == segs[..k];
      assert segs[k..][..|segs| - k - 1] == front[k..];
    }
  }

  lemma {:induction false} OldestFirstIsTail(files: Store, segs: seq<File>, keep: nat, count: nat)
    requires Keeps(files, segs, keep) && count <= keep && count <= |segs|
    ensures OldestFirst(files, count) == Flatten(segs[|segs| - count..])
  {
    if count > 0 {
      OldestFirstIsTail(files, segs, keep, count - 1);
      var tail := segs[|segs| - count..];
      FlattenSplit(tail, 1);
      assert tail[1..] == segs[|segs| - (count - 1)..];
      assert tail[..1] == [segs[|segs| - count]];
      assert Flatten([segs[|segs| - count]]) == segs[|segs| - count];
    }
  }

  ghost predicate IsSuffix(tail: seq<Line>, all: seq<Line>) {
    |tail| <= |all| && tail == all[|all| - |tail|..]
  }

  /** What is on disk is exactly the end of what was written: in order, with no gap. */
  lemma RetainedIsSuffix(files: Store, max: nat, segs: seq<File>, lines: seq<Line>, keep: nat)
    requires segs != [] && Keeps(files, AddLines(max, segs, lines), keep)
    ensures var count := Min(keep, |AddLines(max, segs, lines)|);
            && (forall i: nat :: i < count <==> At(files, i).Some?)
            && IsSuffix(OldestFirst(files, count), Flatten(segs) + lines)
            && (|AddLines(max, segs, lines)| <= keep ==> OldestFirst(files, count) == Flatten(segs) + lines)
  {
    var all := AddLines(max, segs, lines);
    var count := Min(keep, |all|);
    AddLinesFlatten(max, segs, lines);
    OldestFirstIsTail(files, all, keep, count);
    FlattenSplit(all, |all| - count);
    assert |all| <= keep ==> all[|all| - count..] == all;
  }

  /** A file within the cap, or one line that is longer than the cap by itself. */
  predicate WithinCap(max: nat, f: File) {
    max == 0 || Bytes(f) <= max || |f| == 1
  }

  lemma {:induction false} SegmentsWithinCap(max: nat, segs: seq<File>, lines: seq<Line>)
    requires segs != [] && forall f :: f in segs ==> WithinCap(max, f)
    ensures forall f :: f in AddLines(max, segs, lines) ==> WithinCap(max, f)
  {
    if lines != [] {
      var n := |lines| - 1;
      SegmentsWithinCap(max, segs, lines[..n]);
      var before := AddLines(max, segs, lines[..n]);
      var last := before[|before| - 1];
      assert (last + [lines[n]])[..|last|] == last;
      assert [lines[n]][..0] == [];
    }
  }

  /** A new file is started only for a line that did not fit into the one before it. */
  ghost predicate OnlyWhenFull(max: nat, segs: seq<File>, from: nat) {
    forall i :: from < i < |segs| ==> NoRoom(max, segs[i - 1], segs[i])
  }

  /** The first line of `next` and its newline would have taken the file over the cap. */
  ghost predicate NoRoom(max: nat, f: File, next: File) {
    next != [] && max > 0 && Bytes(f) + |next[0]| + 1 > max
  }

  lemma {:induction false} RotatesOnlyWhenFull(max: nat, segs: seq<File>, lines: seq<Line>)
    requires segs != []
    ensures |segs| <= |AddLines(max, segs, lines)|
    ensures OnlyWhenFull(max, AddLines(max, segs, lines), |segs| - 1)
  {
    if lines != [] {
      var n := |lines| - 1;
      RotatesOnlyWhenFull(max, segs, lines[..n]);
    }
  }

  /** A file takes the bytes of its lines, and one newline for each. */
  lemma {:induction false} BytesOfConcat(f: File, g: File)
    ensures Bytes(f + g) == Bytes(f) + Bytes(g)
  {
    if g == [] {
      assert f + g == f;
    } else {
      BytesOfConcat(f, g[..|g| - 1]);
      assert (f + g)[..|f + g| - 1] == f + g[..|g| - 1];
    }
  }

  lemma BytesOfLine(line: Line)
    ensures Bytes([line]) == |line| + 1
  {
    assert [line][..0] == [];
  }

  /** A stream that fits into the current file, or a log without a cap, starts no other file. */
  lemma {:induction false} FittingStaysInOneFile(max: nat, segs: seq<File>, lines: seq<Line>)
    requires segs != [] && (max == 0 || Bytes(segs[|segs| - 1]) + Bytes(lines) <= max)
    ensures AddLines(max, segs, lines) == segs[|segs| - 1 := segs[|segs| - 1] + lines]
  {
    var last := segs[|segs| - 1];
    if lines == [] {
      assert last + lines == last;
    } else {
      var front, line := lines[..|lines| - 1], lines[|lines| - 1];
      FittingStaysInOneFile(max, segs, front);
      FittingLine(max, segs, last, front, line);
      assert front + [line] == lines;
    }
  }

  lemma FittingLine(max: nat, segs: seq<File>, last: File, front: seq<Line>, line: Line)
    requires segs != [] && (max == 0 || Bytes(last) + Bytes(front + [line]) <= max)
    ensures AddLine(max, segs[|segs| - 1 := last + front], line) == segs[|segs| - 1 := last + (front + [line])]
  {
    BytesOfConcat(last, front);
    BytesOfConcat(front, [line]);
    BytesOfLine(line);
    assert last + front + [line] == last + (front + [line]);
  }

  /** Retention for one writer on a fresh log: how many files, how big, and holding what. */
  lemma LogRetention(files: Store, max: nat, lines: seq<Line>, keep: nat)
    requires Keeps(files, AddLines(max, [[]], lines), keep)
    ensures |files| <= keep
    ensures forall i :: i in files ==> WithinCap(max, files[i])
    ensures var count := Min(keep, |AddLines(max, [[]], lines)|);
            && (forall i: nat :: i < count <==> At(files, i).Some?)
            && IsSuffix(OldestFirst(files, count), lines)
  {
    assert Flatten([[]]) == [] by { assert Flatten([[]][..0]) == []; }
    assert Flatten([[]]) + lines == lines;
    RetainedIsSuffix(files, max, [[]], lines, keep);
    SegmentsWithinCap(max, [[]], lines);
    FilesBounded(files, AddLines(max, [[]], lines), max, keep);
  }

  lemma FilesBounded(files: Store, segs: seq<File>, max: nat, keep: nat)
    requires Keeps(files, segs, keep) && forall f :: f in segs ==> WithinCap(max, f)
    ensures |files| <= keep
    ensures forall i :: i in files ==> WithinCap(max, files[i])
  {
    forall i | i in files ensures i < keep && WithinCap(max, files[i]) {
      assert At(files, i) == KeptAt(segs, keep, i);
    }
    BoundedSet(files.Keys, keep);
    assert |files| == |files.Keys|;
  }

  lemma {:induction false} BoundedSet(s: set<nat>, n: nat)
    requires forall i :: i in s ==> i < n
    ensures |s| <= n
  {
    if n > 0 {
      BoundedSet(s - {n - 1}, n - 1);
    } else {
      assert s == {};
    }
  }
}
