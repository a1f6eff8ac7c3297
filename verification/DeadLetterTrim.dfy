/** Trimming the dead-letter directory: oldest files first, until both limits hold, never today's. */
module DeadLetterTrim {

  /** A dead-letter file; names sort by day, so a day number stands for the name. */
  datatype DeadFile = DeadFile(day: nat, size: nat)

  /** Limits at or below zero are no limits. */
  datatype Limits = Limits(maxFiles: int, maxBytes: int)

  function Sum(files: seq<DeadFile>): nat {
    if files == [] then 0 else files[0].size + Sum(files[1..])
  }

  predicate Fits(files: seq<DeadFile>, limits: Limits) {
    && (limits.maxFiles <= 0 || |files| <= limits.maxFiles)
    && (limits.maxBytes <= 0 || Sum(files) <= limits.maxBytes)
  }

  ghost predicate Sorted(files: seq<DeadFile>) {
    forall i, j :: 0 <= i < j < |files| ==> files[i].day < files[j].day
  }

  function Without(files: seq<DeadFile>, day: nat): seq<DeadFile> {
    if files == [] then []
    else if files[0].day == day then Without(files[1..], day)
    else [files[0]] + Without(files[1..], day)
  }

  lemma {:induction false} WithoutKeeps(files: seq<DeadFile>, day: nat)
    ensures forall f :: f in Without(files, day) <==> f in files && f.day != day
    ensures Sorted(files) ==> Sorted(Without(files, day))
  {
    if files != [] {
      WithoutKeeps(files[1..], day);
      assert files == [files[0]] + files[1..];
      if Sorted(files) {
        var w := Without(files, day);
        forall i, j | 0 <= i < j < |w| ensures w[i].day < w[j].day {
          if files[0].day != day {
            assert w[j] in Without(files[1..], day);
            if i > 0 { assert w[i] == Without(files[1..], day)[i - 1] && w[j] == Without(files[1..], day)[j - 1]; }
          }
        }
      }
    }
  }

  lemma {:induction false} WithoutAbsent(files: seq<DeadFile>, day: nat)
    requires forall f :: f in files ==> f.day != day
    ensures Without(files, day) == files
  {
    if files != [] {
      assert files[0] in files && forall f :: f in files[1..] ==> f in files;
      WithoutAbsent(files[1..], day);
      assert files == [files[0]] + files[1..];
    }
  }

  lemma WithoutOldest(files: seq<DeadFile>)
    requires files != [] && Sorted(files)
    ensures Without(files, files[0].day) == files[1..]
  {
    WithoutAbsent(files[1..], files[0].day);
  }

  /** k is the length of the shortest oldest-first prefix whose removal makes the rest fit. */
  ghost predicate Shortest(files: seq<DeadFile>, limits: Limits, k: nat) {
    k <= |files| && Fits(files[k..], limits) && forall j :: 0 <= j < k ==> !Fits(files[j..], limits)
  }

  /** With no file left both limits hold, so there is always such a prefix, and only one. */
  lemma ShortestIsUnique(files: seq<DeadFile>, limits: Limits, k: nat, k': nat)
    requires Shortest(files, limits, k) && Shortest(files, limits, k')
    ensures k == k'
  {
    assert !(k < k') && !(k' < k);
  }

  /** The files left when `k` oldest are to go but the last one is spared. */
  function Spared(files: seq<DeadFile>, k: nat): seq<DeadFile>
    requires files != [] && k <= |files|
  {
    files[if k < |files| then k else |files| - 1..]
  }

  /** The loop state after `i` files, when nothing has failed and today's file sorts last. */
  ghost predicate Trimmed(listed: seq<DeadFile>, files: seq<DeadFile>, limits: Limits, i: nat, total: int) {
    && listed != [] && i <= |listed|
    && files == Spared(listed, i)
    && (i < |listed| ==> total == Sum(listed[i..]))
    && forall j :: 0 <= j < i ==> !Fits(listed[j..], limits)
  }

  lemma TrimOne(listed: seq<DeadFile>, files: seq<DeadFile>, limits: Limits, i: nat, total: int)
    requires Sorted(listed) && Trimmed(listed, files, limits, i, total) && i < |listed| && !Fits(listed[i..], limits)
    ensures i < |listed| - 1 ==> Trimmed(listed, Without(files, listed[i].day), limits, i + 1, total - listed[i].size)
    ensures i == |listed| - 1 ==> Trimmed(listed, files, limits, i + 1, total)
  {
    assert files[0] == listed[i] && files[1..] == listed[i + 1..];
    WithoutOldest(files);
  }

  lemma {:induction false} SumOneMore(files: seq<DeadFile>, i: nat)
    requires i < |files|
    ensures Sum(files[..i + 1]) == Sum(files[..i]) + files[i].size
  {
    if i > 0 {
      SumOneMore(files[1..], i - 1);
      assert files[..i + 1][1..] == files[1..][..i] && files[..i][1..] == files[1..][..i - 1];
    } else {
      assert files[..1][1..] == [];
    }
  }

  method TotalSize(files: seq<DeadFile>) returns (total: int)
    ensures total == Sum(files)
  {
    total := 0;
    for i := 0 to |files|
      invariant total == Sum(files[..i])
    {
      SumOneMore(files, i);
      total := total + files[i].size;
    }
    assert files[..|files|] == files;
  }

  class Directory {
    var files: seq<DeadFile>

    /** os.Remove; it may fail and leave the file. */
    method Remove(day: nat) returns (ok: bool)
      modifies this
      ensures files == if ok then Without(old(files), day) else old(files)
    {
      if * {
        files := Without(files, day);
        ok := true;
      } else {
        ok := false;
      }
    }

    /** Nothing but listed files goes, never today's; and when today's file sorts last and every
        removal succeeds, what goes is exactly the shortest oldest-first prefix that makes the rest
        fit, or all but today's file when no such prefix spares it. */
    method Trim(today: nat, limits: Limits) returns (failures: nat)
      requires Sorted(files)
      modifies this
      ensures KeepsToday(old(files), files, today)
      ensures failures == 0 && TodayLast(old(files), today)
        ==> exists k :: Shortest(old(files), limits, k) && files == Spared(old(files), k)
    {
      failures := 0;
      if limits.maxFiles <= 0 && limits.maxBytes <= 0 {
        assert Shortest(files, limits, 0);
        assert files != [] ==> files == Spared(files, 0);
        return;
      }
      if |files| > 0 {
        var total := TotalSize(files);
        failures := RemoveOldest(total, today, limits);
      }
    }

    method RemoveOldest(size: int, today: nat, limits: Limits) returns (failures: nat)
      requires Sorted(files) && files != [] && size == Sum(files)
      modifies this
      ensures KeepsToday(old(files), files, today)
      ensures failures == 0 && TodayLast(old(files), today)
        ==> exists k :: Shortest(old(files), limits, k) && files == Spared(old(files), k)
    {
      hide Without, Sum, Sorted;
      var listed, total := files, size;
      var n := |listed|;
      failures := 0;
      StartTrim(listed, limits);
      var i := 0;
      while i < n
        invariant i <= n
        invariant KeepsToday(listed, files, today)
        invariant TodayLast(listed, today) && failures == 0 ==> Trimmed(listed, files, limits, i, total)
      {
        if (limits.maxFiles <= 0 || n - i <= limits.maxFiles) && (limits.maxBytes <= 0 || total <= limits.maxBytes) {
          break;
        }
        var f := listed[i];
        if TodayLast(listed, today) && failures == 0 {
          TrimOne(listed, files, limits, i, total);
          OnlyLastIsToday(listed, today, i);
        }
        if f.day == today {
          i := i + 1;
          continue;
        }
        WithoutKeeps(files, f.day);
        var ok := Remove(f.day);
        i := i + 1;
        if !ok {
          failures := failures + 1;
          continue;
        }
        total := total - f.size;
      }
      if TodayLast(listed, today) && failures == 0 {
        EndTrim(listed, files, limits, i, total);
      }
    }
  }

  ghost predicate KeepsToday(before: seq<DeadFile>, after: seq<DeadFile>, today: nat) {
    && (forall f :: f in after ==> f in before)
    && (forall f :: f in before && f.day == today ==> f in after)
  }

  ghost predicate TodayLast(files: seq<DeadFile>, today: nat) {
    files != [] && files[|files| - 1].day == today
  }

  lemma OnlyLastIsToday(files: seq<DeadFile>, today: nat, i: nat)
    requires Sorted(files) && TodayLast(files, today) && i < |files|
    ensures files[i].day == today <==> i == |files| - 1
  {
  }

  lemma StartTrim(listed: seq<DeadFile>, limits: Limits)
    requires listed != []
    ensures Trimmed(listed, listed, limits, 0, Sum(listed))
  {
    assert listed[0..] == listed;
  }

  lemma EndTrim(listed: seq<DeadFile>, files: seq<DeadFile>, limits: Limits, i: nat, total: int)
    requires Trimmed(listed, files, limits, i, total)
    requires i < |listed| ==> Fits(listed[i..], limits)
    ensures Shortest(listed, limits, i)
  {
    assert listed[|listed|..] == [];
  }
}
