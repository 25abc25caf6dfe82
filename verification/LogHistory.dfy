/** Whole histories of a log writer: writes and closes in any order, over any directory to start with. */
module LogHistory {
  import opened LogWriter

  datatype Call = Write(p: Bytes, accepted: nat, renames: bool) | Close

  /** The operating system accepts no more than it is given. */
  predicate Possible(calls: seq<Call>)
  {
    forall i :: 0 <= i < |calls| && calls[i].Write? ==> calls[i].accepted <= |calls[i].p|
  }

  function Step(log: Log, maxBytes: int, maxFiles: int, call: Call): Log
    requires call.Write? ==> call.accepted <= |call.p|
  {
    match call
    case Write(p, accepted, renames) => Wrote(log, maxBytes, maxFiles, p, accepted, renames)
    case Close => log.(open := false)
  }

  /** The calls one after the other, on a writer opened over the files. */
  function Run(files: Files, maxBytes: int, maxFiles: int, calls: seq<Call>): Log
    requires Possible(calls)
  {
    if calls == [] then Opened(files)
    else Step(Run(files, maxBytes, maxFiles, calls[..|calls| - 1]), maxBytes, maxFiles, calls[|calls| - 1])
  }

  function Accepted(log: Log, call: Call): Bytes
    requires call.Write? ==> call.accepted <= |call.p|
  {
    if call.Write? && log.open then call.p[..call.accepted] else []
  }

  /** What each call got into the log. */
  function Pieces(files: Files, maxBytes: int, maxFiles: int, calls: seq<Call>): (r: seq<Bytes>)
    requires Possible(calls)
    ensures |r| == |calls|
  {
    if calls == [] then []
    else
      var past, call := calls[..|calls| - 1], calls[|calls| - 1];
      Pieces(files, maxBytes, maxFiles, past) + [Accepted(Run(files, maxBytes, maxFiles, past), call)]
  }

  function Concat(pieces: seq<Bytes>): Bytes
  {
    if pieces == [] then [] else Concat(pieces[..|pieces| - 1]) + pieces[|pieces| - 1]
  }

  /** All the bytes the calls got into the log. */
  function Written(files: Files, maxBytes: int, maxFiles: int, calls: seq<Call>): Bytes
    requires Possible(calls)
  {
    Concat(Pieces(files, maxBytes, maxFiles, calls))
  }

  lemma {:induction false} RunSized(files: Files, maxBytes: int, maxFiles: int, calls: seq<Call>)
    requires Possible(calls)
    ensures Sized(Run(files, maxBytes, maxFiles, calls))
  {
    if calls != [] {
      var past, call := calls[..|calls| - 1], calls[|calls| - 1];
      RunSized(files, maxBytes, maxFiles, past);
      var log := Run(files, maxBytes, maxFiles, past);
      if call.Write? && log.open {
        WriteExtendsStream(log, maxBytes, maxFiles, call.p, call.accepted, call.renames);
      }
    }
  }

  lemma DropThenAppend(s: Bytes, k: nat, p: Bytes, whole: Bytes)
    requires k <= |s| && IsSuffix(s, whole)
    ensures IsSuffix(s[k..] + p, whole + p)
  {
    var d := |whole| - |s|;
    assert (whole + p)[d + k..] == whole[d..][k..] + p;
  }

  lemma StepKeepsSuffix(log: Log, maxBytes: int, maxFiles: int, call: Call, whole: Bytes)
    requires Sized(log) && (call.Write? ==> call.accepted <= |call.p|)
             && IsSuffix(Stream(log.files, Slots(maxFiles)), whole)
    ensures IsSuffix(Stream(Step(log, maxBytes, maxFiles, call).files, Slots(maxFiles)), whole + Accepted(log, call))
  {
    if call.Write? && log.open {
      var gone := if Overflows(log, maxBytes, call.p) then Forgotten(log.files, maxFiles, call.renames) else 0;
      WriteExtendsStream(log, maxBytes, maxFiles, call.p, call.accepted, call.renames);
      DropThenAppend(Stream(log.files, Slots(maxFiles)), gone, call.p[..call.accepted], whole);
    } else {
      assert whole + [] == whole;
    }
  }

  /** What backups and file hold, in order, is always the end of what was there at first followed by
      everything written since. */
  lemma {:induction false} LogIsSuffix(files: Files, maxBytes: int, maxFiles: int, calls: seq<Call>)
    requires Possible(calls)
    ensures IsSuffix(Stream(Run(files, maxBytes, maxFiles, calls).files, Slots(maxFiles)),
                     Stream(Opened(files).files, Slots(maxFiles)) + Written(files, maxBytes, maxFiles, calls))
  {
    hide IsSuffix, Stream, Step, Wrote;
    var first := Stream(Opened(files).files, Slots(maxFiles));
    if calls == [] {
      WholeIsSuffix(first);
      assert first + [] == first;
    } else {
      var past, call := calls[..|calls| - 1], calls[|calls| - 1];
      LogIsSuffix(files, maxBytes, maxFiles, past);
      RunSized(files, maxBytes, maxFiles, past);
      var log, written := Run(files, maxBytes, maxFiles, past), Written(files, maxBytes, maxFiles, past);
      StepKeepsSuffix(log, maxBytes, maxFiles, call, first + written);
      assert Pieces(files, maxBytes, maxFiles, calls)[..|calls| - 1] == Pieces(files, maxBytes, maxFiles, past);
      assert first + (written + Accepted(log, call)) == (first + written) + Accepted(log, call);
    }
  }

  lemma WholeIsSuffix(s: Bytes)
    ensures IsSuffix(s, s)
  {
    assert s[0..] == s;
  }

  // ----- no write is split -----

  /** The pieces from the i-th on, whole; only the first of all can come after what a file held at the start. */
  ghost predicate EndsFrom(content: Bytes, starts: Files, pieces: seq<Bytes>, start: Bytes, i: nat)
  {
    && i <= |pieces| && (start == [] || (i == 0 && start in starts.Values))
    && content == start + Concat(pieces[i..])
  }

  /** Consecutive pieces, whole, from some piece on to the last one. */
  ghost predicate Ends(content: Bytes, starts: Files, pieces: seq<Bytes>)
  {
    exists start: Bytes, i: nat :: EndsFrom(content, starts, pieces, start, i)
  }

  /** As Ends was after some number of the pieces. */
  ghost predicate Spans(content: Bytes, starts: Files, pieces: seq<Bytes>)
  {
    exists j :: 0 <= j <= |pieces| && Ends(content, starts, pieces[..j])
  }

  ghost predicate AllWhole(files: Files, starts: Files, pieces: seq<Bytes>)
  {
    forall name :: name in files ==> Spans(files[name], starts, pieces)
  }

  /** Every file holds whole pieces, and those of the log file go on to the last one. */
  ghost predicate WholeFiles(files: Files, starts: Files, pieces: seq<Bytes>)
  {
    AllWhole(files, starts, pieces) && Current in files && Ends(files[Current], starts, pieces)
  }

  lemma EndsIsSpan(content: Bytes, starts: Files, pieces: seq<Bytes>)
    requires Ends(content, starts, pieces)
    ensures Spans(content, starts, pieces)
  {
    assert pieces[..|pieces|] == pieces;
  }

  lemma SpansSnoc(content: Bytes, starts: Files, pieces: seq<Bytes>, p: Bytes)
    requires Spans(content, starts, pieces)
    ensures Spans(content, starts, pieces + [p])
  {
    var j :| 0 <= j <= |pieces| && Ends(content, starts, pieces[..j]);
    assert (pieces + [p])[..j] == pieces[..j];
  }

  lemma ConcatSnoc(pieces: seq<Bytes>, p: Bytes)
    ensures Concat(pieces + [p]) == Concat(pieces) + p
  {
    assert (pieces + [p])[..|pieces|] == pieces;
  }

  lemma EndsFromSnoc(content: Bytes, starts: Files, pieces: seq<Bytes>, p: Bytes, start: Bytes, i: nat)
    requires EndsFrom(content, starts, pieces, start, i)
    ensures EndsFrom(content + p, starts, pieces + [p], start, i)
  {
    hide Concat;
    ConcatSnoc(pieces[i..], p);
    assert (pieces + [p])[i..] == pieces[i..] + [p];
    assert (start + Concat(pieces[i..])) + p == start + (Concat(pieces[i..]) + p);
  }

  lemma EndsSnoc(content: Bytes, starts: Files, pieces: seq<Bytes>, p: Bytes)
    requires Ends(content, starts, pieces)
    ensures Ends(content + p, starts, pieces + [p])
  {
    hide EndsFrom;
    var start, i :| EndsFrom(content, starts, pieces, start, i);
    EndsFromSnoc(content, starts, pieces, p, start, i);
  }

  lemma EmptyEnds(starts: Files, pieces: seq<Bytes>)
    ensures Ends([], starts, pieces)
  {
    assert EndsFrom([], starts, pieces, [], |pieces|);
  }

  lemma {:induction false} ShiftKeepsWhole(files: Files, i: int, starts: Files, pieces: seq<Bytes>)
    requires AllWhole(files, starts, pieces)
    ensures AllWhole(ShiftFrom(files, i), starts, pieces)
    decreases if i < 1 then 0 else i
  {
    hide Spans;
    if i >= 1 {
      ShiftKeepsWhole(Rename(files, Backup(i), Backup(i + 1)), i - 1, starts, pieces);
    }
  }

  lemma RotationKeepsWhole(files: Files, maxFiles: int, renames: bool, starts: Files, pieces: seq<Bytes>)
    requires WholeFiles(files, starts, pieces)
    ensures WholeFiles(Rotated(files, maxFiles, renames).files, starts, pieces)
  {
    hide Spans, Ends;
    ShiftKeepsWhole(Remove(files, Backup(maxFiles)), maxFiles - 1, starts, pieces);
    EmptyEnds(starts, pieces);
    EndsIsSpan([], starts, pieces);
    RotationMovesFiles(files, maxFiles, renames);
  }

  lemma AppendKeepsWhole(log: Log, p: Bytes, starts: Files, pieces: seq<Bytes>)
    requires WholeFiles(log.files, starts, pieces)
    ensures WholeFiles(Appended(log, p).files, starts, pieces + [p])
  {
    hide Spans, Ends;
    var files := Appended(log, p).files;
    EndsSnoc(log.files[Current], starts, pieces, p);
    EndsIsSpan(files[Current], starts, pieces + [p]);
    forall name | name in files && name != Current
      ensures Spans(files[name], starts, pieces + [p])
    {
      SpansSnoc(log.files[name], starts, pieces, p);
    }
  }

  lemma NothingAppended(log: Log)
    requires Current in log.files
    ensures Appended(log, []).files == log.files
  {
    assert log.files[Current] + [] == log.files[Current];
  }

  lemma StepKeepsWhole(log: Log, maxBytes: int, maxFiles: int, call: Call, starts: Files, pieces: seq<Bytes>)
    requires call.Write? ==> call.accepted <= |call.p|
    requires WholeFiles(log.files, starts, pieces)
    ensures WholeFiles(Step(log, maxBytes, maxFiles, call).files, starts, pieces + [Accepted(log, call)])
  {
    hide AllWhole, Ends, Rotated, Appended;
    if !call.Write? || !log.open {
      NothingAppended(log);
      AppendKeepsWhole(log, [], starts, pieces);
    } else if Overflows(log, maxBytes, call.p) {
      RotationKeepsWhole(log.files, maxFiles, call.renames, starts, pieces);
      AppendKeepsWhole(Rotated(log.files, maxFiles, call.renames), call.p[..call.accepted], starts, pieces);
    } else {
      AppendKeepsWhole(log, call.p[..call.accepted], starts, pieces);
    }
  }

  /** No write is split across files and none is mixed with another: whatever was written, rotated or refused,
      each file holds what some file held at first or nothing, followed by consecutive writes, each whole as the
      operating system accepted it.  In the log file these go on to the last write. */
  lemma {:induction false} WritesStayWhole(files: Files, maxBytes: int, maxFiles: int, calls: seq<Call>)
    requires Possible(calls)
    ensures WholeFiles(Run(files, maxBytes, maxFiles, calls).files, files, Pieces(files, maxBytes, maxFiles, calls))
  {
    hide Spans, Ends, Step;
    if calls == [] {
      OpenedWhole(files);
    } else {
      var past, call := calls[..|calls| - 1], calls[|calls| - 1];
      WritesStayWhole(files, maxBytes, maxFiles, past);
      StepKeepsWhole(Run(files, maxBytes, maxFiles, past), maxBytes, maxFiles, call, files,
                     Pieces(files, maxBytes, maxFiles, past));
    }
  }

  lemma OpenedWhole(files: Files)
    ensures WholeFiles(Opened(files).files, files, [])
  {
    var now := Opened(files).files;
    EmptyEnds(files, []);
    forall name | name in now
      ensures Ends(now[name], files, [])
    {
      if name in files {
        assert EndsFrom(now[name], files, [], files[name], 0);
      }
    }
    forall name | name in now
      ensures Spans(now[name], files, [])
    {
      EndsIsSpan(now[name], files, []);
    }
  }

  // ----- rotating only when it has to -----

  /** All of call i fits into the log file as that stands. */
  predicate FitsAt(files: Files, maxBytes: int, maxFiles: int, calls: seq<Call>, i: nat)
    requires Possible(calls) && i < |calls|
  {
    var log := Run(files, maxBytes, maxFiles, calls[..i]);
    calls[i].Write? && log.open && maxBytes > 0 ==> |Get(log.files, Current)| + |calls[i].p| <= maxBytes
  }

  /** Whenever a call writes, all of it fits into the log file as that stands. */
  ghost predicate AlwaysFits(files: Files, maxBytes: int, maxFiles: int, calls: seq<Call>)
    requires Possible(calls)
  {
    forall i :: 0 <= i < |calls| ==> FitsAt(files, maxBytes, maxFiles, calls, i)
  }

  lemma FitsSnoc(files: Files, maxBytes: int, maxFiles: int, calls: seq<Call>)
    requires Possible(calls) && calls != [] && AlwaysFits(files, maxBytes, maxFiles, calls)
    ensures AlwaysFits(files, maxBytes, maxFiles, calls[..|calls| - 1])
  {
    var past := calls[..|calls| - 1];
    forall i | 0 <= i < |past|
      ensures FitsAt(files, maxBytes, maxFiles, past, i)
    {
      assert calls[..i] == past[..i] && FitsAt(files, maxBytes, maxFiles, calls, i);
    }
  }

  lemma FitsNow(files: Files, maxBytes: int, maxFiles: int, calls: seq<Call>)
    requires Possible(calls) && calls != [] && AlwaysFits(files, maxBytes, maxFiles, calls)
    ensures var past, call := calls[..|calls| - 1], calls[|calls| - 1];
            call.Write? ==> !Overflows(Run(files, maxBytes, maxFiles, past), maxBytes, call.p)
  {
    RunSized(files, maxBytes, maxFiles, calls[..|calls| - 1]);
    assert FitsAt(files, maxBytes, maxFiles, calls, |calls| - 1);
  }

  /** As long as every write fits, no file but the log file changes, and that holds all of what was written. */
  lemma {:induction false} KeepsWhatFits(files: Files, maxBytes: int, maxFiles: int, calls: seq<Call>)
    requires Possible(calls) && AlwaysFits(files, maxBytes, maxFiles, calls)
    ensures var first := Opened(files).files;
            Run(files, maxBytes, maxFiles, calls).files ==
            Put(first, Current, Get(first, Current) + Written(files, maxBytes, maxFiles, calls))
  {
    hide Step, Put, Get, Concat, Accepted, Opened;
    var first := Opened(files).files;
    if calls == [] {
      NothingWritten(files);
      assert Get(first, Current) + [] == Get(first, Current);
    } else {
      var past, call := calls[..|calls| - 1], calls[|calls| - 1];
      FitsSnoc(files, maxBytes, maxFiles, calls);
      KeepsWhatFits(files, maxBytes, maxFiles, past);
      FitsNow(files, maxBytes, maxFiles, calls);
      var log := Run(files, maxBytes, maxFiles, past);
      ConcatSnoc(Pieces(files, maxBytes, maxFiles, past), Accepted(log, call));
      StepAppends(log, maxBytes, maxFiles, call, first, Written(files, maxBytes, maxFiles, past));
    }
  }

  lemma NothingWritten(files: Files)
    ensures var first := Opened(files).files; Put(first, Current, Get(first, Current) + []) == first
    ensures Concat([]) == []
  {
    var first := Opened(files).files;
    assert Get(first, Current) + [] == Get(first, Current);
  }

  lemma StepAppends(log: Log, maxBytes: int, maxFiles: int, call: Call, first: Files, written: Bytes)
    requires call.Write? ==> call.accepted <= |call.p| && !Overflows(log, maxBytes, call.p)
    requires log.files == Put(first, Current, Get(first, Current) + written)
    ensures Step(log, maxBytes, maxFiles, call).files ==
            Put(first, Current, Get(first, Current) + (written + Accepted(log, call)))
  {
    AppendTwice(Get(first, Current), written, Accepted(log, call));
    assert log.files[Current] + [] == log.files[Current];
  }

  lemma AppendTwice(a: Bytes, b: Bytes, c: Bytes)
    ensures a + (b + c) == (a + b) + c
  {
  }

  /** A backup is a file there was at first, or so full that with the longest write it exceeds the limit. */
  ghost predicate BackupsFull(now: Files, starts: Files, maxBytes: int, longest: nat)
  {
    forall name :: name in now && name != Current ==>
      now[name] in starts.Values || (maxBytes > 0 && |now[name]| + longest > maxBytes)
  }

  lemma {:induction false} ShiftKeepsFull(files: Files, i: int, starts: Files, maxBytes: int, longest: nat)
    requires BackupsFull(files, starts, maxBytes, longest)
    ensures BackupsFull(ShiftFrom(files, i), starts, maxBytes, longest)
    decreases if i < 1 then 0 else i
  {
    if i >= 1 {
      ShiftKeepsFull(Rename(files, Backup(i), Backup(i + 1)), i - 1, starts, maxBytes, longest);
    }
  }

  lemma WriteKeepsFull(log: Log, maxBytes: int, maxFiles: int, call: Call, starts: Files, longest: nat)
    requires Sized(log) && log.open && call.Write? && call.accepted <= |call.p| <= longest
    requires BackupsFull(log.files, starts, maxBytes, longest)
    ensures BackupsFull(Step(log, maxBytes, maxFiles, call).files, starts, maxBytes, longest)
  {
    if Overflows(log, maxBytes, call.p) {
      assert BackupsFull(Remove(log.files, Backup(maxFiles)), starts, maxBytes, longest);
      ShiftKeepsFull(Remove(log.files, Backup(maxFiles)), maxFiles - 1, starts, maxBytes, longest);
      ShiftMoves(log.files, maxFiles);
      assert BackupsFull(Shifted(log.files, maxFiles), starts, maxBytes, longest);
    }
  }

  /** No rotation comes before its time: after any calls each backup is a file there was at first, or holds more
      than maxBytes less the longest write. */
  lemma {:induction false} RotatesOnlyWhenFull(files: Files, maxBytes: int, maxFiles: int, calls: seq<Call>)
    requires Possible(calls)
    ensures BackupsFull(Run(files, maxBytes, maxFiles, calls).files, files, maxBytes, Longest(calls))
  {
    if calls != [] {
      var past, call := calls[..|calls| - 1], calls[|calls| - 1];
      RotatesOnlyWhenFull(files, maxBytes, maxFiles, past);
      RunSized(files, maxBytes, maxFiles, past);
      assert Longest(calls) >= Longest(past) && (call.Write? ==> |call.p| <= Longest(calls));
      var log := Run(files, maxBytes, maxFiles, past);
      assert BackupsFull(log.files, files, maxBytes, Longest(calls));
      if call.Write? && log.open {
        WriteKeepsFull(log, maxBytes, maxFiles, call, files, Longest(calls));
      }
    }
  }

  // ----- sizes -----

  function Max(a: int, b: int): int
  {
    if a >= b then a else b
  }

  /** The longest single write. */
  function Longest(calls: seq<Call>): nat
  {
    if calls == [] then 0
    else Max(Longest(calls[..|calls| - 1]), if calls[|calls| - 1].Write? then |calls[|calls| - 1].p| else 0)
  }

  /** The bytes of writes that come after a failed rename, or are never preceded by a rotation at all. */
  function Overrun(maxBytes: int, calls: seq<Call>): nat
  {
    if calls == [] then 0
    else
      var call := calls[|calls| - 1];
      Overrun(maxBytes, calls[..|calls| - 1]) + if call.Write? && (maxBytes <= 0 || !call.renames) then |call.p| else 0
  }

  /** No file grows beyond the larger of maxBytes and the longest write, if none does at first and every rename
      succeeds; each write after a failed rename can add its own length. */
  lemma {:induction false} SizesBounded(files: Files, maxBytes: int, maxFiles: int, calls: seq<Call>, limit: nat)
    requires Possible(calls) && limit >= Max(maxBytes, Longest(calls)) && SizesWithin(files, limit)
    ensures SizesWithin(Run(files, maxBytes, maxFiles, calls).files, limit + Overrun(maxBytes, calls))
  {
    if calls != [] {
      var past, call := calls[..|calls| - 1], calls[|calls| - 1];
      SizesBounded(files, maxBytes, maxFiles, past, limit);
      RunSized(files, maxBytes, maxFiles, past);
      var log := Run(files, maxBytes, maxFiles, past);
      if call.Write? && log.open {
        WriteSizes(log, maxBytes, maxFiles, call, limit, Overrun(maxBytes, past));
      }
    }
  }

  lemma WriteSizes(log: Log, maxBytes: int, maxFiles: int, call: Call, limit: nat, extra: nat)
    requires Sized(log) && log.open && call.Write? && call.accepted <= |call.p|
    requires maxBytes <= limit && |call.p| <= limit && SizesWithin(log.files, limit + extra)
    ensures SizesWithin(Step(log, maxBytes, maxFiles, call).files,
                        limit + (extra + if maxBytes <= 0 || !call.renames then |call.p| else 0))
  {
    if Overflows(log, maxBytes, call.p) {
      RotationSizes(log.files, maxFiles, call.renames, limit + extra);
      RotationMovesFiles(log.files, maxFiles, call.renames);
    }
    assert |Get(log.files, Current)| == |log.files[Current]|;
  }

  // ----- the number of backups -----

  /** Some write is preceded by a rotation that moves the log file away. */
  ghost predicate Rotates(files: Files, maxBytes: int, maxFiles: int, calls: seq<Call>)
    requires Possible(calls)
  {
    exists i :: 0 <= i < |calls| && RotatesAt(files, maxBytes, maxFiles, calls, i)
  }

  ghost predicate RotatesAt(files: Files, maxBytes: int, maxFiles: int, calls: seq<Call>, i: nat)
    requires Possible(calls) && i < |calls|
  {
    calls[i].Write? && calls[i].renames && Overflows(Run(files, maxBytes, maxFiles, calls[..i]), maxBytes, calls[i].p)
  }

  lemma RotatesSnoc(files: Files, maxBytes: int, maxFiles: int, calls: seq<Call>)
    requires Possible(calls) && calls != []
    ensures Rotates(files, maxBytes, maxFiles, calls) <==>
            Rotates(files, maxBytes, maxFiles, calls[..|calls| - 1])
              || RotatesAt(files, maxBytes, maxFiles, calls, |calls| - 1)
  {
    var past := calls[..|calls| - 1];
    forall i | 0 <= i < |past|
      ensures RotatesAt(files, maxBytes, maxFiles, calls, i) <==> RotatesAt(files, maxBytes, maxFiles, past, i)
    {
      assert calls[..i] == past[..i];
    }
  }

  lemma WriteKeepsSlots(log: Log, maxBytes: int, maxFiles: int, call: Call)
    requires Sized(log) && log.open && call.Write? && call.accepted <= |call.p| && OnlySlots(log.files, maxFiles)
    ensures OnlySlots(Step(log, maxBytes, maxFiles, call).files, maxFiles) <==>
            maxFiles >= 1 || !(call.renames && Overflows(log, maxBytes, call.p))
  {
    ShiftMoves(log.files, maxFiles);
    if Overflows(log, maxBytes, call.p) && call.renames {
      RotationMovesFiles(log.files, maxFiles, true);
    }
  }

  lemma BackupStays(log: Log, maxBytes: int, maxFiles: int, call: Call)
    requires Sized(log) && (call.Write? ==> call.accepted <= |call.p|) && maxFiles < 1 && Backup(1) in log.files
    ensures Backup(1) in Step(log, maxBytes, maxFiles, call).files
  {
    ShiftMoves(log.files, maxFiles);
  }

  /** The directory keeps to maxFiles backups exactly if maxFiles is at least one, or nothing is ever rotated:
      a rotation told to keep none keeps one. */
  lemma {:induction false} SlotsKept(files: Files, maxBytes: int, maxFiles: int, calls: seq<Call>)
    requires Possible(calls) && OnlySlots(files, maxFiles)
    ensures OnlySlots(Run(files, maxBytes, maxFiles, calls).files, maxFiles) <==>
            maxFiles >= 1 || !Rotates(files, maxBytes, maxFiles, calls)
    ensures maxFiles < 1 && Rotates(files, maxBytes, maxFiles, calls) ==>
            Backup(1) in Run(files, maxBytes, maxFiles, calls).files
  {
    if calls != [] {
      var past, call := calls[..|calls| - 1], calls[|calls| - 1];
      var log := Run(files, maxBytes, maxFiles, past);
      SlotsKept(files, maxBytes, maxFiles, past);
      RunSized(files, maxBytes, maxFiles, past);
      RotatesSnoc(files, maxBytes, maxFiles, calls);
      if maxFiles < 1 && Rotates(files, maxBytes, maxFiles, past) {
        BackupStays(log, maxBytes, maxFiles, call);
      } else if call.Write? && log.open {
        WriteKeepsSlots(log, maxBytes, maxFiles, call);
        if maxFiles < 1 && call.renames && Overflows(log, maxBytes, call.p) {
          RotationMovesFiles(log.files, maxFiles, true);
        }
      }
    }
  }

  lemma FirstByte()
    ensures Run(map[], 1, 0, [Write([1], 1, true)]) == Log(map[Current := [1]], 1, true)
  {
    var one: Call := Write([1], 1, true);
    assert [one][..0] == [];
    assert one.p[..1] == [1] && [] + one.p == [1];
  }

  /** Told to keep no backups, with a limit of one byte: the second byte turns the first into a backup. */
  lemma NoBackupsKeepsOne()
    ensures OnlySlots(map[], 0)
    ensures Run(map[], 1, 0, [Write([1], 1, true), Write([2], 1, true)]).files == map[Backup(1) := [1], Current := [2]]
  {
    var one, two: Call := Write([1], 1, true), Write([2], 1, true);
    FirstByte();
    assert [one, two][..1] == [one];
    assert two.p[..1] == [2] && [] + two.p == [2];
    assert Shifted(map[Current := [1]], 0) == map[Current := [1]];
    assert Rename(map[Current := [1]], Current, Backup(1)) == map[Backup(1) := [1]];
  }
}
