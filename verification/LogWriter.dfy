/**
 The rotating log writer of internal/vllm/logwriter.go over an abstract directory: `Current` is the log
 file itself and `Backup(i)` the file with suffix .i.  The outcome of the one rename whose error the code
 looks at, and the number of bytes the operating system accepts, are parameters.
 */
module LogWriter {
  type Bytes = seq<bv8>

  datatype Name = Current | Backup(i: int)

  type Files = map<Name, Bytes>

  /** A missing file reads as an empty one. */
  function Get(files: Files, name: Name): Bytes
  {
    if name in files then files[name] else []
  }

  function Remove(files: Files, name: Name): (r: Files)
    ensures forall m :: m in r <==> m in files && m != name
    ensures forall m :: Get(r, m) == if m == name then [] else Get(files, m)
  {
    map m | m in files && m != name :: files[m]
  }

  function Put(files: Files, name: Name, content: Bytes): (r: Files)
    ensures forall m :: m in r <==> m in files || m == name
    ensures forall m :: Get(r, m) == if m == name then content else Get(files, m)
  {
    files[name := content]
  }

  /** os.Rename: replaces the target; a missing source is an error that changes nothing. */
  function Rename(files: Files, a: Name, b: Name): (r: Files)
    requires a != b
    ensures a !in files ==> r == files
    ensures a in files ==> forall m :: m in r <==> m == b || (m in files && m != a)
    ensures a in files ==> forall m :: Get(r, m) == if m == b then files[a] else if m == a then [] else Get(files, m)
  {
    if a in files then Remove(Put(files, b, files[a]), a) else files
  }

  /** The backups n, n-1, ..., 1 in that order: oldest bytes first. */
  function Backups(files: Files, n: nat): Bytes
  {
    if n == 0 then [] else Get(files, Backup(n)) + Backups(files, n - 1)
  }

  /** Everything the directory still holds, oldest bytes first. */
  function Stream(files: Files, n: nat): Bytes
  {
    Backups(files, n) + Get(files, Current)
  }

  /** The number of backups in use.  Even when told to keep none, a rotation leaves one. */
  function Slots(maxFiles: int): (n: nat)
    ensures n >= 1 && n >= maxFiles && (n == maxFiles || n == 1)
  {
    if maxFiles >= 1 then maxFiles else 1
  }

  ghost predicate IsSuffix(s: Bytes, whole: Bytes)
  {
    |s| <= |whole| && whole[|whole| - |s|..] == s
  }

  /** Only the log file and its numbered backups exist. */
  ghost predicate OnlySlots(files: Files, n: int)
  {
    forall name :: name in files ==> name == Current || 1 <= name.i <= n
  }

  ghost predicate SizesWithin(files: Files, limit: nat)
  {
    forall name :: |Get(files, name)| <= limit
  }

  // ----- what the operations do -----

  /** The directory, the size counter and whether the log file is open. */
  datatype Log = Log(files: Files, size: int, open: bool)

  /** Opening for appending creates the file if it is missing. */
  function Opened(files: Files): Log
  {
    var there := if Current in files then files else Put(files, Current, []);
    Log(there, |there[Current]|, true)
  }

  /** The renames .i to .i+1 down to .1 to .2. */
  function ShiftFrom(files: Files, i: int): Files
    decreases if i < 1 then 0 else i
  {
    if i < 1 then files else ShiftFrom(Rename(files, Backup(i), Backup(i + 1)), i - 1)
  }

  function Shifted(files: Files, maxFiles: int): Files
  {
    ShiftFrom(Remove(files, Backup(maxFiles)), maxFiles - 1)
  }

  /** If the rename of the log file fails, writing goes on in it. */
  function Rotated(files: Files, maxFiles: int, renames: bool): Log
  {
    var shifted := Shifted(files, maxFiles);
    Opened(if renames then Rename(shifted, Current, Backup(1)) else shifted)
  }

  predicate Overflows(log: Log, maxBytes: int, p: Bytes)
  {
    log.open && maxBytes > 0 && log.size + |p| > maxBytes
  }

  function Appended(log: Log, data: Bytes): Log
  {
    log.(files := Put(log.files, Current, Get(log.files, Current) + data), size := log.size + |data|)
  }

  /** One write, of which the operating system accepts the first `accepted` bytes. */
  function Wrote(log: Log, maxBytes: int, maxFiles: int, p: Bytes, accepted: nat, renames: bool): Log
    requires accepted <= |p|
  {
    if !log.open then log
    else Appended(if Overflows(log, maxBytes, p) then Rotated(log.files, maxFiles, renames) else log, p[..accepted])
  }

  /** While the file is open its size counter is its length. */
  predicate Sized(log: Log)
  {
    log.open ==> Current in log.files && log.size == |log.files[Current]|
  }

  // ----- what a rotation does to the files -----

  /** Slots 1..n-1 of `from` sit one slot up in `to`. */
  ghost predicate ShiftedUp(from: Files, to: Files, n: nat)
  {
    forall i :: 1 <= i < n ==> Get(to, Backup(i + 1)) == Get(from, Backup(i))
  }

  lemma {:induction false} ShiftFromMoves(files: Files, i: int)
    requires i >= 0 && Backup(i + 1) !in files
    ensures var to := ShiftFrom(files, i);
            && Backup(1) !in to
            && (forall j :: 1 <= j <= i ==> Get(to, Backup(j + 1)) == Get(files, Backup(j)))
            && (forall j :: 1 <= j <= i ==> (Backup(j + 1) in to <==> Backup(j) in files))
            && (forall m :: m == Current || m.i < 1 || m.i > i + 1 ==>
               Get(to, m) == Get(files, m) && (m in to <==> m in files))
    decreases i
  {
    hide Rename, Remove, Put;
    if i >= 1 {
      ShiftFromMoves(Rename(files, Backup(i), Backup(i + 1)), i - 1);
    }
  }

  lemma ShiftMoves(files: Files, maxFiles: int)
    ensures var to := Shifted(files, maxFiles);
            && Get(to, Current) == Get(files, Current) && (Current in to <==> Current in files)
            && (maxFiles >= 1 ==> ShiftedUp(files, to, maxFiles) && Backup(1) !in to)
            && (maxFiles < 1 ==> to == Remove(files, Backup(maxFiles)))
            && (OnlySlots(files, maxFiles) && maxFiles >= 1 ==> OnlySlots(to, maxFiles))
  {
    var from, to := Remove(files, Backup(maxFiles)), Shifted(files, maxFiles);
    if maxFiles >= 1 {
      ShiftFromMoves(from, maxFiles - 1);
      if OnlySlots(files, maxFiles) {
        forall m | m in to
          ensures m == Current || 1 <= m.i <= maxFiles
        {
          assert m.Backup? && 2 <= m.i <= maxFiles ==> Backup(m.i - 1 + 1) in to;
        }
      }
    }
  }

  lemma RenameSizes(files: Files, a: Name, b: Name, limit: nat)
    requires a != b && SizesWithin(files, limit)
    ensures SizesWithin(Rename(files, a, b), limit)
  {
    if a in files {
      assert |Get(files, a)| <= limit;
    }
  }

  lemma {:induction false} ShiftFromSizes(files: Files, i: int, limit: nat)
    requires SizesWithin(files, limit)
    ensures SizesWithin(ShiftFrom(files, i), limit)
    decreases if i < 1 then 0 else i
  {
    if i >= 1 {
      RenameSizes(files, Backup(i), Backup(i + 1), limit);
      ShiftFromSizes(Rename(files, Backup(i), Backup(i + 1)), i - 1, limit);
    }
  }

  lemma DropHead(head: Bytes, tail: Bytes)
    ensures (head + tail)[|head|..] == tail
  {
  }

  /** Shifting loses the oldest backup and appends whatever lands in slot 1. */
  lemma {:induction false} ShiftMovesStream(from: Files, to: Files, n: nat)
    requires n >= 1 && ShiftedUp(from, to, n)
    ensures Backups(to, n) == Backups(from, n)[|Get(from, Backup(n))|..] + Get(to, Backup(1))
  {
    DropHead(Get(from, Backup(n)), Backups(from, n - 1));
    if n > 1 {
      ShiftMovesStream(from, to, n - 1);
      DropHead(Get(from, Backup(n - 1)), Backups(from, n - 2));
      assert Get(to, Backup(n)) == Get(from, Backup(n - 1));
    }
  }

  lemma {:induction false} SameSlotsSameBackups(from: Files, to: Files, n: nat)
    requires forall i :: 1 <= i <= n ==> Get(to, Backup(i)) == Get(from, Backup(i))
    ensures Backups(to, n) == Backups(from, n)
  {
    if n > 0 {
      SameSlotsSameBackups(from, to, n - 1);
    }
  }

  /** The bytes a rotation forgets. */
  function Forgotten(files: Files, maxFiles: int, renames: bool): nat
  {
    if maxFiles >= 1 || renames then |Get(files, Backup(Slots(maxFiles)))| else 0
  }

  /** A rotation moves whole files, one slot up each, and the log file into slot 1. */
  lemma RotationMovesFiles(files: Files, maxFiles: int, renames: bool)
    requires Current in files
    ensures var log := Rotated(files, maxFiles, renames);
            && Sized(log) && log.open
            && log.files[Current] == (if renames then [] else files[Current])
            && (maxFiles >= 1 || renames ==> ShiftedUp(files, log.files, Slots(maxFiles)))
            && (renames ==> Backup(1) in log.files && log.files[Backup(1)] == files[Current])
            && (!renames && maxFiles >= 1 ==> Backup(1) !in log.files)
            && (!renames && maxFiles < 1 ==> forall i :: i >= 1 ==> Get(log.files, Backup(i)) == Get(files, Backup(i)))
  {
    ShiftMoves(files, maxFiles);
    var to, log := Shifted(files, maxFiles), Rotated(files, maxFiles, renames);
    assert forall i :: i > 1 ==> Get(log.files, Backup(i)) == Get(to, Backup(i));
  }

  /** A rotation only drops the oldest backup from the front of the stream, even when the rename of the log
      file fails and the writer carries on with it. */
  lemma RotationKeepsStream(files: Files, maxFiles: int, renames: bool)
    requires Current in files
    ensures Forgotten(files, maxFiles, renames) <= |Stream(files, Slots(maxFiles))|
    ensures Stream(Rotated(files, maxFiles, renames).files, Slots(maxFiles)) ==
            Stream(files, Slots(maxFiles))[Forgotten(files, maxFiles, renames)..]
  {
    hide Rotated;
    var n, to := Slots(maxFiles), Rotated(files, maxFiles, renames).files;
    RotationMovesFiles(files, maxFiles, renames);
    if maxFiles >= 1 || renames {
      ShiftMovesStream(files, to, n);
      DropOldest(files, n);
      if !renames {
        assert Get(to, Backup(1)) == [];
      }
    } else {
      SameSlotsSameBackups(files, to, n);
    }
  }

  lemma DropOldest(files: Files, n: nat)
    requires n >= 1
    ensures |Get(files, Backup(n))| <= |Backups(files, n)|
    ensures Stream(files, n)[|Get(files, Backup(n))|..] ==
            Backups(files, n)[|Get(files, Backup(n))|..] + Get(files, Current)
  {
  }

  lemma RotationSizes(files: Files, maxFiles: int, renames: bool, limit: nat)
    requires SizesWithin(files, limit)
    ensures SizesWithin(Rotated(files, maxFiles, renames).files, limit)
  {
    ShiftFromSizes(Remove(files, Backup(maxFiles)), maxFiles - 1, limit);
    RenameSizes(Shifted(files, maxFiles), Current, Backup(1), limit);
  }

  lemma AppendExtendsStream(log: Log, n: nat, data: Bytes)
    requires Sized(log) && log.open
    ensures var log' := Appended(log, data);
            && Sized(log') && log'.open && log'.files[Current] == log.files[Current] + data
            && Stream(log'.files, n) == Stream(log.files, n) + data
  {
    SameSlotsSameBackups(log.files, Appended(log, data).files, n);
  }

  /** One write: the accepted bytes come at the end of the stream, whole, and only a rotation before them
      takes anything away. */
  lemma WriteExtendsStream(log: Log, maxBytes: int, maxFiles: int, p: Bytes, accepted: nat, renames: bool)
    requires Sized(log) && log.open && accepted <= |p|
    ensures var n, log' := Slots(maxFiles), Wrote(log, maxBytes, maxFiles, p, accepted, renames);
            var gone := if Overflows(log, maxBytes, p) then Forgotten(log.files, maxFiles, renames) else 0;
            && Sized(log') && log'.open && gone <= |Stream(log.files, n)|
            && Stream(log'.files, n) == Stream(log.files, n)[gone..] + p[..accepted]
            && log'.files[Current] ==
               (if Overflows(log, maxBytes, p) && renames then [] else log.files[Current]) + p[..accepted]
  {
    hide Rotated, Stream, Forgotten, Appended;
    if Overflows(log, maxBytes, p) {
      RotationMovesFiles(log.files, maxFiles, renames);
      RotationKeepsStream(log.files, maxFiles, renames);
      AppendExtendsStream(Rotated(log.files, maxFiles, renames), Slots(maxFiles), p[..accepted]);
    } else {
      AppendExtendsStream(log, Slots(maxFiles), p[..accepted]);
    }
  }

  class RotatingFileWriter {
    const maxBytes: int
    const maxFiles: int
    var files: Files
    var currentSize: int
    var open: bool

    function State(): Log
      reads this
    {
      Log(files, currentSize, open)
    }

    predicate Valid()
      reads this
    {
      Sized(State())
    }

    constructor (maxBytes: int, maxFiles: int, files: Files)
      ensures Valid() && State() == Opened(files) && this.maxBytes == maxBytes && this.maxFiles == maxFiles
    {
      this.maxBytes, this.maxFiles := maxBytes, maxFiles;
      this.files, open, currentSize := files, false, 0;
      new;
      OpenFile();
    }

    /** Opens for appending, creating the file if it is missing. */
    method OpenFile()
      modifies this
      ensures Valid() && State() == Opened(old(files))
    {
      if Current !in files {
        files := Put(files, Current, []);
      }
      open := true;
      currentSize := |files[Current]|;
    }

    /** The descending loop of renames, after the oldest backup has been removed. */
    method ShiftBackups()
      modifies this`files
      ensures files == Shifted(old(files), maxFiles)
    {
      files := Remove(files, Backup(maxFiles));
      var i := maxFiles - 1;
      while i >= 1
        invariant ShiftFrom(files, i) == Shifted(old(files), maxFiles)
      {
        files := Rename(files, Backup(i), Backup(i + 1));
        i := i - 1;
      }
    }

    method Rotate(renames: bool)
      modifies this
      ensures Valid() && State() == Rotated(old(files), maxFiles, renames)
    {
      open := false;
      ShiftBackups();
      if !renames {
        OpenFile();
        return;
      }
      files := Rename(files, Current, Backup(1));
      currentSize := 0;
      OpenFile();
    }

    /** `accepted` bytes of p reach the file.  As long as all of p fits nothing else moves; otherwise, the file
        starts anew with them, and what it held is backup 1, or it goes on if it could not be renamed. */
    method Write(p: Bytes, accepted: nat, renames: bool) returns (n: nat, ok: bool)
      requires Valid() && accepted <= |p|
      modifies this
      ensures Valid() && State() == Wrote(old(State()), maxBytes, maxFiles, p, accepted, renames)
      ensures ok == old(open) && n == if ok then accepted else 0
      ensures old(open) && (maxBytes <= 0 || old(currentSize) + |p| <= maxBytes) ==>
                files == Put(old(files), Current, old(Get(files, Current)) + p[..accepted])
      ensures old(open) && maxBytes > 0 && old(currentSize) + |p| > maxBytes ==>
                if renames
                  then Get(files, Backup(1)) == old(Get(files, Current)) && Get(files, Current) == p[..accepted]
                  else Get(files, Current) == old(Get(files, Current)) + p[..accepted]
    {
      if open {
        RotationMovesFiles(files, maxFiles, renames);
      }
      if !open {
        return 0, false;
      }
      if maxBytes > 0 && currentSize + |p| > maxBytes {
        Rotate(renames);
      }
      files := Put(files, Current, Get(files, Current) + p[..accepted]);
      currentSize := currentSize + accepted;
      return accepted, true;
    }

    method Close()
      requires Valid()
      modifies this
      ensures Valid() && State() == old(State()).(open := false)
    {
      open := false;
    }
  }
}
