/**
 `client.log` and its rotation (src/activity.rs, `LogFile`), shared by any number of clients.

 A file is an inode; a name is a link to one, and a client holds a handle that outlives the
 name. One `write_line` is one step: the races inside a call are not modelled.
 */
module LogRotation {
  import opened Bytes
  import opened Options

  type Line = seq<Byte>

  /** Every inode there has ever been, and which of them the two names mean now. */
  datatype Disk = Disk(files: seq<seq<Line>>, log: Option<nat>, rotated: Option<nat>)
  {
    ghost predicate Valid() {
      && (log.Some? ==> log.value < |files|)
      && (rotated.Some? ==> rotated.value < |files|)
      && (log.Some? ==> log != rotated)
    }

    function Named(name: Option<nat>): seq<Line> {
      if name.Some? && name.value < |files| then files[name.value] else []
    }
  }

  /** The bytes of a file: each line and its newline. */
  function Size(lines: seq<Line>): nat {
    if lines == [] then 0 else Size(lines[..|lines| - 1]) + |lines[|lines| - 1]| + 1
  }

  // ---------------------------------------------------------------- the code, on values

  /** Open `client.log` for appending, making it if it is not there. */
  function Append(d: Disk): (Disk, nat) {
    match d.log
    case Some(i) => (d, i)
    case None => (d.(files := d.files + [[]], log := Some(|d.files|)), |d.files|)
  }

  /** Rename `client.log` to `client.log.1`, if it is there, and open a `client.log`. */
  function Rotate(d: Disk): (Disk, nat) {
    Append(if d.log.Some? then d.(log := None, rotated := d.log) else d)
  }

  /** The name is followed, not the handle. */
  function Follow(d: Disk, handle: nat): (Disk, nat) {
    if d.log == Some(handle) then (d, handle) else Append(d)
  }

  function MakeRoom(d: Disk, handle: nat, line: Line, cap: nat): (Disk, nat)
    requires handle < |d.files|
  {
    var len := Size(d.files[handle]);
    if len > 0 && len + |line| + 1 > cap then Rotate(d) else (d, handle)
  }

  function WriteLine(d: Disk, handle: nat, line: Line, cap: nat): (Disk, nat)
    requires d.Valid()
  {
    var (d1, h1) := Follow(d, handle);
    var (d2, h2) := MakeRoom(d1, h1, line, cap);
    (d2.(files := d2.files[h2 := d2.files[h2] + [line]]), h2)
  }

  // ---------------------------------------------------------------- the code, in place

  class FileSystem {
    var files: seq<seq<Line>>
    var log: Option<nat>
    var rotated: Option<nat>

    ghost function View(): Disk
      reads this
    {
      Disk(files, log, rotated)
    }

    method OpenAppend() returns (handle: nat)
      requires View().Valid()
      modifies this
      ensures (View(), handle) == Append(old(View()))
    {
      match log
      case Some(i) => handle := i;
      case None =>
        handle := |files|;
        files := files + [[]];
        log := Some(handle);
    }
  }

  class LogFile {
    const fs: FileSystem
    const cap: nat
    var handle: nat

    constructor (fs: FileSystem, cap: nat)
      requires fs.View().Valid()
      modifies fs
      ensures this.fs == fs && this.cap == cap
      ensures (fs.View(), handle) == Append(old(fs.View()))
    {
      var first := fs.OpenAppend();
      this.fs, this.cap, handle := fs, cap, first;
    }

    method RotateNow()
      requires fs.View().Valid()
      modifies this, fs
      ensures (fs.View(), handle) == Rotate(old(fs.View()))
    {
      if fs.log.Some? {
        fs.rotated := fs.log;
        fs.log := None;
      }
      handle := fs.OpenAppend();
    }

    method Write(line: Line)
      requires fs.View().Valid()
      modifies this, fs
      ensures (fs.View(), handle) == WriteLine(old(fs.View()), old(handle), line, cap)
    {
      if fs.log != Some(handle) {
        handle := fs.OpenAppend();
      }
      var len := Size(fs.files[handle]);
      if len > 0 && len + |line| + 1 > cap {
        RotateNow();
      }
      fs.files := fs.files[handle := fs.files[handle] + [line]];
    }
  }

  // ---------------------------------------------------------------- one write

  /** A write always goes to what is `client.log` when it is done, and touches no other file. */
  lemma WriteGoesToTheLog(d: Disk, handle: nat, line: Line, cap: nat)
    requires d.Valid()
    ensures var (d', h') := WriteLine(d, handle, line, cap);
      && d'.Valid() && d'.log == Some(h')
      && |d.files| <= |d'.files|
      && d'.files[h'] != [] && d'.files[h'][|d'.files[h']| - 1] == line
      && (forall i :: 0 <= i < |d.files| && i != h' ==> d'.files[i] == d.files[i])
      && (h' < |d.files| ==> d'.files[h'] == d.files[h'] + [line])
      && (d'.rotated != d.rotated ==> d'.rotated == d.log && d.log != Some(h'))
  {
  }

  // ---------------------------------------------------------------- runs

  datatype Event =
    | Open(client: nat)
    | Write(client: nat, line: Line)
    | Remove                           // somebody else deletes `client.log`

  /** `kept` is every line written, less the lines of a file somebody deleted. */
  datatype World = World(disk: Disk, handles: map<nat, nat>, kept: seq<Line>)

  function Start(): World {
    World(Disk([], None, None), map[], [])
  }

  function Next(w: World, e: Event, cap: nat): World
    requires w.disk.Valid()
  {
    match e
    case Open(c) =>
      var (d, h) := Append(w.disk);
      w.(disk := d, handles := w.handles[c := h])
    case Write(c, line) =>
      if c !in w.handles then w else
      var (d, h) := WriteLine(w.disk, w.handles[c], line, cap);
      World(d, w.handles[c := h], w.kept + [line])
    case Remove =>
      var n := |w.disk.Named(w.disk.log)|;
      w.(disk := w.disk.(log := None), kept := if n <= |w.kept| then w.kept[..|w.kept| - n] else [])
  }

  ghost function Exec(es: seq<Event>, cap: nat): (w: World)
    ensures w.disk.Valid()
  {
    if es == [] then Start()
    else
      var w := Exec(es[..|es| - 1], cap);
      if es[|es| - 1].Write? && es[|es| - 1].client in w.handles then
        WriteGoesToTheLog(w.disk, w.handles[es[|es| - 1].client], es[|es| - 1].line, cap);
        Next(w, es[|es| - 1], cap)
      else Next(w, es[|es| - 1], cap)
  }

  /** A file within the cap, or one line that is longer than the cap all by itself. */
  ghost predicate WithinCap(file: seq<Line>, cap: nat) {
    Size(file) <= cap || |file| == 1
  }

  ghost predicate IsSuffix(part: seq<Line>, whole: seq<Line>) {
    |part| <= |whole| && part == whole[|whole| - |part|..]
  }

  ghost predicate Inv(w: World, cap: nat) {
    && w.disk.Valid()
    && WithinCap(w.disk.Named(w.disk.log), cap)
    && WithinCap(w.disk.Named(w.disk.rotated), cap)
    && IsSuffix(w.disk.Named(w.disk.rotated) + w.disk.Named(w.disk.log), w.kept)
  }

  lemma SizeAppend(file: seq<Line>, line: Line)
    ensures Size(file + [line]) == Size(file) + |line| + 1
    ensures Size(file) == 0 <==> file == []
  {
    assert (file + [line])[..|file|] == file;
  }

  /** What a write does to the contents under the two names. */
  lemma WriteContents(d: Disk, handle: nat, line: Line, cap: nat)
    requires d.Valid()
    ensures var d' := WriteLine(d, handle, line, cap).0;
      var log := d.Named(d.log);
      if Size(log) > 0 && Size(log) + |line| + 1 > cap
      then d'.Named(d'.rotated) == log && d'.Named(d'.log) == [line]
      else d'.Named(d'.rotated) == d.Named(d.rotated) && d'.Named(d'.log) == log + [line]
  {
    var log := d.Named(d.log);
    var (d1, h1) := Follow(d, handle);
    assert d1.Valid() && d1.log == Some(h1) && d1.files[h1] == log;
    assert d1.Named(d1.rotated) == d.Named(d.rotated);
    var (d2, h2) := MakeRoom(d1, h1, line, cap);
    assert d2.Valid() && d2.log == Some(h2);
    assert [] + [line] == [line];
  }

  lemma WriteKeepsInv(w: World, c: nat, line: Line, cap: nat)
    requires Inv(w, cap) && c in w.handles
    ensures Inv(Next(w, Write(c, line), cap), cap)
  {
    var rotated, log := w.disk.Named(w.disk.rotated), w.disk.Named(w.disk.log);
    WriteContents(w.disk, w.handles[c], line, cap);
    WriteGoesToTheLog(w.disk, w.handles[c], line, cap);
    SizeAppend(log, line);
    SuffixGrows(rotated, log, w.kept, line);
  }

  lemma SuffixGrows(a: seq<Line>, b: seq<Line>, kept: seq<Line>, line: Line)
    requires IsSuffix(a + b, kept)
    ensures IsSuffix(a + (b + [line]), kept + [line]) && IsSuffix(b + [line], kept + [line])
  {
    assert a + (b + [line]) == (a + b) + [line];
    assert b == kept[|kept| - |b|..];
  }

  lemma RemoveKeepsInv(w: World, cap: nat)
    requires Inv(w, cap)
    ensures Inv(Next(w, Remove, cap), cap)
  {
    var rotated, log := w.disk.Named(w.disk.rotated), w.disk.Named(w.disk.log);
    var kept' := w.kept[..|w.kept| - |log|];
    assert (rotated + log)[..|rotated|] == rotated;
    assert kept'[|kept'| - |rotated|..] == w.kept[|w.kept| - |rotated + log|..][..|rotated|];
    assert rotated + [] == rotated;
  }

  /**
   For any number of clients, any interleaving of their writes and any deletion of the file:
   neither file outgrows the cap -- unless a single line does -- and the two together, the
   rotated one first, are a contiguous suffix of the lines written less those of a file deleted.
   */
  lemma {:induction false} RotationInvariant(es: seq<Event>, cap: nat)
    ensures Inv(Exec(es, cap), cap)
  {
    if es == [] {
      assert Size([]) == 0;
    } else {
      var w := Exec(es[..|es| - 1], cap);
      RotationInvariant(es[..|es| - 1], cap);
      match es[|es| - 1]
      case Open(c) =>
      case Write(c, line) =>
        if c in w.handles {
          WriteKeepsInv(w, c, line, cap);
        }
      case Remove => RemoveKeepsInv(w, cap);
    }
  }

  lemma NextHolds(w: World, e: Event, cap: nat, c: nat)
    requires w.disk.Valid()
    ensures c in Next(w, e, cap).handles <==> c in w.handles || e == Open(c)
    ensures e == Open(c) ==> Next(w, e, cap).disk.log == Some(Next(w, e, cap).handles[c])
  {
  }

  /** A client has a handle if and only if it has opened the log, and it is then on what is `client.log`. */
  lemma {:induction false} OpenedIsHeld(es: seq<Event>, cap: nat, c: nat)
    ensures c in Exec(es, cap).handles <==> Open(c) in es
    ensures es != [] && es[|es| - 1] == Open(c) ==> Exec(es, cap).disk.log == Some(Exec(es, cap).handles[c])
  {
    if es != [] {
      var p, e := es[..|es| - 1], es[|es| - 1];
      OpenedIsHeld(p, cap, c);
      NextHolds(Exec(p, cap), e, cap, c);
      assert es == p + [e];
    }
  }

  /** The lines written by clients that had opened the log, in order. */
  function Written(es: seq<Event>): seq<Line> {
    if es == [] then []
    else
      var p, e := es[..|es| - 1], es[|es| - 1];
      Written(p) + if e.Write? && Open(e.client) in p then [e.line] else []
  }

  /** All of `written` is there, or the two files hold more than the cap. */
  ghost predicate NothingLost(d: Disk, written: seq<Line>, cap: nat)
    requires d.Valid()
  {
    if d.rotated.None? then d.Named(d.log) == written
    else Size(d.Named(d.rotated)) + Size(d.Named(d.log)) > cap
  }

  lemma WriteLosesNothing(d: Disk, handle: nat, line: Line, written: seq<Line>, cap: nat)
    requires d.Valid() && NothingLost(d, written, cap)
    ensures var d' := WriteLine(d, handle, line, cap).0;
      d'.Valid() && NothingLost(d', written + [line], cap)
  {
    WriteContents(d, handle, line, cap);
    WriteGoesToTheLog(d, handle, line, cap);
    SizeAppend(d.Named(d.log), line);
    SizeAppend([], line);
    assert [] + [line] == [line];
    RotatesOnlyWhenFull(d, handle, line, cap);
  }

  /** Nothing is lost before more than the cap is held. */
  lemma {:induction false} LostOnlyAboveCap(es: seq<Event>, cap: nat)
    requires forall i :: 0 <= i < |es| ==> !es[i].Remove?
    ensures Exec(es, cap).disk.Valid() && NothingLost(Exec(es, cap).disk, Written(es), cap)
  {
    if es != [] {
      var p, e := es[..|es| - 1], es[|es| - 1];
      LostOnlyAboveCap(p, cap);
      var w := Exec(p, cap);
      if e.Write? {
        OpenedIsHeld(p, cap, e.client);
        if e.client in w.handles {
          WriteLosesNothing(w.disk, w.handles[e.client], e.line, Written(p), cap);
        }
      }
    }
  }

  lemma RotatesOnlyWhenFull(d: Disk, handle: nat, line: Line, cap: nat)
    requires d.Valid()
    ensures var d' := WriteLine(d, handle, line, cap).0;
      d'.rotated != d.rotated <==> Size(d.Named(d.log)) > 0 && Size(d.Named(d.log)) + |line| + 1 > cap
  {
  }

  /**
   With every line within the cap and nobody deleting the file, the documented guarantee: both
   files within the cap, and together either everything written or more than the cap's worth
   of the latest of it.
   */
  lemma {:induction false} TwoFilesHoldTheLatest(es: seq<Event>, cap: nat)
    requires forall i :: 0 <= i < |es| ==> !es[i].Remove? && (es[i].Write? ==> |es[i].line| + 1 <= cap)
    ensures var d := Exec(es, cap).disk;
      && Size(d.Named(d.log)) <= cap && Size(d.Named(d.rotated)) <= cap
      && IsSuffix(d.Named(d.rotated) + d.Named(d.log), Written(es))
      && (d.Named(d.rotated) + d.Named(d.log) == Written(es)
          || Size(d.Named(d.rotated)) + Size(d.Named(d.log)) > cap)
  {
    RotationInvariant(es, cap);
    KeptIsWritten(es, cap);
    LostOnlyAboveCap(es, cap);
    var d, kept := Exec(es, cap).disk, Exec(es, cap).kept;
    SuffixLinesFit(d.Named(d.rotated), d.Named(d.log), kept, cap);
  }

  lemma {:induction false} KeptIsWritten(es: seq<Event>, cap: nat)
    requires forall i :: 0 <= i < |es| ==> !es[i].Remove? && (es[i].Write? ==> |es[i].line| + 1 <= cap)
    ensures var kept := Exec(es, cap).kept;
      kept == Written(es) && forall i :: 0 <= i < |kept| ==> |kept[i]| + 1 <= cap
  {
    if es != [] {
      KeptIsWritten(es[..|es| - 1], cap);
      if es[|es| - 1].Write? {
        OpenedIsHeld(es[..|es| - 1], cap, es[|es| - 1].client);
      }
    }
  }

  lemma SuffixLinesFit(a: seq<Line>, b: seq<Line>, kept: seq<Line>, cap: nat)
    requires IsSuffix(a + b, kept) && forall i :: 0 <= i < |kept| ==> |kept[i]| + 1 <= cap
    requires WithinCap(a, cap) && WithinCap(b, cap)
    ensures Size(a) <= cap && Size(b) <= cap
  {
    if |a| == 1 {
      assert a[0] == (a + b)[0] && a[..0] == [];
      assert Size(a) == |a[0]| + 1;
    }
    if |b| == 1 {
      assert b[0] == (a + b)[|a|] && b[..0] == [];
      assert Size(b) == |b[0]| + 1;
    }
  }
}
