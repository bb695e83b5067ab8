/**
 The frame sink (src/link.rs): a frame that does not fit a datagram goes on a stream of its
 own, written by a task, and at most one such writer is ever live.

 The sink knows its writer only through an entry: the state it carries, a cancel handle and a
 done flag the writer shares. The values below index writers in the order they were spawned;
 the classes after them have the real shared flags, and are proved to do the same.
 */
module FrameSink {
  import opened Options

  const MAX_FRAME := 8 * 1024 * 1024

  /**
   How a writer left. It finishes its stream itself only when it has written it all; a task that is
   dropped while it writes drops its stream, which is finished cut short.
   */
  datatype Ending = Delivered | FailedToOpen | FailedToWrite | Reset | CancelledUnopened | Unpolled | CutShort

  datatype Stage = Opening | Writing | Ended(how: Ending)

  /** What made the sink drop a writer's cancel handle. */
  datatype Cause = NewerState(state: nat) | FinalFrame | SinkGone

  datatype Writer = Writer(state: nat, cancelledBy: Option<Cause>, stage: Stage)
  {
    predicate Live() { !stage.Ended? && cancelledBy.None? }
  }

  /** What can happen to a writer's task next. */
  datatype Step = StreamOpened | OpenFailed | WroteAll | WriteFailed | SeesCancel | TaskDropped

  /**
   `entry`: the sink holds an entry, which is always for the newest writer. `sending`: a send
   has read the entry's done flag and not yet decided; the writers run on meanwhile.
   */
  datatype Sink = Sink(writers: seq<Writer>, entry: bool, sending: Option<nat>)
  {
    function Newest(): Writer
      requires writers != []
    {
      writers[|writers| - 1]
    }
  }

  // ---------------------------------------------------------------- the code, on values

  /** The first half of `send_on_stream`: an entry whose writer has stopped is let go of. */
  function Reap(s: Sink): Sink {
    if s.entry && s.writers != [] && s.Newest().stage.Ended? then s.(entry := false) else s
  }

  function CancelEntry(s: Sink, cause: Cause): Sink {
    if s.entry && s.writers != []
    then s.(entry := false, writers := s.writers[|s.writers| - 1 := s.Newest().(cancelledBy := Some(cause))])
    else s
  }

  /** A state this new or newer is already going: the frame is dropped. */
  predicate Refused(s: Sink, state: nat) {
    s.entry && s.writers != [] && state <= s.Newest().state
  }

  /** The second half: supersede an older writer, and spawn one for `state`. */
  function Decide(s: Sink, state: nat): Sink {
    if Refused(s, state) then s
    else
      var s' := CancelEntry(s, NewerState(state));
      s'.(writers := s'.writers + [Writer(state, None, Opening)], entry := true)
  }

  function StepWriter(w: Writer, step: Step): Writer {
    match step
    case StreamOpened => if w.stage.Opening? then w.(stage := Writing) else w
    case OpenFailed => if w.stage.Opening? then w.(stage := Ended(FailedToOpen)) else w
    case WroteAll => if w.stage.Writing? then w.(stage := Ended(Delivered)) else w
    case WriteFailed => if w.stage.Writing? then w.(stage := Ended(FailedToWrite)) else w
    case SeesCancel =>
      if w.cancelledBy.None? then w
      else if w.stage.Opening? then w.(stage := Ended(CancelledUnopened))
      else if w.stage.Writing? then w.(stage := Ended(Reset)) else w
    case TaskDropped =>
      if w.stage.Opening? then w.(stage := Ended(Unpolled))
      else if w.stage.Writing? then w.(stage := Ended(CutShort)) else w
  }

  function WriterRuns(s: Sink, i: nat, step: Step): Sink {
    if i < |s.writers| then s.(writers := s.writers[i := StepWriter(s.writers[i], step)]) else s
  }

  // ---------------------------------------------------------------- every interleaving

  datatype Event =
    | SendBegins(state: nat) | SendDecides  // one `send_on_stream`, with the writers in between
    | SendFinal | SinkDropped
    | Runs(i: nat, step: Step)

  function Next(s: Sink, e: Event): Sink {
    match e
    case SendBegins(state) => if s.sending.Some? then s else Reap(s).(sending := Some(state))
    case SendDecides => if s.sending.None? then s else Decide(s, s.sending.value).(sending := None)
    case SendFinal => if s.sending.Some? then s else CancelEntry(s, FinalFrame)
    case SinkDropped => if s.sending.Some? then s else CancelEntry(s, SinkGone)
    case Runs(i, step) => WriterRuns(s, i, step)
  }

  ghost function Exec(es: seq<Event>): Sink {
    if es == [] then Sink([], false, None) else Next(Exec(es[..|es| - 1]), es[|es| - 1])
  }

  /**
   What "never queue" means of writer `i`: if it is neither done nor cancelled it is the one the
   entry is for; it was cancelled only by a strictly newer state -- that of the very next writer
   -- by the last frame or by the end of the sink; and its stream was reset only for a cancel.
   */
  ghost predicate WriterInv(s: Sink, i: nat)
    requires i < |s.writers|
  {
    var w := s.writers[i];
    && (w.Live() ==> s.entry && i == |s.writers| - 1)
    && (w.stage == Ended(Reset) || w.stage == Ended(CancelledUnopened) ==> w.cancelledBy.Some?)
    && (w.cancelledBy.Some? && w.cancelledBy.value.NewerState? ==>
          i + 1 < |s.writers| && s.writers[i + 1].state == w.cancelledBy.value.state > w.state)
  }

  ghost predicate Inv(s: Sink) {
    && (s.entry ==> s.writers != [] && s.Newest().cancelledBy.None?)
    && (forall i :: 0 <= i < |s.writers| ==> WriterInv(s, i))
  }

  lemma NextKeepsInv(s: Sink, e: Event)
    requires Inv(s)
    ensures Inv(Next(s, e))
  {
    var s' := Next(s, e);
    forall i | 0 <= i < |s'.writers|
      ensures WriterInv(s', i)
    {
      if i < |s.writers| {
        assert WriterInv(s, i);
      }
    }
  }

  lemma {:induction false} InvHolds(es: seq<Event>)
    ensures Inv(Exec(es))
  {
    if es != [] {
      InvHolds(es[..|es| - 1]);
      NextKeepsInv(Exec(es[..|es| - 1]), es[|es| - 1]);
    }
  }

  /**
   In every interleaving of sends with any number of writer tasks, every writer is as
   `WriterInv` says, and at most one of them is live.
   */
  lemma AtMostOneLive(es: seq<Event>, i: nat, j: nat)
    requires i < |Exec(es).writers| && j < |Exec(es).writers|
    ensures WriterInv(Exec(es), i)
    ensures Exec(es).writers[i].Live() && Exec(es).writers[j].Live() ==> i == j
  {
    InvHolds(es);
    assert WriterInv(Exec(es), j);
  }

  /** The entry is retired by its own writer's done flag and by no other writer's. */
  lemma OnlyItsOwnFlagRetires(es: seq<Event>, i: nat, step: Step, state: nat)
    requires var s := Exec(es); i < |s.writers| - 1 && s.entry && s.sending.None?
    ensures var s, s' := Exec(es), Exec(es + [Runs(i, step)]);
      && s'.entry && s'.writers != [] && s'.Newest() == s.Newest()
      && Next(s', SendBegins(state)).entry == Next(s, SendBegins(state)).entry == !s.Newest().stage.Ended?
  {
    assert (es + [Runs(i, step)])[..|es|] == es;
    OtherFlag(Exec(es), i, step, state);
  }

  lemma OtherFlag(s: Sink, i: nat, step: Step, state: nat)
    requires i < |s.writers| - 1 && s.entry && s.sending.None?
    ensures var s' := Next(s, Runs(i, step));
      && s'.entry && s'.writers != [] && s'.Newest() == s.Newest()
      && Next(s', SendBegins(state)).entry == Next(s, SendBegins(state)).entry == !s.Newest().stage.Ended?
  {
  }

  /** The writers alone, while a send is between its two halves. */
  function RunAll(s: Sink, steps: seq<(nat, Step)>): Sink {
    if steps == [] then s else
      WriterRuns(RunAll(s, steps[..|steps| - 1]), steps[|steps| - 1].0, steps[|steps| - 1].1)
  }

  lemma {:induction false} RunAllFrame(s: Sink, steps: seq<(nat, Step)>)
    ensures var r := RunAll(s, steps);
      && r.entry == s.entry && r.sending == s.sending && |r.writers| == |s.writers|
      && forall i :: 0 <= i < |s.writers| ==>
           r.writers[i].state == s.writers[i].state && r.writers[i].cancelledBy == s.writers[i].cancelledBy
  {
    if steps != [] {
      RunAllFrame(s, steps[..|steps| - 1]);
    }
  }

  /**
   Retry exists: whatever the writers do meanwhile, a send spawns a writer for its state if and
   only if the entry -- as its done flag read when the send began -- is not for a state as new.
   So a state whose writer has stopped can be sent again, always.
   */
  lemma SendSpawnsUnlessNewer(s: Sink, state: nat, steps: seq<(nat, Step)>)
    requires Inv(s) && s.sending.None?
    ensures var s' := Next(RunAll(Next(s, SendBegins(state)), steps), SendDecides);
      if s.entry && !s.Newest().stage.Ended? && state <= s.Newest().state
      then |s'.writers| == |s.writers| && s'.entry
      else |s'.writers| == |s.writers| + 1 && s'.entry && s'.Newest() == Writer(state, None, Opening)
  {
    RunAllFrame(Next(s, SendBegins(state)), steps);
  }

  /** `step` is one that a writer as `w` leaves by. */
  ghost predicate Leaves(w: Writer, step: Step) {
    match step
    case StreamOpened => false
    case OpenFailed => w.stage.Opening?
    case TaskDropped => !w.stage.Ended?
    case WroteAll => w.stage.Writing?
    case WriteFailed => w.stage.Writing?
    case SeesCancel => w.cancelledBy.Some? && !w.stage.Ended?
  }

  lemma LeavingIsDone(es: seq<Event>, i: nat, step: Step)
    requires i < |Exec(es).writers|
    ensures var w, s' := Exec(es).writers[i], Exec(es + [Runs(i, step)]);
      && i < |s'.writers|
      && (s'.writers[i].stage.Ended? <==> w.stage.Ended? || Leaves(w, step))
  {
    assert (es + [Runs(i, step)])[..|es|] == es;
  }

  /** What no later event undoes of writer `w`: the state it carries, its end and its cancel. */
  ghost predicate Keeps(w: Writer, w': Writer) {
    && w'.state == w.state
    && (w.stage.Ended? ==> w'.stage == w.stage)
    && (w.stage.Writing? ==> !w'.stage.Opening?)
    && (w.cancelledBy.Some? ==> w'.cancelledBy == w.cancelledBy)
  }

  lemma StepKeeps(s: Sink, e: Event, i: nat)
    requires Inv(s) && i < |s.writers|
    ensures i < |Next(s, e).writers| && Keeps(s.writers[i], Next(s, e).writers[i])
  {
    assert WriterInv(s, i);
  }

  /** Over every run a writer leaves once and is cancelled once, for one cause. */
  lemma {:induction false} LeavesAndCancelsAreFinal(es: seq<Event>, more: seq<Event>, i: nat)
    requires i < |Exec(es).writers|
    ensures i < |Exec(es + more).writers| && Keeps(Exec(es).writers[i], Exec(es + more).writers[i])
  {
    if more == [] {
      assert es + more == es;
    } else {
      var n := |more| - 1;
      LeavesAndCancelsAreFinal(es, more[..n], i);
      assert (es + more)[..|es + more| - 1] == es + more[..n];
      InvHolds(es + more[..n]);
      StepKeeps(Exec(es + more[..n]), more[n], i);
    }
  }

  /** Event `e` makes writer `i` leave in `s`, and so. */
  ghost predicate LeavesAt(s: Sink, e: Event, i: nat, how: Ending) {
    e.Runs? && e.i == i && i < |s.writers| &&
    var w := s.writers[i];
    match how
    case Delivered => e.step.WroteAll? && w.stage.Writing?
    case FailedToOpen => e.step.OpenFailed? && w.stage.Opening?
    case FailedToWrite => e.step.WriteFailed? && w.stage.Writing?
    case Reset => e.step.SeesCancel? && w.cancelledBy.Some? && w.stage.Writing?
    case CancelledUnopened => e.step.SeesCancel? && w.cancelledBy.Some? && w.stage.Opening?
    case Unpolled => e.step.TaskDropped? && w.stage.Opening?
    case CutShort => e.step.TaskDropped? && w.stage.Writing?
  }

  lemma EndStep(s: Sink, e: Event, i: nat, how: Ending)
    requires Inv(s) && i < |Next(s, e).writers|
    ensures Next(s, e).writers[i].stage == Ended(how) <==>
      (i < |s.writers| && s.writers[i].stage == Ended(how)) || LeavesAt(s, e, i, how)
  {
  }

  /** At some point of the run `es` writer `i` left, and so. */
  ghost predicate Left(es: seq<Event>, i: nat, how: Ending) {
    exists k :: 0 <= k < |es| && LeavesAt(Exec(es[..k]), es[k], i, how)
  }

  lemma LeftStep(p: seq<Event>, e: Event, i: nat, how: Ending)
    ensures Left(p + [e], i, how) <==> Left(p, i, how) || LeavesAt(Exec(p), e, i, how)
  {
    var es := p + [e];
    assert es[..|p|] == p && es[|p|] == e;
    assert forall k :: 0 <= k < |p| ==> es[..k] == p[..k] && es[k] == p[k];
    if Left(p, i, how) {
      var k :| 0 <= k < |p| && LeavesAt(Exec(p[..k]), p[k], i, how);
      assert LeavesAt(Exec(es[..k]), es[k], i, how);
    }
    if Left(es, i, how) {
      var k :| 0 <= k < |es| && LeavesAt(Exec(es[..k]), es[k], i, how);
      assert k < |p| ==> LeavesAt(Exec(p[..k]), p[k], i, how);
    }
  }

  /**
   Over every run a writer is done, and in one way, if and only if at some point of the run it left
   that way: delivered by one that had its stream and wrote it all, reset by one that had its stream
   and saw its cancel, and so on. One that is not there yet has not left.
   */
  lemma {:induction false} DoneExactly(es: seq<Event>, i: nat, how: Ending)
    ensures Left(es, i, how) <==> i < |Exec(es).writers| && Exec(es).writers[i].stage == Ended(how)
  {
    if es != [] {
      var p, e := es[..|es| - 1], es[|es| - 1];
      DoneExactly(p, i, how);
      InvHolds(p);
      LeftStep(p, e, i, how);
      assert es == p + [e];
      WritersGrow(Exec(p), e);
      if i < |Exec(es).writers| {
        EndStep(Exec(p), e, i, how);
      }
    }
  }

  lemma WritersGrow(s: Sink, e: Event)
    ensures |s.writers| <= |Next(s, e).writers|
  {
  }

  lemma RetrySteps(s: Sink, state: nat, steps: seq<(nat, Step)>)
    requires Inv(s) && s.sending.None? && s.entry && s.Newest().stage.Ended?
    ensures var s' := Next(RunAll(Next(s, SendBegins(state)), steps), SendDecides);
      && |s'.writers| == |s.writers| + 1 && s'.Newest() == Writer(state, None, Opening)
      && forall i :: 0 <= i < |s.writers| ==> s'.writers[i].cancelledBy == s.writers[i].cancelledBy
  {
    RunAllFrame(Next(s, SendBegins(state)), steps);
  }

  /**
   A frame whose writer left -- its stream refused, its write failed, its task dropped -- is sent
   again by the very next send of the same state or of any other, and nothing is cancelled for it.
   */
  lemma RetryAfterLeaving(es: seq<Event>, step: Step, state: nat, steps: seq<(nat, Step)>)
    requires var s := Exec(es); s.entry && s.writers != [] && s.sending.None? && Leaves(s.Newest(), step)
    ensures var s := Exec(es); var n := |s.writers| - 1;
      var s' := Next(RunAll(Next(Exec(es + [Runs(n, step)]), SendBegins(state)), steps), SendDecides);
      && |s'.writers| == |s.writers| + 1 && s'.Newest() == Writer(state, None, Opening)
      && forall i :: 0 <= i < |s.writers| ==> s'.writers[i].cancelledBy == s.writers[i].cancelledBy
  {
    var s := Exec(es);
    var s1 := Exec(es + [Runs(|s.writers| - 1, step)]);
    LeavingIsDone(es, |s.writers| - 1, step);
    InvHolds(es + [Runs(|s.writers| - 1, step)]);
    assert (es + [Runs(|s.writers| - 1, step)])[..|es|] == es;
    RetrySteps(s1, state, steps);
  }

  lemma NoneLiveAtOnce(es: seq<Event>, last: Event)
    requires Exec(es).sending.None? && (last.SendFinal? || last.SinkDropped?)
    ensures var s := Exec(es + [last]);
      !s.entry && s.sending.None? && forall i :: 0 <= i < |s.writers| ==> !s.writers[i].Live()
  {
    InvHolds(es + [last]);
    assert (es + [last])[..|es|] == es;
    var s := Exec(es + [last]);
    forall i | 0 <= i < |s.writers|
      ensures !s.writers[i].Live()
    {
      assert WriterInv(s, i);
    }
  }

  /** With nothing sent, a sink without an entry stays without one and has no new writer. */
  lemma {:induction false} NothingSent(es: seq<Event>, more: seq<Event>)
    requires !Exec(es).entry && Exec(es).sending.None?
    requires forall k :: 0 <= k < |more| ==> !more[k].SendBegins?
    ensures var s, s' := Exec(es), Exec(es + more);
      !s'.entry && s'.sending.None? && |s'.writers| == |s.writers|
  {
    if more == [] {
      assert es + more == es;
    } else {
      var n := |more| - 1;
      NothingSent(es, more[..n]);
      assert (es + more)[..|es + more| - 1] == es + more[..n];
    }
  }

  /**
   Once the last frame is being sent, or the sink is gone, no writer of before is live at any later
   point of any run; and until something is sent again there is no other.
   */
  lemma NoneLiveAtTheEnd(es: seq<Event>, last: Event, more: seq<Event>)
    requires Exec(es).sending.None? && (last.SendFinal? || last.SinkDropped?)
    ensures var s, s' := Exec(es + [last]), Exec(es + [last] + more);
      && |s.writers| <= |s'.writers| && (forall i :: 0 <= i < |s.writers| ==> !s'.writers[i].Live())
      && ((forall k :: 0 <= k < |more| ==> !more[k].SendBegins?) ==> !s'.entry && |s'.writers| == |s.writers|)
  {
    var s := Exec(es + [last]);
    NoneLiveAtOnce(es, last);
    forall i | 0 <= i < |s.writers|
      ensures i < |Exec(es + [last] + more).writers| && !Exec(es + [last] + more).writers[i].Live()
    {
      LeavesAndCancelsAreFinal(es + [last], more, i);
    }
    if s.writers != [] {
      LeavesAndCancelsAreFinal(es + [last], more, |s.writers| - 1);
    }
    if forall k :: 0 <= k < |more| ==> !more[k].SendBegins? {
      NothingSent(es + [last], more);
    }
  }

  // ---------------------------------------------------------------- the code, in place

  /** The done flag: one writer sets it, however it leaves; one entry reads it. */
  class DoneFlag {
    var up: bool

    constructor ()
      ensures !up
    {
      up := false;
    }
  }

  /** The cancel handle. `cause` is why the sink let go of it, while it has. */
  class Cancel {
    var dropped: bool
    ghost var cause: Option<Cause>

    constructor ()
      ensures !dropped && cause == None
    {
      dropped, cause := false, None;
    }
  }

  class WriterTask {
    const state: nat
    const done: DoneFlag
    const cancel: Cancel
    var stage: Stage

    constructor (state: nat, done: DoneFlag, cancel: Cancel)
      ensures this.state == state && this.done == done && this.cancel == cancel && stage == Opening
    {
      this.state, this.done, this.cancel, stage := state, done, cancel, Opening;
    }

    ghost function View(): Writer
      reads this, cancel
    {
      Writer(state, cancel.cause, stage)
    }

    /** One step of the task; leaving sets the flag, wherever it leaves from. */
    method Run(step: Step)
      requires done.up == stage.Ended? && cancel.dropped == cancel.cause.Some?
      modifies this, done
      ensures View() == StepWriter(old(View()), step) && done.up == stage.Ended?
    {
      match (step, stage) {
      case (StreamOpened, Opening) => stage := Writing;
      case (OpenFailed, Opening) => stage := Ended(FailedToOpen);
      case (WroteAll, Writing) => stage := Ended(Delivered);
      case (WriteFailed, Writing) => stage := Ended(FailedToWrite);
      case (TaskDropped, Opening) => stage := Ended(Unpolled);
      case (TaskDropped, Writing) => stage := Ended(CutShort);
      case (SeesCancel, Opening) =>
        if cancel.dropped {
          stage := Ended(CancelledUnopened);
        }
      case (SeesCancel, Writing) =>
        if cancel.dropped {
          stage := Ended(Reset);
        }
      case _ =>
      }
      if stage.Ended? {
        done.up := true;
      }
    }
  }

  datatype Outcome = Datagram(bytes: nat) | Stream(bytes: nat, superseded: bool) | DatagramsDisabled | Dropped

  datatype InFlight = InFlight(myState: nat, cancel: Cancel, done: DoneFlag)

  class StreamSink {
    var inFlight: Option<InFlight>
    /** Every task ever spawned. The sink itself keeps none of them. */
    ghost var tasks: seq<WriterTask>

    ghost predicate Valid()
      reads this, tasks, set t | t in tasks :: t.done, set t | t in tasks :: t.cancel
    {
      && (forall i, j :: 0 <= i < j < |tasks| ==>
            tasks[i] != tasks[j] && tasks[i].done != tasks[j].done && tasks[i].cancel != tasks[j].cancel)
      && (forall t :: t in tasks ==> t.done.up == t.stage.Ended? && t.cancel.dropped == t.cancel.cause.Some?)
      && (inFlight.Some? ==>
            && tasks != []
            && var newest := tasks[|tasks| - 1];
               inFlight.value == InFlight(newest.state, newest.cancel, newest.done))
    }

    ghost function View(): Sink
      reads this, tasks, set t | t in tasks :: t.cancel
    {
      var ts := tasks;
      Sink(seq(|ts|, i requires 0 <= i < |ts| reads ts, set t | t in ts :: t.cancel => ts[i].View()),
           inFlight.Some?, None)
    }

    constructor ()
      ensures Valid() && View() == Sink([], false, None)
    {
      inFlight, tasks := None, [];
    }

    method ReapEntry()
      requires Valid()
      modifies this`inFlight
      ensures Valid() && View() == Reap(old(View()))
      ensures inFlight.Some? ==> inFlight == old(inFlight)
    {
      if inFlight.Some? && inFlight.value.done.up {
        inFlight := None;
      }
    }

    /** Drop the entry and its cancel handle with it. */
    method DropEntry(ghost cause: Cause)
      requires Valid()
      modifies this`inFlight, if inFlight.Some? then {inFlight.value.cancel} else {}
      ensures Valid() && View() == CancelEntry(old(View()), cause)
    {
      match inFlight {
        case None =>
        case Some(older) =>
          older.cancel.dropped := true;
          older.cancel.cause := Some(cause);
          inFlight := None;
      }
    }

    method Spawn(myState: nat)
      requires Valid() && inFlight == None
      modifies this
      ensures Valid()
      ensures View() == Sink(old(View().writers) + [Writer(myState, None, Opening)], true, None)
    {
      var cancel := new Cancel();
      var done := new DoneFlag();
      var task := new WriterTask(myState, done, cancel);
      tasks := tasks + [task];
      inFlight := Some(InFlight(myState, cancel, done));
    }

    /** Returns whether a writer was spawned and whether it superseded one. */
    method SendOnStream(myState: nat) returns (spawned: bool, superseded: bool)
      requires Valid()
      modifies this, if inFlight.Some? then {inFlight.value.cancel} else {}
      ensures Valid() && View() == Decide(Reap(old(View())), myState)
      ensures spawned <==> !Refused(Reap(old(View())), myState)
      ensures superseded <==> spawned && Reap(old(View())).entry
    {
      ReapEntry();
      superseded := inFlight.Some?;
      if superseded {
        if myState <= inFlight.value.myState {
          return false, false;
        }
        DropEntry(NewerState(myState));
      }
      Spawn(myState);
      spawned := true;
    }

    /**
     `send`: a frame of `encoded` bytes by size, with the path's datagram limit as it is now. The
     writers are touched for a frame too big for a datagram and for no other.
     */
    method Send(encoded: Option<nat>, myState: nat, limit: Option<nat>, taken: bool) returns (o: Outcome)
      requires Valid()
      modifies this, if inFlight.Some? then {inFlight.value.cancel} else {}
      ensures Valid()
      ensures encoded.Some? && limit.Some? && limit.value < encoded.value <= MAX_FRAME ==>
        && View() == Decide(Reap(old(View())), myState)
        && (o.Stream? <==> !Refused(Reap(old(View())), myState))
        && (o.Stream? ==> o.bytes == encoded.value && o.superseded == Reap(old(View())).entry)
      ensures !(encoded.Some? && limit.Some? && limit.value < encoded.value <= MAX_FRAME) ==>
        View() == old(View()) && !o.Stream?
      ensures o.DatagramsDisabled? <==> encoded.Some? && encoded.value <= MAX_FRAME && limit.None?
      ensures o.Datagram? ==> encoded == Some(o.bytes) && limit.Some? && o.bytes <= limit.value && taken
    {
      if encoded.None? || encoded.value > MAX_FRAME {
        return Dropped;
      }
      var n := encoded.value;
      if limit.None? {
        return DatagramsDisabled;
      }
      if n <= limit.value {
        return if taken then Datagram(n) else Dropped;
      }
      var spawned, superseded := SendOnStream(myState);
      o := if spawned then Stream(n, superseded) else Dropped;
    }

    /** `send_final`: whatever is still being written is older, and is reset. */
    method LetGoForFinal() returns (superseded: bool)
      requires Valid()
      modifies this`inFlight, if inFlight.Some? then {inFlight.value.cancel} else {}
      ensures Valid() && View() == CancelEntry(old(View()), FinalFrame)
      ensures superseded <==> old(View().entry && View().writers != [] && !View().Newest().stage.Ended?)
    {
      superseded := inFlight.Some? && !inFlight.value.done.up;
      DropEntry(FinalFrame);
    }

    /** Task `i` runs a step: nothing the sink reads of any other task moves. */
    method RunTask(i: nat, step: Step, task: WriterTask)
      requires Valid() && i < |tasks| && tasks[i] == task
      modifies task, task.done
      ensures Valid() && View() == WriterRuns(old(View()), i, step)
    {
      task.Run(step);
    }
  }
}
