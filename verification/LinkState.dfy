/**
 The client's judgement of its link (src/linkstate.rs), and the loop's use of it
 (src/session.rs): when silence is an outage, when a rebuild starts and how attempts are
 spaced, and what happens to keys typed blind. Times and durations are in nanoseconds.
 */
module LinkState {
  import opened Bytes
  import opened Options

  const SECOND := 1_000_000_000
  const SILENT_AFTER := 2 * SECOND
  const REBUILD_AFTER := 20 * SECOND
  const HEARTBEAT_IDLE := 5 * SECOND
  const MAX_HELD := 64 * 1024
  const U32_MAX := 0xFFFF_FFFF

  datatype Phase = Live | Silent(since: int) | Recovering(attempt: nat, nextTry: int) | Confirming
  {
    predicate IsOutage() { Silent? || Recovering? }
  }

  datatype Link = Link(
    phase: Phase, lastHeard: int, owedSince: Option<int>, lastSent: int,
    held: seq<Byte>, silentAfter: nat, rebuildAfter: nat)

  // ---------------------------------------------------------------- the code, on values

  /** `Instant::duration_since`: never negative. */
  function Elapsed(now: int, since: int): nat {
    if now < since then 0 else now - since
  }

  function Max(a: int, b: int): int {
    if a < b then b else a
  }

  /** 1, 2, 4, 8 seconds, and 8 for ever after. */
  function Backoff(attempt: nat): nat {
    SECOND * (match attempt case 0 => 1 case 1 => 2 case 2 => 4 case _ => 8)
  }

  function New(now: int): Link {
    Link(Live, now, None, now, [], SILENT_AFTER, REBUILD_AFTER)
  }

  function Heard(s: Link, now: int): Link {
    s.(lastHeard := now, owedSince := None, phase := if s.held == [] then Live else Confirming)
  }

  predicate HeartbeatDue(s: Link, now: int) {
    Elapsed(now, Max(s.lastHeard, s.lastSent)) >= HEARTBEAT_IDLE
  }

  function Evaluate(s: Link, now: int, replyOwed: bool): Link {
    match s.phase
    case Recovering(_, _) => s
    case Silent(since) =>
      if Elapsed(now, since) >= s.rebuildAfter then s.(phase := Recovering(0, now)) else s
    case _ =>
      var owed := if !replyOwed then None else if s.owedSince.None? then Some(now) else s.owedSince;
      var s' := s.(owedSince := owed);
      if owed.Some? && Elapsed(now, owed.value) >= s.silentAfter then s'.(phase := Silent(s.lastHeard)) else s'
  }

  function BeginAttempt(s: Link, now: int): Link {
    if s.phase.Recovering? then s.(phase := Recovering(s.phase.attempt, now + Backoff(s.phase.attempt))) else s
  }

  function Rebuilt(s: Link, now: int): Link {
    if s.phase.Recovering? then s.(phase := Recovering(0, now + Backoff(0))) else s
  }

  function AttemptFailed(s: Link, now: int): Link {
    if s.phase.Recovering? then
      var next := if s.phase.attempt < U32_MAX then s.phase.attempt + 1 else s.phase.attempt;
      s.(phase := Recovering(next, now + Backoff(next)))
    else s
  }

  function FirstBytes(bytes: seq<Byte>, n: nat): seq<Byte> {
    if |bytes| <= n then bytes else bytes[..n]
  }

  function HoldKeys(s: Link, bytes: seq<Byte>): Link {
    s.(held := s.held + FirstBytes(bytes, if |s.held| < MAX_HELD then MAX_HELD - |s.held| else 0))
  }

  // ---------------------------------------------------------------- the code, in place

  class LinkJudge {
    var phase: Phase
    var lastHeard: int
    var owedSince: Option<int>
    var lastSent: int
    var held: seq<Byte>
    var silentAfter: nat
    var rebuildAfter: nat

    ghost function View(): Link
      reads this
    {
      Link(phase, lastHeard, owedSince, lastSent, held, silentAfter, rebuildAfter)
    }

    constructor (now: int)
      ensures View() == New(now)
    {
      phase, lastHeard, owedSince, lastSent, held := Live, now, None, now, [];
      silentAfter, rebuildAfter := SILENT_AFTER, REBUILD_AFTER;
    }

    method NoteHeard(now: int)
      modifies this
      ensures View() == Heard(old(View()), now)
    {
      lastHeard := now;
      owedSince := None;
      phase := if held == [] then Live else Confirming;
    }

    method NoteSent(now: int)
      modifies this
      ensures View() == old(View()).(lastSent := now)
    {
      lastSent := now;
    }

    method Retune(silentAfter: nat, rebuildAfter: nat)
      modifies this
      ensures View() == old(View()).(silentAfter := silentAfter, rebuildAfter := rebuildAfter)
    {
      this.silentAfter, this.rebuildAfter := silentAfter, rebuildAfter;
    }

    method IsHeartbeatDue(now: int) returns (due: bool)
      ensures due <==> HeartbeatDue(View(), now)
    {
      var quietSince := Max(lastHeard, lastSent);
      due := Elapsed(now, quietSince) >= HEARTBEAT_IDLE;
    }

    method EvaluateNow(now: int, replyOwed: bool) returns (p: Phase)
      modifies this
      ensures View() == Evaluate(old(View()), now, replyOwed) && p == phase
    {
      if phase.Recovering? {
        return phase;
      }
      if phase.Silent? {
        if Elapsed(now, phase.since) >= rebuildAfter {
          phase := Recovering(0, now);
        }
        return phase;
      }
      if replyOwed && owedSince.None? {
        owedSince := Some(now);
      } else if !replyOwed {
        owedSince := None;
      }
      if owedSince.Some? && Elapsed(now, owedSince.value) >= silentAfter {
        phase := Silent(lastHeard);
      }
      return phase;
    }

    method NoteAttemptBegun(now: int)
      modifies this
      ensures View() == BeginAttempt(old(View()), now)
    {
      if phase.Recovering? {
        phase := phase.(nextTry := now + Backoff(phase.attempt));
      }
    }

    method NoteRebuilt(now: int)
      modifies this
      ensures View() == Rebuilt(old(View()), now)
    {
      if phase.Recovering? {
        phase := Recovering(0, now + Backoff(0));
      }
    }

    method NoteAttemptFailed(now: int)
      modifies this
      ensures View() == AttemptFailed(old(View()), now)
    {
      if phase.Recovering? {
        var next := if phase.attempt < U32_MAX then phase.attempt + 1 else phase.attempt;
        phase := Recovering(next, now + Backoff(next));
      }
    }

    method Hold(bytes: seq<Byte>)
      modifies this
      ensures View() == HoldKeys(old(View()), bytes)
    {
      var room := if |held| < MAX_HELD then MAX_HELD - |held| else 0;
      held := held + FirstBytes(bytes, room);
    }

    method TakeHeld() returns (bytes: seq<Byte>)
      modifies this
      ensures bytes == old(held) && View() == old(View()).(phase := Live, held := [])
    {
      phase := Live;
      bytes := held;
      held := [];
    }

    method DropHeld()
      modifies this
      ensures View() == old(View()).(phase := Live, held := [])
    {
      held := [];
      phase := Live;
    }
  }

  // ---------------------------------------------------------------- the client's loop

  /** What the loop did that the link is judged by: a lap, with a reply owed or not, or a frame. */
  datatype Mark = LapMark(at: int, owed: bool) | FrameMark(at: int)

  /**
   `owing`: the host has not acknowledged everything sent; a host acknowledges only what it was
   sent, and a new session, like a new link, owes a reply to its first state. `running`: a rebuild
   attempt is in flight. The rest is history: when the last lap was, every lap and frame, when the outage was
   noticed, the first attempt since the schedule last began and the failures since, the last
   attempt of all, every byte offered to the held buffer since it was last emptied, and what was
   delivered of it each time it was taken.
   */
  datatype Client = Client(
    link: Link, clock: int, lastLap: int, owing: bool, running: bool,
    trace: seq<Mark>, noticed: int, firstStart: Option<int>, fails: nat, lastStart: Option<int>,
    offered: seq<Byte>, delivered: seq<seq<Byte>>)

  datatype Op =
    | Frame(acksAll: bool)
    | Types                              // input or a resize: sent, but not noted as sent
    | Lap
    | AttemptFails | AttemptCancelled
    | LinkLands(stale: bool)             // a rebuilt link, or the standby, swapped in
    | Keys(bytes: seq<Byte>) | TakeHeld | DropHeld
    | Retune(silentAfter: nat, rebuildAfter: nat)

  /** `dt` nanoseconds after the event before it. */
  datatype Event = Event(dt: nat, op: Op)

  function Start(now: int): Client {
    Client(New(now), now, now, true, false, [], now, None, 0, None, [], [])
  }

  /** The end of a lap (src/session.rs, `rebuild_step`): an attempt that is due starts. */
  function StartAttempt(c: Client): Client {
    var now := c.clock;
    if !c.link.phase.Recovering? then c.(running := false)
    else if c.running || now < c.link.phase.nextTry then c
    else c.(link := BeginAttempt(c.link, now), running := true, lastStart := Some(now),
            firstStart := if c.firstStart.None? then Some(now) else c.firstStart)
  }

  /** The beginning of a lap: the phase is decided, and a heartbeat sent if one is due. */
  function Judge(c: Client): Client {
    var now := c.clock;
    var link := Evaluate(c.link, now, c.owing);
    var noticed := if link.phase.Silent? && !c.link.phase.Silent? then now else c.noticed;
    var beat := HeartbeatDue(link, now);
    c.(link := if beat then link.(lastSent := now) else link,
       owing := c.owing || beat, lastLap := now, noticed := noticed, trace := c.trace + [LapMark(now, c.owing)])
  }

  function DoLap(c: Client): Client {
    StartAttempt(Judge(c))
  }

  function Do(c: Client, op: Op): Client {
    var now := c.clock;
    match op
    case Frame(acksAll) =>
      c.(link := Heard(c.link, now), owing := c.owing && !acksAll, trace := c.trace + [FrameMark(now)],
         firstStart := None, fails := 0)
    case Types => c.(owing := true)
    case Lap => DoLap(c)
    case AttemptFails =>
      if !c.running then c
      else c.(link := AttemptFailed(c.link, now), running := false,
              fails := if c.firstStart.Some? then c.fails + 1 else c.fails)
    case AttemptCancelled => c.(running := false)
    case LinkLands(stale) =>
      c.(link := Rebuilt(c.link, now), running := c.running && stale, owing := true, firstStart := None, fails := 0)
    case Keys(bytes) => c.(link := HoldKeys(c.link, bytes), offered := c.offered + bytes)
    case TakeHeld =>
      if c.link.phase.Confirming?
      then c.(link := c.link.(phase := Live, held := []), owing := c.owing || c.link.held != [],
              offered := [], delivered := c.delivered + [c.link.held])
      else c
    case DropHeld =>
      if c.link.phase.Confirming? then c.(link := c.link.(phase := Live, held := []), offered := []) else c
    case Retune(sa, ra) => c.(link := c.link.(silentAfter := sa, rebuildAfter := ra))
  }

  function Tick(c: Client, dt: nat): Client {
    c.(clock := c.clock + dt)
  }

  function Next(c: Client, e: Event): Client {
    Do(Tick(c, e.dt), e.op)
  }

  ghost function Exec(start: int, es: seq<Event>): Client {
    if es == [] then Start(start) else Next(Exec(start, es[..|es| - 1]), es[|es| - 1])
  }

  // ---------------------------------------------------------------- an outage is never wrong

  /** A reply has been owed on every lap since the one at `since`, and nothing was heard. */
  ghost predicate OwedEverSince(trace: seq<Mark>, since: int) {
    exists k :: 0 <= k < |trace| && trace[k] == LapMark(since, true) &&
      forall j :: k <= j < |trace| ==> trace[j].LapMark? && trace[j].owed
  }

  function MarkOf(c: Client, op: Op): seq<Mark> {
    match op
    case Frame(_) => [FrameMark(c.clock)]
    case Lap => [LapMark(c.clock, c.owing)]
    case _ => []
  }

  /** Every lap of the run `es`, with whether a reply was owed on it, and every frame. */
  ghost function Marks(start: int, es: seq<Event>): seq<Mark> {
    if es == [] then []
    else
      var p, e := es[..|es| - 1], es[|es| - 1];
      Marks(start, p) + MarkOf(Tick(Exec(start, p), e.dt), e.op)
  }

  lemma LapIsMarked(c: Client)
    ensures DoLap(c).trace == c.trace + MarkOf(c, Lap)
  {
  }

  lemma OtherIsMarked(c: Client, op: Op)
    requires !op.Lap?
    ensures Do(c, op).trace == c.trace + MarkOf(c, op)
  {
  }

  lemma {:induction false} TraceIsTheRun(start: int, es: seq<Event>)
    ensures Exec(start, es).trace == Marks(start, es)
  {
    if es != [] {
      TraceIsTheRun(start, es[..|es| - 1]);
      var c, op := Tick(Exec(start, es[..|es| - 1]), es[|es| - 1].dt), es[|es| - 1].op;
      if op.Lap? {
        LapIsMarked(c);
      } else {
        OtherIsMarked(c, op);
      }
    }
  }

  lemma OwedGoesOn(trace: seq<Mark>, since: int, at: int)
    requires OwedEverSince(trace, since)
    ensures OwedEverSince(trace + [LapMark(at, true)], since)
  {
    var k :| 0 <= k < |trace| && trace[k] == LapMark(since, true) &&
      forall j :: k <= j < |trace| ==> trace[j].LapMark? && trace[j].owed;
    assert (trace + [LapMark(at, true)])[k] == LapMark(since, true);
  }

  lemma OwedBegins(trace: seq<Mark>, at: int)
    ensures OwedEverSince(trace + [LapMark(at, true)], at)
  {
    assert (trace + [LapMark(at, true)])[|trace|] == LapMark(at, true);
  }

  ghost predicate Sound(c: Client) {
    && c.link.lastHeard <= c.clock
    && (c.link.phase.Silent? ==> c.link.phase.since == c.link.lastHeard)
    && (!c.link.phase.IsOutage() && c.link.owedSince.Some? ==>
          OwedEverSince(c.trace, c.link.owedSince.value) && c.link.owedSince.value <= c.clock)
  }

  lemma LapKeepsSound(c: Client)
    requires Sound(c)
    ensures Sound(DoLap(c))
  {
    if !c.link.phase.IsOutage() && c.owing {
      if c.link.owedSince.Some? {
        OwedGoesOn(c.trace, c.link.owedSince.value, c.clock);
      } else {
        OwedBegins(c.trace, c.clock);
      }
    }
  }

  lemma OtherKeepsSound(c: Client, op: Op)
    requires Sound(c) && !op.Lap?
    ensures Sound(Do(c, op))
  {
  }

  lemma TickKeepsSound(c: Client, dt: nat)
    requires Sound(c)
    ensures Sound(Tick(c, dt))
  {
  }

  lemma StepKeepsSound(c: Client, e: Event)
    requires Sound(c)
    ensures Sound(Next(c, e))
  {
    TickKeepsSound(c, e.dt);
    if e.op.Lap? {
      LapKeepsSound(Tick(c, e.dt));
    } else {
      OtherKeepsSound(Tick(c, e.dt), e.op);
    }
  }

  lemma {:induction false} SoundHolds(start: int, es: seq<Event>)
    ensures Sound(Exec(start, es))
  {
    if es != [] {
      SoundHolds(start, es[..|es| - 1]);
      StepKeepsSound(Exec(start, es[..|es| - 1]), es[|es| - 1]);
    }
  }

  /** A step from `c` to `c'` that may change the phase only for a reason, `marks` being the run's laps and frames. */
  ghost predicate Warranted(c: Client, op: Op, c': Client, marks: seq<Mark>) {
    && (c'.link.phase.Silent? ==> c'.link.phase.since == c'.link.lastHeard)
    && (!c.link.phase.IsOutage() && c'.link.phase.IsOutage() ==>
          && op.Lap? && c'.link.phase.Silent?
          && exists since :: OwedEverSince(marks, since) && c'.clock - since >= c'.link.silentAfter)
    && (!c.link.phase.Recovering? && c'.link.phase.Recovering? ==>
          op.Lap? && c.link.phase.Silent? && c'.clock - c'.link.lastHeard >= c'.link.rebuildAfter)
    && (c.link.phase.IsOutage() && !c'.link.phase.IsOutage() ==> op.Frame?)
  }

  lemma LapWarranted(c: Client)
    requires Sound(c)
    ensures Warranted(c, Lap, DoLap(c), DoLap(c).trace)
  {
    if !c.link.phase.IsOutage() && c.owing {
      if c.link.owedSince.Some? {
        OwedGoesOn(c.trace, c.link.owedSince.value, c.clock);
      } else {
        OwedBegins(c.trace, c.clock);
      }
    }
  }

  lemma OtherWarranted(c: Client, op: Op)
    requires Sound(c) && !op.Lap?
    ensures Warranted(c, op, Do(c, op), Do(c, op).trace)
  {
  }

  /**
   Over every history: an outage is declared only by a lap, and only after a reply has been
   owed on every lap for at least `silentAfter` with nothing heard; its clock is always the last
   frame's; a rebuild is due only after an earlier lap already called it an outage and
   `rebuildAfter` has passed since the last frame; and nothing but a frame ends an outage.
   */
  lemma JudgementSound(start: int, es: seq<Event>, e: Event)
    ensures Warranted(Tick(Exec(start, es), e.dt), e.op, Exec(start, es + [e]), Marks(start, es + [e]))
  {
    TraceIsTheRun(start, es + [e]);
    assert (es + [e])[..|es|] == es;
    SoundHolds(start, es);
    TickKeepsSound(Exec(start, es), e.dt);
    if e.op.Lap? {
      LapWarranted(Tick(Exec(start, es), e.dt));
    } else {
      OtherWarranted(Tick(Exec(start, es), e.dt), e.op);
    }
  }

  lemma RetunedLap(c: Client, dt: nat, silentAfter: nat, rebuildAfter: nat, gap: nat)
    requires Sound(c)
    ensures var c' := Next(Next(c, Event(dt, Retune(silentAfter, rebuildAfter))), Event(gap, Lap));
      && (c.link.phase.Silent? ==>
            (c'.link.phase.Recovering? <==> c'.clock - c.link.lastHeard >= rebuildAfter))
      && (!c.link.phase.IsOutage() && c.owing && c.link.owedSince.Some? ==>
            (c'.link.phase.Silent? <==> c'.clock - c.link.owedSince.value >= silentAfter))
  {
  }

  /** New timings act on the very next lap, on silence already under way too. */
  lemma RetuneActsAtOnce(start: int, es: seq<Event>, dt: nat, silentAfter: nat, rebuildAfter: nat, gap: nat)
    ensures var c := Exec(start, es);
      var c' := Exec(start, es + [Event(dt, Retune(silentAfter, rebuildAfter))] + [Event(gap, Lap)]);
      && (c.link.phase.Silent? ==>
            (c'.link.phase.Recovering? <==> c'.clock - c.link.lastHeard >= rebuildAfter))
      && (!c.link.phase.IsOutage() && c.owing && c.link.owedSince.Some? ==>
            (c'.link.phase.Silent? <==> c'.clock - c.link.owedSince.value >= silentAfter))
  {
    var retune := Event(dt, Retune(silentAfter, rebuildAfter));
    SoundHolds(start, es);
    assert (es + [retune])[..|es|] == es;
    assert (es + [retune] + [Event(gap, Lap)])[..|es| + 1] == es + [retune];
    RetunedLap(Exec(start, es), dt, silentAfter, rebuildAfter, gap);
  }

  // ---------------------------------------------------------------- an outage is noticed in time

  /**
   The loop keeps its promises in `es`: laps are at most `delta` apart, and the timings stay
   within `silent` and `rebuild`.
   */
  ghost predicate Paced(start: int, es: seq<Event>, delta: nat, silent: nat, rebuild: nat) {
    es == [] ||
    var c, e := Exec(start, es[..|es| - 1]), es[|es| - 1];
    && Paced(start, es[..|es| - 1], delta, silent, rebuild)
    && c.clock + e.dt <= c.lastLap + delta
    && (e.op.Retune? ==> e.op.silentAfter <= silent && e.op.rebuildAfter <= rebuild)
  }

  ghost predicate Timely(c: Client, delta: nat, silent: nat, rebuild: nat) {
    var h := c.link.lastHeard;
    && c.link.silentAfter <= silent && c.link.rebuildAfter <= rebuild
    && c.lastLap <= c.clock <= c.lastLap + delta
    && h <= c.clock && c.link.lastSent <= c.clock
    && (c.link.phase.Silent? ==> c.link.phase.since == h)
    && (!c.owing ==> c.link.lastSent <= h && c.lastLap < h + HEARTBEAT_IDLE)
    && (c.link.phase.IsOutage() ==> c.owing)
    && (!c.link.phase.IsOutage() ==>
          match c.link.owedSince
          case None => c.lastLap < h + HEARTBEAT_IDLE + delta
          case Some(o) => c.owing && o <= c.lastLap < o + silent && o < h + HEARTBEAT_IDLE + 2 * delta)
    && (c.link.phase.Silent? ==>
          c.lastLap < h + rebuild || (c.lastLap == c.noticed < h + HEARTBEAT_IDLE + silent + 3 * delta))
  }

  lemma JudgeKeepsTimely(c: Client, delta: nat, silent: nat, rebuild: nat)
    requires Timely(c, delta, silent, rebuild)
    ensures Timely(Judge(c), delta, silent, rebuild)
  {
    var now, h := c.clock, c.link.lastHeard;
    assert now < h + HEARTBEAT_IDLE + delta || c.owing;
    if !c.link.phase.IsOutage() && c.owing {
      assert c.link.owedSince.None? ==> now < h + HEARTBEAT_IDLE + 2 * delta;
      assert c.link.owedSince.Some? ==> now < h + HEARTBEAT_IDLE + silent + 3 * delta;
    }
  }

  lemma StartKeepsTimely(c: Client, delta: nat, silent: nat, rebuild: nat)
    requires Timely(c, delta, silent, rebuild)
    ensures Timely(StartAttempt(c), delta, silent, rebuild)
  {
  }

  lemma TickKeepsTimely(c: Client, dt: nat, delta: nat, silent: nat, rebuild: nat)
    requires Timely(c, delta, silent, rebuild) && c.clock + dt <= c.lastLap + delta
    ensures Timely(Tick(c, dt), delta, silent, rebuild)
  {
  }

  lemma StepKeepsTimely(c: Client, e: Event, delta: nat, silent: nat, rebuild: nat)
    requires Timely(c, delta, silent, rebuild) && c.clock + e.dt <= c.lastLap + delta
    requires e.op.Retune? ==> e.op.silentAfter <= silent && e.op.rebuildAfter <= rebuild
    ensures Timely(Next(c, e), delta, silent, rebuild)
  {
    TickKeepsTimely(c, e.dt, delta, silent, rebuild);
    var c1 := Tick(c, e.dt);
    if e.op.Lap? {
      JudgeKeepsTimely(c1, delta, silent, rebuild);
      StartKeepsTimely(Judge(c1), delta, silent, rebuild);
    } else {
      OtherKeepsTimely(c1, e.op, delta, silent, rebuild);
    }
  }

  lemma OtherKeepsTimely(c: Client, op: Op, delta: nat, silent: nat, rebuild: nat)
    requires Timely(c, delta, silent, rebuild) && !op.Lap?
    requires op.Retune? ==> op.silentAfter <= silent && op.rebuildAfter <= rebuild
    ensures Timely(Do(c, op), delta, silent, rebuild)
  {
  }

  lemma {:induction false} TimelyHolds(start: int, es: seq<Event>, delta: nat, silent: nat, rebuild: nat)
    requires SILENT_AFTER <= silent && REBUILD_AFTER <= rebuild && Paced(start, es, delta, silent, rebuild)
    ensures Timely(Exec(start, es), delta, silent, rebuild)
  {
    if es != [] {
      TimelyHolds(start, es[..|es| - 1], delta, silent, rebuild);
      StepKeepsTimely(Exec(start, es[..|es| - 1]), es[|es| - 1], delta, silent, rebuild);
    }
  }

  /**
   Detection has a bound. With laps at most `delta` apart, a heartbeat sent whenever due and
   every send leaving a reply owed, a host last heard at `h` is in an outage by `h` plus
   HEARTBEAT_IDLE, the silence allowed and three laps; and a rebuild is under way within one lap
   of the later of that and `h` plus the rebuild delay.
   */
  lemma DetectionBound(start: int, es: seq<Event>, delta: nat, silent: nat, rebuild: nat)
    requires SILENT_AFTER <= silent && REBUILD_AFTER <= rebuild && Paced(start, es, delta, silent, rebuild)
    ensures var c := Exec(start, es); var noticedBy := c.link.lastHeard + HEARTBEAT_IDLE + silent + 3 * delta;
      && (c.clock >= noticedBy ==> c.link.phase.IsOutage())
      && (c.clock >= Max(noticedBy, c.link.lastHeard + rebuild) + delta ==> c.link.phase.Recovering?)
  {
    TimelyHolds(start, es, delta, silent, rebuild);
  }

  // ---------------------------------------------------------------- the retry schedule

  function Pow2(n: nat): nat {
    if n == 0 then 1 else 2 * Pow2(n - 1)
  }

  /** The waits before the attempt that follows `n` failures, the k-th of them min(2^k, 8) s. */
  function Waits(n: nat): nat {
    if n == 0 then 0 else Waits(n - 1) + SECOND * (if Pow2(n) < 8 then Pow2(n) else 8)
  }

  lemma {:induction false} PowAtLeast8(n: nat)
    requires 3 <= n
    ensures 8 <= Pow2(n)
  {
    if n == 3 {
      assert Pow2(1) == 2 && Pow2(2) == 4;
    } else {
      PowAtLeast8(n - 1);
    }
  }

  lemma BackoffIsCappedDoubling(n: nat)
    ensures Backoff(n) == SECOND * if Pow2(n) < 8 then Pow2(n) else 8
  {
    if 3 <= n {
      PowAtLeast8(n);
    } else {
      assert Pow2(0) == 1 && Pow2(1) == 2 && Pow2(2) == 4;
    }
  }

  lemma BackoffMonotone(a: nat, b: nat)
    requires a <= b || 3 <= b
    ensures SECOND <= Backoff(a) <= Backoff(b)
  {
  }

  ghost predicate Scheduled(c: Client) {
    && c.link.lastHeard <= c.clock
    && (c.link.phase.Silent? ==> c.link.phase.since == c.link.lastHeard && !c.running)
    && (c.lastStart.Some? ==> c.lastStart.value <= c.clock)
    && (!c.link.phase.Recovering? && c.lastStart.Some? ==> c.lastStart.value <= c.link.lastHeard)
    && (!c.link.phase.Recovering? ==> c.firstStart.None? && c.fails == 0)
    && SECOND <= c.link.rebuildAfter
    && (c.link.phase.Recovering? ==>
          && (c.lastStart.Some? ==> c.link.phase.nextTry >= c.lastStart.value + SECOND)
          && (c.firstStart.Some? ==>
                && (c.fails <= c.link.phase.attempt || U32_MAX <= c.link.phase.attempt)
                && c.link.phase.nextTry >= c.firstStart.value + Waits(c.fails)
                && c.lastStart.Some? && c.lastStart.value >= c.firstStart.value
                && (c.running ==> c.lastStart.value >= c.firstStart.value + Waits(c.fails)))
          && (c.firstStart.None? ==> c.fails == 0))
  }

  lemma FailureKeepsScheduled(c: Client)
    requires Scheduled(c)
    ensures Scheduled(Do(c, AttemptFails))
  {
    if c.running && c.link.phase.Recovering? {
      BackoffMonotone(0, Do(c, AttemptFails).link.phase.attempt);
      BackoffMonotone(c.fails + 1, Do(c, AttemptFails).link.phase.attempt);
      BackoffIsCappedDoubling(c.fails + 1);
    }
  }

  lemma LapKeepsScheduled(c: Client)
    requires Scheduled(c)
    ensures Scheduled(DoLap(c))
  {
    var c1 := Judge(c);
    if c1.link.phase.Recovering? {
      BackoffMonotone(0, c1.link.phase.attempt);
    }
  }

  lemma OtherKeepsScheduled(c: Client, op: Op)
    requires Scheduled(c) && !op.Lap? && !op.AttemptFails? && (op.Retune? ==> SECOND <= op.rebuildAfter)
    ensures Scheduled(Do(c, op))
  {
  }

  lemma TickKeepsScheduled(c: Client, dt: nat)
    requires Scheduled(c)
    ensures Scheduled(Tick(c, dt))
  {
  }

  lemma StepKeepsScheduled(c: Client, e: Event)
    requires Scheduled(c) && (e.op.Retune? ==> SECOND <= e.op.rebuildAfter)
    ensures Scheduled(Next(c, e))
  {
    TickKeepsScheduled(c, e.dt);
    var c1 := Tick(c, e.dt);
    match e.op
    case Lap => LapKeepsScheduled(c1);
    case AttemptFails => FailureKeepsScheduled(c1);
    case _ => OtherKeepsScheduled(c1, e.op);
  }

  /** A configured `recovery.rebuild_after` is never under 5 s (src/config.rs:308); one is enough here. */
  ghost predicate Retuned(es: seq<Event>) {
    forall i :: 0 <= i < |es| && es[i].op.Retune? ==> SECOND <= es[i].op.rebuildAfter
  }

  lemma {:induction false} ScheduledHolds(start: int, es: seq<Event>)
    requires Retuned(es)
    ensures Scheduled(Exec(start, es))
  {
    if es != [] {
      ScheduledHolds(start, es[..|es| - 1]);
      StepKeepsScheduled(Exec(start, es[..|es| - 1]), es[|es| - 1]);
    }
  }

  /** `e` starts an attempt in `c`. */
  ghost predicate Starts(c: Client, e: Event) {
    e.op.Lap? && !c.running && Next(c, e).running
  }

  /** What `e` makes of the first start, the failures since it and the last start, where they were as given. */
  ghost function FirstAfter(c: Client, e: Event, first: Option<int>): Option<int> {
    if e.op.Frame? || e.op.LinkLands? then None
    else if Starts(c, e) && first.None? then Some(c.clock + e.dt)
    else first
  }

  ghost function FailsAfter(c: Client, e: Event, first: Option<int>, fails: nat): nat {
    if e.op.Frame? || e.op.LinkLands? then 0
    else if e.op.AttemptFails? && c.running && first.Some? then fails + 1
    else fails
  }

  ghost function LastAfter(c: Client, e: Event, last: Option<int>): Option<int> {
    if Starts(c, e) then Some(c.clock + e.dt) else last
  }

  /** The first attempt of the run `es` since a frame was last heard or a link last landed. */
  ghost function FirstStart(start: int, es: seq<Event>): Option<int> {
    if es == [] then None
    else FirstAfter(Exec(start, es[..|es| - 1]), es[|es| - 1], FirstStart(start, es[..|es| - 1]))
  }

  /** The attempts that have failed since that first one started. */
  ghost function FailsSince(start: int, es: seq<Event>): nat {
    if es == [] then 0
    else
      var p, e := es[..|es| - 1], es[|es| - 1];
      FailsAfter(Exec(start, p), e, FirstStart(start, p), FailsSince(start, p))
  }

  /** The last attempt of the run, whatever has happened since. */
  ghost function LastStart(start: int, es: seq<Event>): Option<int> {
    if es == [] then None
    else LastAfter(Exec(start, es[..|es| - 1]), es[|es| - 1], LastStart(start, es[..|es| - 1]))
  }

  lemma LapStarts(c: Client, dt: nat)
    ensures var e := Event(dt, Lap); var c' := Next(c, e);
      && c'.firstStart == (if Starts(c, e) && c.firstStart.None? then Some(c.clock + dt) else c.firstStart)
      && c'.lastStart == (if Starts(c, e) then Some(c.clock + dt) else c.lastStart)
      && c'.fails == c.fails
  {
  }

  lemma OtherStarts(c: Client, e: Event)
    requires !e.op.Lap?
    ensures var c' := Next(c, e);
      && !Starts(c, e) && c'.lastStart == c.lastStart
      && c'.firstStart == (if e.op.Frame? || e.op.LinkLands? then None else c.firstStart)
      && c'.fails == if e.op.Frame? || e.op.LinkLands? then 0
                     else if e.op.AttemptFails? && c.running && c.firstStart.Some? then c.fails + 1 else c.fails
  {
  }

  lemma StartsStep(c: Client, e: Event)
    ensures Next(c, e).firstStart == FirstAfter(c, e, c.firstStart)
    ensures Next(c, e).fails == FailsAfter(c, e, c.firstStart, c.fails)
    ensures Next(c, e).lastStart == LastAfter(c, e, c.lastStart)
  {
    if e.op.Lap? {
      LapStarts(c, e.dt);
      assert e == Event(e.dt, Lap);
    } else {
      OtherStarts(c, e);
    }
  }

  lemma {:induction false} FirstIsTheRun(start: int, es: seq<Event>)
    ensures Exec(start, es).firstStart == FirstStart(start, es)
  {
    if es != [] {
      FirstIsTheRun(start, es[..|es| - 1]);
      StartsStep(Exec(start, es[..|es| - 1]), es[|es| - 1]);
    }
  }

  lemma {:induction false} FailsAreTheRuns(start: int, es: seq<Event>)
    ensures Exec(start, es).fails == FailsSince(start, es)
  {
    if es != [] {
      FailsAreTheRuns(start, es[..|es| - 1]);
      FirstIsTheRun(start, es[..|es| - 1]);
      StartsStep(Exec(start, es[..|es| - 1]), es[|es| - 1]);
    }
  }

  lemma {:induction false} LastIsTheRun(start: int, es: seq<Event>)
    ensures Exec(start, es).lastStart == LastStart(start, es)
  {
    if es != [] {
      LastIsTheRun(start, es[..|es| - 1]);
      StartsStep(Exec(start, es[..|es| - 1]), es[|es| - 1]);
    }
  }

  /**
   The schedule, over every run: an attempt that starts after `n` failures since the first of
   its outage -- or since a link last landed -- starts at least 2 + 4 + 8 + 8 + ... seconds, `n`
   terms, after that first; and no two attempts of a session start under a second apart, however
   the earlier one ended.
   */
  lemma StartsAreSpaced(start: int, es: seq<Event>, e: Event)
    requires Retuned(es) && Starts(Exec(start, es), e)
    ensures var now := Exec(start, es).clock + e.dt;
      && (FirstStart(start, es).Some? ==> now >= FirstStart(start, es).value + Waits(FailsSince(start, es)))
      && (LastStart(start, es).Some? ==> now >= LastStart(start, es).value + SECOND)
  {
    ScheduledHolds(start, es);
    FirstIsTheRun(start, es);
    FailsAreTheRuns(start, es);
    LastIsTheRun(start, es);
    var c := Exec(start, es);
    var c1 := c.(clock := c.clock + e.dt);
    var link := Evaluate(c1.link, c1.clock, c1.owing);
    assert link.phase.Recovering? && c1.clock >= link.phase.nextTry;
  }

  /** Failures after `e` where there were `n` before it: a frame or a landing starts the count over. */
  ghost function FailuresAfter(c: Client, op: Op, n: nat): nat {
    if op.Frame? || op.LinkLands? then 0
    else if op.AttemptFails? && c.running && c.link.phase.Recovering? then n + 1
    else n
  }

  /** The failures of the outage `es` ends in, since a frame was last heard or a link last landed. */
  ghost function Failures(start: int, es: seq<Event>): nat {
    if es == [] then 0
    else FailuresAfter(Exec(start, es[..|es| - 1]), es[|es| - 1].op, Failures(start, es[..|es| - 1]))
  }

  ghost predicate Counts(c: Client, n: nat) {
    if c.link.phase.Recovering? then c.link.phase.attempt == (if n < U32_MAX then n else U32_MAX) else n == 0
  }

  lemma LapCounts(c: Client, n: nat)
    requires Counts(c, n)
    ensures Counts(DoLap(c), n)
  {
    assert Counts(Judge(c), n);
  }

  lemma OtherCounts(c: Client, op: Op, n: nat)
    requires Counts(c, n) && !op.Lap?
    ensures Counts(Do(c, op), FailuresAfter(c, op, n))
  {
  }

  lemma StepCounts(c: Client, e: Event, n: nat)
    requires Counts(c, n)
    ensures Counts(Next(c, e), FailuresAfter(c, e.op, n))
  {
    if e.op.Lap? {
      LapCounts(Tick(c, e.dt), n);
    } else {
      OtherCounts(Tick(c, e.dt), e.op, n);
    }
  }

  /** The attempt number the user is shown is the number of failures, saturating at 32 bits. */
  lemma {:induction false} AttemptCountsFailures(start: int, es: seq<Event>)
    ensures Counts(Exec(start, es), Failures(start, es))
  {
    if es != [] {
      AttemptCountsFailures(start, es[..|es| - 1]);
      StepCounts(Exec(start, es[..|es| - 1]), es[|es| - 1], Failures(start, es[..|es| - 1]));
    }
  }

  ghost predicate Near(c: Client) {
    c.link.phase.Recovering? ==> c.link.phase.nextTry <= c.clock + 8 * SECOND
  }

  lemma LapKeepsNear(c: Client)
    requires Near(c)
    ensures Near(DoLap(c))
  {
    assert Near(Judge(c));
  }

  lemma OtherKeepsNear(c: Client, op: Op)
    requires Near(c) && !op.Lap?
    ensures Near(Do(c, op))
  {
  }

  /** The next try is never more than the longest wait away. */
  lemma {:induction false} NextTryIsNear(start: int, es: seq<Event>)
    ensures Near(Exec(start, es))
  {
    if es != [] {
      var e := es[|es| - 1];
      NextTryIsNear(start, es[..|es| - 1]);
      var c := Tick(Exec(start, es[..|es| - 1]), e.dt);
      if e.op.Lap? {
        LapKeepsNear(c);
      } else {
        OtherKeepsNear(c, e.op);
      }
    }
  }

  /**
   A client in an outage it is rebuilding from never sits idle: after every lap an attempt is
   running or the next one is at most eight seconds off, and an attempt that was due -- the first of
   an outage is due at once -- has started on that lap. And a lap that finds no such outage leaves no
   attempt running.
   */
  lemma RecoveryNeverIdles(start: int, es: seq<Event>, dt: nat)
    ensures var c0, c := Exec(start, es), Exec(start, es + [Event(dt, Lap)]);
      if c.link.phase.Recovering?
      then
        && (c.running || c.clock < c.link.phase.nextTry <= c.clock + 8 * SECOND)
        && (!c0.running && (c0.link.phase.Recovering? ==> c0.link.phase.nextTry <= c.clock) ==>
              c.running && LastStart(start, es + [Event(dt, Lap)]) == Some(c.clock))
      else !c.running
  {
    LastIsTheRun(start, es + [Event(dt, Lap)]);
    NextTryIsNear(start, es + [Event(dt, Lap)]);
    assert (es + [Event(dt, Lap)])[..|es|] == es;
  }

  /** A landing's second is kept: `c` starts nothing before `until`. */
  ghost predicate Waiting(c: Client, until: int) {
    c.link.phase.Recovering? && until <= c.link.phase.nextTry && until <= c.clock + SECOND
  }

  lemma LapKeepsWaiting(c: Client, until: int)
    requires Waiting(c, until)
    ensures Waiting(DoLap(c), until)
  {
    BackoffMonotone(0, c.link.phase.attempt);
  }

  lemma OtherKeepsWaiting(c: Client, op: Op, until: int)
    requires Waiting(c, until) && !op.Lap? && !op.Frame?
    ensures Waiting(Do(c, op), until)
  {
    BackoffMonotone(0, Do(c, op).link.phase.attempt);
  }

  lemma StepKeepsWaiting(c: Client, e: Event, until: int)
    requires Waiting(c, until) && !e.op.Frame?
    ensures Waiting(Next(c, e), until)
  {
    assert Waiting(Tick(c, e.dt), until);
    if e.op.Lap? {
      LapKeepsWaiting(Tick(c, e.dt), until);
    } else {
      OtherKeepsWaiting(Tick(c, e.dt), e.op, until);
    }
  }

  lemma {:induction false} WaitingHolds(start: int, es: seq<Event>, more: seq<Event>, until: int)
    requires Waiting(Exec(start, es), until) && forall k :: 0 <= k < |more| ==> !more[k].op.Frame?
    ensures Waiting(Exec(start, es + more), until)
  {
    if more == [] {
      assert es + more == es;
    } else {
      var n := |more| - 1;
      WaitingHolds(start, es, more[..n], until);
      assert (es + more)[..|es + more| - 1] == es + more[..n];
      assert more[n] in more && Exec(start, es + more) == Next(Exec(start, es + more[..n]), more[n]);
      StepKeepsWaiting(Exec(start, es + more[..n]), more[n], until);
    }
  }

  /**
   A link that has just landed is not torn down by the loop that built it: with nothing heard, and
   whatever else happens, no attempt starts within a second of a landing.
   */
  lemma LandedLinkIsLeftAlone(start: int, es: seq<Event>, land: Event, more: seq<Event>, e: Event)
    requires Exec(start, es).link.phase.Recovering? && land.op.LinkLands?
    requires forall k :: 0 <= k < |more| ==> !more[k].op.Frame?
    requires Starts(Exec(start, es + [land] + more), e)
    ensures Exec(start, es + [land] + more).clock + e.dt >= Exec(start, es + [land]).clock + SECOND
  {
    assert (es + [land])[..|es|] == es;
    WaitingHolds(start, es + [land], more, Exec(start, es + [land]).clock + SECOND);
    var c := Exec(start, es + [land] + more);
    assert Evaluate(c.link, c.clock + e.dt, c.owing) == c.link;
  }

  // ---------------------------------------------------------------- the heartbeat

  /** When the host was last heard or a heartbeat last sent in the run `es`. */
  ghost function LastBeat(start: int, es: seq<Event>): int {
    if es == [] then start
    else
      var p, e := es[..|es| - 1], es[|es| - 1];
      var now := Exec(start, p).clock + e.dt;
      if e.op.Frame? || (e.op.Lap? && now - LastBeat(start, p) >= HEARTBEAT_IDLE) then now
      else LastBeat(start, p)
  }

  ghost predicate Beat(c: Client, last: int) {
    last == Max(c.link.lastHeard, c.link.lastSent) <= c.clock
  }

  lemma LapBeatsAt(c: Client, last: int)
    requires Beat(c, last)
    ensures Beat(DoLap(c), if c.clock - last >= HEARTBEAT_IDLE then c.clock else last)
  {
  }

  lemma OtherBeatsAt(c: Client, op: Op, last: int)
    requires Beat(c, last) && !op.Lap?
    ensures Beat(Do(c, op), if op.Frame? then c.clock else last)
  {
  }

  /**
   Over every run, a heartbeat is due at a time if and only if the host has not been heard and no
   heartbeat has gone out for HEARTBEAT_IDLE before it, whatever was typed meanwhile: what is typed
   is sent and not noted as sent. So heartbeats are never closer than that.
   */
  lemma {:induction false} HeartbeatExactly(start: int, es: seq<Event>, now: int)
    ensures Beat(Exec(start, es), LastBeat(start, es))
    ensures HeartbeatDue(Exec(start, es).link, now) <==> now - LastBeat(start, es) >= HEARTBEAT_IDLE
  {
    if es != [] {
      var p, e := es[..|es| - 1], es[|es| - 1];
      HeartbeatExactly(start, p, now);
      var c := Tick(Exec(start, p), e.dt);
      if e.op.Lap? {
        LapBeatsAt(c, LastBeat(start, p));
      } else {
        OtherBeatsAt(c, e.op, LastBeat(start, p));
      }
    }
  }

  /** When the client last sent something that was no heartbeat. */
  ghost function LastTyped(start: int, es: seq<Event>): Option<int> {
    if es == [] then None
    else
      var p, e := es[..|es| - 1], es[|es| - 1];
      var c := Exec(start, p);
      if e.op.Types? || e.op.LinkLands? || (e.op.TakeHeld? && c.link.phase.Confirming? && c.link.held != [])
      then Some(c.clock + e.dt) else LastTyped(start, p)
  }

  /** Nothing has been said in either direction for HEARTBEAT_IDLE before `now`, as the code's words have it. */
  ghost predicate QuietBothWays(start: int, es: seq<Event>, now: int) {
    && now - LastBeat(start, es) >= HEARTBEAT_IDLE
    && (LastTyped(start, es).Some? ==> now - LastTyped(start, es).value >= HEARTBEAT_IDLE)
  }

  /**
   The code's words are that a heartbeat is due once both directions have been quiet for
   HEARTBEAT_IDLE. It always is then, and it is due earlier if and only if something was typed
   within that time and the host was last heard before it.
   */
  lemma HeartbeatAsWorded(start: int, es: seq<Event>, now: int)
    ensures QuietBothWays(start, es, now) ==> HeartbeatDue(Exec(start, es).link, now)
    ensures HeartbeatDue(Exec(start, es).link, now) && !QuietBothWays(start, es, now) <==>
      && LastTyped(start, es).Some? && now - LastTyped(start, es).value < HEARTBEAT_IDLE
      && now - LastBeat(start, es) >= HEARTBEAT_IDLE
  {
    HeartbeatExactly(start, es, now);
  }

  /** Such a run: a key 4.9 s after the last frame, and a heartbeat due 0.1 s later. */
  lemma TypingPutsNoHeartbeatOff()
    ensures var es := [Event(0, Frame(true))] + [Event(4_900_000_000, Types)];
      HeartbeatDue(Exec(0, es).link, 5 * SECOND) && !QuietBothWays(0, es, 5 * SECOND)
  {
    var a, b := Event(0, Frame(true)), Event(4_900_000_000, Types);
    assert ([a] + [b])[..1] == [a] && [a][..0] == [];
    assert Exec(0, [a]) == Next(Start(0), a);
    HeartbeatExactly(0, [a] + [b], 5 * SECOND);
    assert LastBeat(0, [a]) == 0 && LastBeat(0, [a] + [b]) == 0;
    assert LastTyped(0, [a] + [b]) == Some(4_900_000_000);
  }

  /** And the lap that finds one due leaves a reply owed. */
  lemma HeartbeatIsOwed(start: int, es: seq<Event>, dt: nat)
    requires Exec(start, es).clock + dt - LastBeat(start, es) >= HEARTBEAT_IDLE
    ensures Exec(start, es + [Event(dt, Lap)]).owing
  {
    assert (es + [Event(dt, Lap)])[..|es|] == es;
    HeartbeatExactly(start, es, Exec(start, es).clock + dt);
    LapBeats(Tick(Exec(start, es), dt));
  }

  lemma LapBeats(c: Client)
    ensures HeartbeatDue(c.link, c.clock) ==> DoLap(c).owing
  {
  }

  // ---------------------------------------------------------------- what is typed blind

  lemma HeldStep(c: Client, op: Op)
    requires c.link.held == FirstBytes(c.offered, MAX_HELD)
    ensures var c' := Do(c, op); c'.link.held == FirstBytes(c'.offered, MAX_HELD)
  {
    match op
    case Keys(bytes) => HeldKeys(c, bytes);
    case _ =>
  }

  lemma HeldKeys(c: Client, bytes: seq<Byte>)
    requires c.link.held == FirstBytes(c.offered, MAX_HELD)
    ensures HoldKeys(c.link, bytes).held == FirstBytes(c.offered + bytes, MAX_HELD)
  {
  }

  /**
   The held input is always the first MAX_HELD bytes offered since it was last taken or dropped:
   it never loses its beginning, and hearing from the host delivers none of it.
   */
  lemma {:induction false} HeldIsTheFirstBytes(start: int, es: seq<Event>)
    ensures var c := Exec(start, es); c.link.held == FirstBytes(c.offered, MAX_HELD)
  {
    if es != [] {
      HeldIsTheFirstBytes(start, es[..|es| - 1]);
      HeldStep(Tick(Exec(start, es[..|es| - 1]), es[|es| - 1].dt), es[|es| - 1].op);
    }
  }

  lemma DeliveryStep(c: Client, op: Op)
    ensures var c' := Do(c, op);
      && c'.delivered == c.delivered + (if op.TakeHeld? && c.link.phase.Confirming? then [c.link.held] else [])
      && (c.link.phase.Confirming? && (op.TakeHeld? || op.DropHeld?) ==> c'.link.phase.Live? && c'.link.held == [])
  {
  }

  /**
   What is typed blind reaches the host only by being taken while the user is asked about it, and
   then as all that was held; no frame, lap, attempt or landing delivers any of it.
   */
  lemma DeliveredOnlyWhenTaken(start: int, es: seq<Event>, e: Event)
    ensures var c, c' := Exec(start, es), Exec(start, es + [e]);
      c'.delivered == c.delivered +
        if e.op.TakeHeld? && c.link.phase.Confirming? then [FirstBytes(c.offered, MAX_HELD)] else []
    ensures var c, c' := Exec(start, es), Exec(start, es + [e]);
      c.link.phase.Confirming? && (e.op.TakeHeld? || e.op.DropHeld?) ==> c'.link.phase.Live? && c'.link.held == []
  {
    HeldIsTheFirstBytes(start, es);
    assert (es + [e])[..|es|] == es;
    DeliveryStep(Tick(Exec(start, es), e.dt), e.op);
  }

  /** The popup holds keys only while the link is not live. */
  ghost predicate HoldsOnlyBlind(start: int, es: seq<Event>) {
    es == [] ||
    (HoldsOnlyBlind(start, es[..|es| - 1])
     && (es[|es| - 1].op.Keys? ==> !Exec(start, es[..|es| - 1]).link.phase.Live?))
  }

  /** So nothing held is ever forgotten: a live link has nothing held, and any other asks first. */
  lemma {:induction false} HeldIsNeverForgotten(start: int, es: seq<Event>)
    requires HoldsOnlyBlind(start, es)
    ensures var c := Exec(start, es); c.link.phase.Live? ==> c.link.held == []
  {
    if es != [] {
      HeldIsNeverForgotten(start, es[..|es| - 1]);
      LiveHoldsNothing(Tick(Exec(start, es[..|es| - 1]), es[|es| - 1].dt), es[|es| - 1].op);
    }
  }

  lemma LiveHoldsNothing(c: Client, op: Op)
    requires (c.link.phase.Live? ==> c.link.held == []) && (op.Keys? ==> !c.link.phase.Live?)
    ensures Do(c, op).link.phase.Live? ==> Do(c, op).link.held == []
  {
  }
}
