/**
 The client's rebuild of a dead link (src/rebuild.rs).

 A rebuild attempt is a task of its own. It races the loop that started it through one
 three-state compare-and-swap, and it reports back with the generation it was given. The
 first half of this module is the `Rebuild` object, method by method, against functions on
 its value; the second half puts those functions into a transition system with any number of
 attempt tasks -- aborted ones that have not noticed yet included -- the report channel and
 a host, and proves what holds after every interleaving.
 */
module RebuildRace {
  import opened Histories
  import opened Options

  // ---------------------------------------------------------------- the Rebuild object

  datatype Aim = Session(id: string) | Lobby

  /** The line between connecting and committed, for one attempt. */
  datatype Line = Connecting | Committed | Abandoned

  datatype Stage = StageIdle | StageConnecting | StageCommitted

  datatype Outcome = Landed | Retry | Definite

  datatype Report = Report(generation: nat, outcome: Outcome)

  /** A `Rebuild` as a value: everything but the shared line of the attempt in flight. */
  datatype Core = Core(aim: Aim, inFlight: bool, generation: nat, started: Option<nat>, displacing: bool)

  function Begin(c: Core, now: nat): Core {
    c.(inFlight := true, generation := c.generation + 1, started := Some(now), displacing := true)
  }

  function Cancel(c: Core): Core {
    c.(inFlight := false, started := None)
  }

  /** The core and the line after an abandon, and whether the attempt was given up. */
  function Abandon(c: Core, line: Line): (Core, Line, bool) {
    if !c.inFlight || line != Connecting then (c, line, false) else (Cancel(c), Abandoned, true)
  }

  function StandDown(c: Core): Core {
    Cancel(c).(displacing := false)
  }

  function Retarget(c: Core, aim: Aim): Core {
    (if aim != c.aim then Cancel(c) else c).(aim := aim)
  }

  function Swapped(c: Core): Core {
    c.(displacing := c.inFlight)
  }

  function Accept(c: Core, r: Report): (Core, Option<Outcome>) {
    if c.inFlight && r.generation == c.generation then (Cancel(c), Some(r.outcome))
    else (c, if r.outcome.Landed? then Some(Landed) else None)
  }

  /** The shared atomic: each side moves it out of `Connecting` only if the other has not. */
  class Commitment {
    var line: Line

    constructor ()
      ensures line == Connecting
    {
      line := Connecting;
    }

    method Claim(to: Line) returns (won: bool)
      modifies this
      ensures won <==> old(line) == Connecting
      ensures line == if won then to else old(line)
    {
      won := line == Connecting;
      if won {
        line := to;
      }
    }
  }

  class Rebuild {
    var aim: Aim
    var inFlight: bool
    var generation: nat
    var commitment: Commitment
    var started: Option<nat>
    var displacing: bool

    ghost function View(): Core
      reads this
    {
      Core(aim, inFlight, generation, started, displacing)
    }

    constructor (target: Aim)
      ensures View() == Core(target, false, 0, None, false)
      ensures fresh(commitment) && commitment.line == Connecting
    {
      aim, inFlight, generation, started, displacing := target, false, 0, None, false;
      commitment := new Commitment();
    }

    method StageNow() returns (stage: Stage)
      ensures stage.StageIdle? <==> !inFlight
      ensures stage.StageCommitted? <==> inFlight && commitment.line == Committed
    {
      if !inFlight {
        stage := StageIdle;
      } else if commitment.line == Committed {
        stage := StageCommitted;
      } else {
        stage := StageConnecting;
      }
    }

    /** A fresh line per attempt, so no older attempt's line can be read as the new one's. */
    method BeginAttempt(now: nat) returns (ties: Commitment)
      modifies this
      ensures View() == Begin(old(View()), now)
      ensures fresh(ties) && ties == commitment && ties.line == Connecting
    {
      started := Some(now);
      generation := generation + 1;
      ties := new Commitment();
      commitment := ties;
      displacing := true;
      inFlight := true;
    }

    method CancelAttempt() returns (aborted: bool)
      modifies this
      ensures View() == Cancel(old(View())) && commitment == old(commitment)
      ensures aborted == old(inFlight)
    {
      started := None;
      aborted := inFlight;
      inFlight := false;
    }

    method AbandonAttempt() returns (gone: bool)
      modifies this, commitment
      ensures commitment == old(commitment)
      ensures (View(), commitment.line, gone) == Abandon(old(View()), old(commitment.line))
    {
      if !inFlight {
        return false;
      }
      var won := commitment.Claim(Abandoned);
      if !won {
        return false;
      }
      var _ := CancelAttempt();
      return true;
    }

    method StandDownNow()
      modifies this
      ensures View() == StandDown(old(View())) && commitment == old(commitment)
    {
      var _ := CancelAttempt();
      displacing := false;
    }

    method RetargetTo(next: Aim)
      modifies this
      ensures View() == Retarget(old(View()), next) && commitment == old(commitment)
    {
      if next != aim {
        var _ := CancelAttempt();
      }
      aim := next;
    }

    method NoteSwapped()
      modifies this
      ensures View() == Swapped(old(View())) && commitment == old(commitment)
    {
      displacing := inFlight;
    }

    method AcceptReport(r: Report) returns (handed: Option<Outcome>)
      modifies this
      ensures (View(), handed) == Accept(old(View()), r) && commitment == old(commitment)
    {
      if inFlight && r.generation == generation {
        inFlight, started := false, None;
        return Some(r.outcome);
      }
      match r.outcome
      case Landed => return Some(Landed);
      case Retry => return None;
      case Definite => return None;
    }
  }

  // ---------------------------------------------------------------- the race

  /** Where an attempt's task is. Between any two of its steps the loop may run. */
  datatype Pc =
    | AtOffer                  // ssh is connecting, or the offer is being read
    | Cleared                  // it won its line; the Choose has not been written
    | Chosen                   // the Choose is out; establishing
    | Ended(outcome: Outcome)  // it has an outcome and has not sent the report yet
    | Over                     // it has reported, or its abort landed

  /** How the loop stopped waiting for an attempt. */
  datatype Fate = Held | Reported | GivenUp | StoodDown | Retargeted | Dropped

  /** `aim` is where the task was sent: its own copy, taken when it began. */
  datatype Attempt = Attempt(aim: Aim, line: Line, pc: Pc, chose: bool, adopted: bool, fate: Fate)
  {
    /** `abort` was called: the task stops at one of its next yields, not at once. */
    predicate Aborting() { fate.GivenUp? || fate.StoodDown? || fate.Retargeted? || fate.Dropped? }
  }

  /**
   `reports` is everything ever sent on the outcome channel, `read` how many of them the loop
   has read, and `handed` which of those it was told to act on. `attempts[i]` is the attempt
   of generation `i + 1`.
   */
  datatype System = System(
    core: Core, attempts: seq<Attempt>, reports: seq<Report>, read: nat, handed: set<nat>, closed: bool)

  datatype Event =
    // the loop
    | LoopBegin(now: nat) | LoopAbandon | LoopStandDown | LoopRetarget(aim: Aim) | LoopRead | LoopDrop
    // the task of attempt `i`
    | TaskFails(i: nat, definite: bool)
    | TaskClaims(i: nat)
    | TaskChooses(i: nat)
    | TaskLands(i: nat)
    | TaskReports(i: nat)
    | AbortLands(i: nat)
    // the host
    | HostAdopts(i: nat)

  function Init(aim: Aim): System {
    System(Core(aim, false, 0, None, false), [], [], 0, {}, false)
  }

  /** The attempt in flight, if any, let go of by the loop with `fate`. */
  function LetGo(s: System, core: Core, fate: Fate): System {
    if s.core.inFlight && !core.inFlight && 0 < |s.attempts|
    then s.(core := core, attempts := s.attempts[|s.attempts| - 1 := s.attempts[|s.attempts| - 1].(fate := fate)])
    else s.(core := core)
  }

  function Fresh(aim: Aim): Attempt {
    Attempt(aim, Connecting, AtOffer, false, false, Held)
  }

  function LoopNext(s: System, e: Event): System {
    match e
    case LoopBegin(now) =>
      // src/session.rs starts one only when none is running
      if s.core.inFlight then s
      else s.(core := Begin(s.core, now), attempts := s.attempts + [Fresh(s.core.aim)])
    case LoopAbandon =>
      if s.attempts == [] then s else
      var n := |s.attempts| - 1;
      var (core, line, gone) := Abandon(s.core, s.attempts[n].line);
      LetGo(s.(attempts := s.attempts[n := s.attempts[n].(line := line)]), core, GivenUp)
    case LoopStandDown => LetGo(s, StandDown(s.core), StoodDown)
    case LoopRetarget(aim) => LetGo(s, Retarget(s.core, aim), Retargeted)
    case LoopDrop => LetGo(s, Cancel(s.core), Dropped).(closed := true)
    case LoopRead =>
      if |s.reports| <= s.read then s else
      var (core, handed) := Accept(s.core, s.reports[s.read]);
      // a landing is swapped in at once
      var core' := if handed == Some(Landed) then Swapped(core) else core;
      LetGo(s, core', Reported)
        .(read := s.read + 1, handed := if handed.Some? then s.handed + {s.read} else s.handed)
    case _ => s
  }

  function TaskNext(a: Attempt, e: Event): Attempt {
    match e
    case TaskFails(_, definite) =>
      // ssh, the offer, the Choose, the exchange or the deadline
      if a.pc.AtOffer? || a.pc.Cleared? || a.pc.Chosen?
      then a.(pc := Ended(if definite then Definite else Retry)) else a
    case TaskClaims(_) =>
      if !a.pc.AtOffer? then a
      else if a.line.Connecting? then a.(line := Committed, pc := Cleared)
      else a.(pc := Ended(Retry))
    case TaskChooses(_) =>
      // a write that fails may have reached the host all the same: this, then `TaskFails`
      if a.pc.Cleared? then a.(chose := true, pc := Chosen) else a
    case TaskLands(_) => if a.pc.Chosen? then a.(pc := Ended(Landed)) else a
    case AbortLands(_) => if a.Aborting() then a.(pc := Over) else a
    case HostAdopts(_) => if a.chose then a.(adopted := true) else a
    case _ => a
  }

  /** One step. An event that is not enabled changes nothing. */
  function Next(s: System, e: Event): System {
    match e
    case LoopBegin(_) => if s.closed then s else LoopNext(s, e)
    case LoopAbandon => if s.closed then s else LoopNext(s, e)
    case LoopStandDown => if s.closed then s else LoopNext(s, e)
    case LoopRetarget(_) => if s.closed then s else LoopNext(s, e)
    case LoopRead => if s.closed then s else LoopNext(s, e)
    case LoopDrop => if s.closed then s else LoopNext(s, e)
    case TaskReports(i) =>
      if i < |s.attempts| && s.attempts[i].pc.Ended? then
        var s' := s.(attempts := s.attempts[i := s.attempts[i].(pc := Over)]);
        if s.closed then s' else s'.(reports := s.reports + [Report(i + 1, s.attempts[i].pc.outcome)])
      else s
    case _ =>
      if e.i < |s.attempts| then s.(attempts := s.attempts[e.i := TaskNext(s.attempts[e.i], e)]) else s
  }

  /** The state after `es`, from a rebuild that has just been made. */
  ghost function Exec(aim: Aim, es: seq<Event>): System {
    if es == [] then Init(aim) else Next(Exec(aim, es[..|es| - 1]), es[|es| - 1])
  }

  // ---------------------------------------------------------------- what every step keeps

  ghost predicate AttemptInv(a: Attempt) {
    && (a.pc.AtOffer? ==> !a.line.Committed?)
    && (a.pc.Cleared? || a.pc.Chosen? || a.chose ==> a.line.Committed?)
    && (a.pc.Chosen? || a.pc == Ended(Landed) || a.adopted ==> a.chose)
    && (a.line.Abandoned? <==> a.fate.GivenUp?)
    && (a.fate.Reported? ==> a.pc.Over?)
  }

  ghost predicate ReportInv(s: System, k: nat)
    requires k < |s.reports|
  {
    var r := s.reports[k];
    && 0 < r.generation <= |s.attempts|
    && var a := s.attempts[r.generation - 1];
    && a.pc.Over?
    && (r.outcome.Landed? ==> a.chose)
    && (a.fate.Reported? ==> k < s.read && k in s.handed)
    && (k in s.handed ==> k < s.read && (a.fate.Reported? || r.outcome.Landed?))
    && (k < s.read && k !in s.handed ==> a.Aborting() && !r.outcome.Landed?)
    && (k < s.read ==> !a.fate.Held? && !a.fate.Dropped?)
  }

  ghost predicate Inv(s: System) {
    && |s.attempts| == s.core.generation
    && s.read <= |s.reports|
    && (s.core.inFlight <==> s.core.started.Some?)
    && (s.core.inFlight ==> s.core.displacing && 0 < |s.attempts| && s.attempts[|s.attempts| - 1].aim == s.core.aim)
    && (forall i :: 0 <= i < |s.attempts| ==> AttemptInv(s.attempts[i]))
    && (forall i :: 0 <= i < |s.attempts| ==>
          (s.attempts[i].fate.Held? <==> s.core.inFlight && i == |s.attempts| - 1))
    && (forall i :: 0 <= i < |s.attempts| && s.attempts[i].fate.Dropped? ==> s.closed)
    && (forall k :: 0 <= k < |s.reports| ==> ReportInv(s, k))
    && (forall j, k :: 0 <= j < k < |s.reports| ==> s.reports[j].generation != s.reports[k].generation)
    && (forall k :: k in s.handed ==> k < s.read)
  }

  lemma BeginKeepsInv(s: System, now: nat)
    requires Inv(s)
    ensures Inv(LoopNext(s, LoopBegin(now)))
  {
    var s' := LoopNext(s, LoopBegin(now));
    forall k | 0 <= k < |s'.reports|
      ensures ReportInv(s', k)
    {
      assert ReportInv(s, k);
    }
  }

  /** Letting go of the attempt in flight, by abandon, stand-down, retarget or drop. */
  lemma LetGoKeepsInv(s: System, s': System, line: Line, fate: Fate)
    requires Inv(s) && s.core.inFlight
    requires !s'.core.inFlight && s'.core.started.None? && s'.core.generation == s.core.generation
    requires s'.reports == s.reports && s'.read == s.read && s'.handed == s.handed
    requires s'.closed == (s.closed || fate.Dropped?)
    requires fate.GivenUp? || fate.StoodDown? || fate.Retargeted? || fate.Dropped?
    requires var n := |s.attempts| - 1;
      var a := s.attempts[n].(line := line, fate := fate);
      s'.attempts == s.attempts[n := a] && AttemptInv(a)
    ensures Inv(s')
  {
    forall k | 0 <= k < |s'.reports|
      ensures ReportInv(s', k)
    {
      assert ReportInv(s, k);
    }
  }

  /** The same, when the line is left as it is; or nothing, with no attempt in flight. */
  lemma UntieKeepsInv(s: System, s': System, fate: Fate)
    requires Inv(s) && (fate.StoodDown? || fate.Retargeted? || fate.Dropped?)
    requires s' == LetGo(s, s'.core, fate).(closed := s.closed || fate.Dropped?)
    requires !s'.core.inFlight && s'.core.started.None? && s'.core.generation == s.core.generation
    ensures Inv(s')
  {
    if s.core.inFlight {
      LetGoKeepsInv(s, s', s.attempts[|s.attempts| - 1].line, fate);
    } else {
      forall k | 0 <= k < |s'.reports|
        ensures ReportInv(s', k)
      {
        assert ReportInv(s, k);
      }
    }
  }

  lemma ReadKeepsInv(s: System)
    requires Inv(s) && !s.closed && s.read < |s.reports|
    ensures Inv(LoopNext(s, LoopRead))
  {
    var s', r := LoopNext(s, LoopRead), s.reports[s.read];
    assert ReportInv(s, s.read);
    forall k | 0 <= k < |s'.reports|
      ensures ReportInv(s', k)
    {
      assert ReportInv(s, k);
      assert k != s.read ==> s.reports[k].generation != r.generation;
    }
  }

  lemma LoopKeepsInv(s: System, e: Event)
    requires Inv(s) && !s.closed
    ensures Inv(LoopNext(s, e))
  {
    var s' := LoopNext(s, e);
    match e
    case LoopBegin(now) => BeginKeepsInv(s, now);
    case LoopRead =>
      if s.read < |s.reports| {
        ReadKeepsInv(s);
      }
    case LoopAbandon =>
      if s.core.inFlight {
        var a := s.attempts[|s.attempts| - 1];
        if a.line.Connecting? {
          LetGoKeepsInv(s, s', Line.Abandoned, GivenUp);
        } else {
          assert s'.attempts == s.attempts;
        }
      } else {
        assert s'.attempts == s.attempts;
      }
    case LoopStandDown => UntieKeepsInv(s, s', StoodDown);
    case LoopRetarget(aim) =>
      if aim != s.core.aim {
        UntieKeepsInv(s, s', Retargeted);
      }
    case LoopDrop => UntieKeepsInv(s, s', Dropped);
    case _ =>
  }

  /** A step of one task, seen from outside it. */
  lemma TaskKeepsAttempt(a: Attempt, e: Event)
    requires AttemptInv(a)
    ensures var a' := TaskNext(a, e);
      AttemptInv(a') && a'.fate == a.fate && a'.aim == a.aim && (a.pc.Over? ==> a'.pc.Over?) && (a.chose ==> a'.chose)
  {
  }

  lemma TaskKeepsInv(s: System, e: Event)
    requires Inv(s)
    requires e.TaskFails? || e.TaskClaims? || e.TaskChooses? || e.TaskLands? || e.AbortLands? || e.HostAdopts?
    ensures Inv(Next(s, e))
  {
    if e.i < |s.attempts| {
      TaskKeepsAttempt(s.attempts[e.i], e);
      OneAttemptMoves(s, e.i, TaskNext(s.attempts[e.i], e));
    }
  }

  lemma OneAttemptMoves(s: System, i: nat, a: Attempt)
    requires Inv(s) && i < |s.attempts|
    requires AttemptInv(a) && a.fate == s.attempts[i].fate && a.aim == s.attempts[i].aim
    requires (s.attempts[i].pc.Over? ==> a.pc.Over?) && (s.attempts[i].chose ==> a.chose)
    ensures Inv(s.(attempts := s.attempts[i := a]))
  {
    var s' := s.(attempts := s.attempts[i := a]);
    forall k | 0 <= k < |s'.reports|
      ensures ReportInv(s', k)
    {
      assert ReportInv(s, k);
    }
  }

  lemma ReportKeepsInv(s: System, i: nat)
    requires Inv(s)
    ensures Inv(Next(s, TaskReports(i)))
  {
    var s' := Next(s, TaskReports(i));
    forall k | 0 <= k < |s'.reports|
      ensures ReportInv(s', k)
    {
      if k < |s.reports| {
        assert ReportInv(s, k);
      }
    }
    forall j, k | 0 <= j < k < |s'.reports|
      ensures s'.reports[j].generation != s'.reports[k].generation
    {
      assert ReportInv(s, j);
    }
  }

  lemma {:induction false} InvHolds(aim: Aim, es: seq<Event>)
    ensures Inv(Exec(aim, es))
  {
    if es != [] {
      var before, e := Exec(aim, es[..|es| - 1]), es[|es| - 1];
      InvHolds(aim, es[..|es| - 1]);
      match e
      case TaskReports(i) => ReportKeepsInv(before, i);
      case TaskFails(_, _) => TaskKeepsInv(before, e);
      case TaskClaims(_) => TaskKeepsInv(before, e);
      case TaskChooses(_) => TaskKeepsInv(before, e);
      case TaskLands(_) => TaskKeepsInv(before, e);
      case AbortLands(_) => TaskKeepsInv(before, e);
      case HostAdopts(_) => TaskKeepsInv(before, e);
      case _ =>
        if !before.closed {
          LoopKeepsInv(before, e);
        }
    }
  }

  // ---------------------------------------------------------------- the theorems

  /**
   The abandon and the Choose exclude each other, in every interleaving: an attempt that was
   given up for the standby has not sent its Choose and never will, so the host has no attach
   of it to adopt and it never lands; one that has sent its Choose has won its line, and no
   abandon can take it back.
   */
  lemma AbandonedNeverChooses(aim: Aim, es: seq<Event>, i: nat)
    requires i < |Exec(aim, es).attempts|
    ensures var a := Exec(aim, es).attempts[i];
      && (a.fate.GivenUp? ==> !a.chose && !a.adopted && !a.pc.Cleared? && a.pc != Ended(Landed))
      && (a.chose ==> a.line.Committed? && Abandon(Exec(aim, es).core, a.line).2 == false)
  {
    InvHolds(aim, es);
    assert AttemptInv(Exec(aim, es).attempts[i]);
  }

  /**
   And one of the two always wins: an abandon gives the attempt in flight up if and only if it has
   not committed, and otherwise changes nothing at all.
   */
  lemma AbandonWinsUnlessCommitted(aim: Aim, es: seq<Event>)
    requires !Exec(aim, es).closed && Exec(aim, es).core.inFlight
    ensures var s, s' := Exec(aim, es), Exec(aim, es + [LoopAbandon]); var n := |s.attempts| - 1;
      && 0 <= n && |s'.attempts| == |s.attempts|
      && (s'.attempts[n].fate.GivenUp? <==> !s.attempts[n].line.Committed?)
      && Abandon(s.core, s.attempts[n].line).2 == s'.attempts[n].fate.GivenUp?
      && (if s'.attempts[n].fate.GivenUp? then !s'.core.inFlight && s'.core.displacing else s' == s)
  {
    InvHolds(aim, es);
    ExecStep(aim, es, LoopAbandon);
    AbandonStep(Exec(aim, es));
  }

  lemma AbandonStep(s: System)
    requires Inv(s) && !s.closed && s.core.inFlight
    ensures var s', n := Next(s, LoopAbandon), |s.attempts| - 1;
      && 0 <= n && |s'.attempts| == |s.attempts|
      && (s'.attempts[n].fate.GivenUp? <==> !s.attempts[n].line.Committed?)
      && Abandon(s.core, s.attempts[n].line).2 == s'.attempts[n].fate.GivenUp?
      && (if s'.attempts[n].fate.GivenUp? then !s'.core.inFlight && s'.core.displacing else s' == s)
  {
    var n := |s.attempts| - 1;
    assert AttemptInv(s.attempts[n]);
    assert s.attempts == s.attempts[n := s.attempts[n]];
  }

  /** A task that has its offer clears the line if and only if it was not given up first. */
  lemma ClaimWinsUnlessGivenUp(aim: Aim, es: seq<Event>, i: nat)
    requires i < |Exec(aim, es).attempts| && Exec(aim, es).attempts[i].pc.AtOffer?
    ensures var a, s' := Exec(aim, es).attempts[i], Exec(aim, es + [TaskClaims(i)]);
      && i < |s'.attempts|
      && s'.attempts[i] == (if a.fate.GivenUp? then a.(pc := Ended(Retry)) else a.(line := Committed, pc := Cleared))
  {
    InvHolds(aim, es);
    ExecStep(aim, es, TaskClaims(i));
    assert AttemptInv(Exec(aim, es).attempts[i]);
  }

  lemma GivenUpStep(s: System, e: Event, i: nat)
    requires Inv(s) && i < |s.attempts| && s.attempts[i].fate.GivenUp?
    ensures i < |Next(s, e).attempts| && Next(s, e).attempts[i].fate.GivenUp?
  {
  }

  /** Once given up, given up: no later step of anybody changes it. */
  lemma {:induction false} GivenUpIsForGood(aim: Aim, es: seq<Event>, more: seq<Event>, i: nat)
    requires i < |Exec(aim, es).attempts| && Exec(aim, es).attempts[i].fate.GivenUp?
    ensures i < |Exec(aim, es + more).attempts|
    ensures var a := Exec(aim, es + more).attempts[i]; a.fate.GivenUp? && !a.chose && !a.adopted
  {
    if more == [] {
      assert es + more == es;
    } else {
      var n := |more| - 1;
      GivenUpIsForGood(aim, es, more[..n], i);
      assert (es + more)[..|es + more| - 1] == es + more[..n];
      InvHolds(aim, es + more[..n]);
      GivenUpStep(Exec(aim, es + more[..n]), more[n], i);
    }
    AbandonedNeverChooses(aim, es + more, i);
  }

  /**
   What the loop is told to act on, over a whole run. Every landing it reads is handed on,
   whichever attempt it came from; a failure is handed on exactly when its attempt was still
   the one in flight; no attempt is heard from twice; and a landing of an attempt the loop had
   let go of can only be one that was stood down or retargeted away, which do not claim the
   line -- never one given up for the standby.
   */
  lemma HandedOnExactly(aim: Aim, es: seq<Event>, k: nat)
    requires k < Exec(aim, es).read
    ensures Exec(aim, es).read <= |Exec(aim, es).reports|
    ensures var s := Exec(aim, es); var r := s.reports[k];
      && 0 < r.generation <= |s.attempts|
      && var fate := s.attempts[r.generation - 1].fate;
      && (r.outcome.Landed? ==> k in s.handed)
      && (!r.outcome.Landed? ==> (k in s.handed <==> fate.Reported?))
      && (k in s.handed && !fate.Reported? <==> r.outcome.Landed? && (fate.StoodDown? || fate.Retargeted?))
    ensures var s := Exec(aim, es);
      forall j :: 0 <= j < |s.reports| && j != k ==> s.reports[j].generation != s.reports[k].generation
  {
    InvHolds(aim, es);
    var s := Exec(aim, es);
    assert ReportInv(s, k);
    assert AttemptInv(s.attempts[s.reports[k].generation - 1]);
    forall j | 0 <= j < |s.reports| && j != k
      ensures s.reports[j].generation != s.reports[k].generation
    {
      assert j < k || k < j;
    }
  }

  /** `e` is how attempt `a` can come to an end, and with what. */
  ghost predicate EndsWith(a: Attempt, e: Event, outcome: Outcome) {
    || (e.TaskLands? && a.pc.Chosen? && outcome == Landed)
    || (e.TaskFails? && (a.pc.AtOffer? || a.pc.Cleared? || a.pc.Chosen?)
        && outcome == if e.definite then Definite else Retry)
  }

  /** `e` is not a step of attempt `i` that sends its report or ends it unheard. */
  ghost predicate Unsent(e: Event, i: nat) {
    e != TaskReports(i) && e != AbortLands(i)
  }

  lemma EndedStep(s: System, e: Event, i: nat)
    requires i < |s.attempts| && s.attempts[i].pc.Ended? && Unsent(e, i)
    ensures i < |Next(s, e).attempts| && Next(s, e).attempts[i].pc == s.attempts[i].pc
  {
  }

  lemma {:induction false} EndedStays(aim: Aim, es: seq<Event>, more: seq<Event>, i: nat)
    requires i < |Exec(aim, es).attempts| && Exec(aim, es).attempts[i].pc.Ended?
    requires forall k :: 0 <= k < |more| ==> Unsent(more[k], i)
    ensures i < |Exec(aim, es + more).attempts|
    ensures Exec(aim, es + more).attempts[i].pc == Exec(aim, es).attempts[i].pc
  {
    if more == [] {
      assert es + more == es;
    } else {
      var n := |more| - 1;
      EndedStays(aim, es, more[..n], i);
      assert (es + more)[..|es + more| - 1] == es + more[..n];
      EndedStep(Exec(aim, es + more[..n]), more[n], i);
    }
  }

  /**
   An attempt that comes to an end says so under its own generation and with its own outcome, once,
   however late and whatever became of it meanwhile -- as long as no abort has landed and there is a
   loop to tell.
   */
  lemma EveryEndIsReported(aim: Aim, es: seq<Event>, i: nat, e: Event, outcome: Outcome, more: seq<Event>)
    requires i < |Exec(aim, es).attempts| && (e.TaskFails? || e.TaskLands?) && e.i == i
    requires EndsWith(Exec(aim, es).attempts[i], e, outcome)
    requires forall k :: 0 <= k < |more| ==> Unsent(more[k], i)
    ensures var es1 := es + [e] + more; var s, s' := Exec(aim, es1), Exec(aim, es1 + [TaskReports(i)]);
      && s'.reports == s.reports + (if s.closed then [] else [Report(i + 1, outcome)])
      && Exec(aim, es1 + [TaskReports(i)] + [TaskReports(i)]) == s'
  {
    var es1 := es + [e] + more;
    ExecStep(aim, es, e);
    EndStep(Exec(aim, es), i, e, outcome);
    EndedStays(aim, es + [e], more, i);
    ExecStep(aim, es1, TaskReports(i));
    ExecStep(aim, es1 + [TaskReports(i)], TaskReports(i));
    ReportStep(Exec(aim, es1), i);
  }

  lemma EndStep(s: System, i: nat, e: Event, outcome: Outcome)
    requires i < |s.attempts| && (e.TaskFails? || e.TaskLands?) && e.i == i && EndsWith(s.attempts[i], e, outcome)
    ensures var s' := Next(s, e);
      && |s'.attempts| == |s.attempts| && s'.attempts[i].pc == Ended(outcome)
      && s'.reports == s.reports && s'.closed == s.closed
  {
  }

  lemma ReportStep(s: System, i: nat)
    requires i < |s.attempts| && s.attempts[i].pc.Ended?
    ensures var s' := Next(s, TaskReports(i));
      && s'.reports == s.reports + (if s.closed then [] else [Report(i + 1, s.attempts[i].pc.outcome)])
      && Next(s', TaskReports(i)) == s'
  {
  }

  /** What an attempt that is over can still do: nothing that anybody would hear of. */
  ghost predicate Silent(s: System, s': System, i: nat)
    requires i < |s.attempts|
  {
    && i < |s'.attempts| && s'.attempts[i].pc.Over? && s'.attempts[i].chose == s.attempts[i].chose
    && s.reports <= s'.reports
    && forall k :: |s.reports| <= k < |s'.reports| ==> s'.reports[k].generation != i + 1
  }

  lemma OverStep(s: System, s1: System, e: Event, i: nat)
    requires Inv(s1) && i < |s.attempts| && Silent(s, s1, i)
    ensures Silent(s, Next(s1, e), i)
  {
  }

  lemma {:induction false} OverIsForGood(aim: Aim, s: System, es: seq<Event>, more: seq<Event>, i: nat)
    requires i < |s.attempts| && Silent(s, Exec(aim, es), i)
    ensures Silent(s, Exec(aim, es + more), i)
  {
    if more == [] {
      assert es + more == es;
    } else {
      var n := |more| - 1;
      OverIsForGood(aim, s, es, more[..n], i);
      assert (es + more)[..|es + more| - 1] == es + more[..n];
      InvHolds(aim, es + more[..n]);
      OverStep(s, Exec(aim, es + more[..n]), more[n], i);
    }
  }

  lemma AbortStep(s: System, i: nat)
    requires i < |s.attempts|
    ensures if s.attempts[i].Aborting() then Silent(s, Next(s, AbortLands(i)), i) else Next(s, AbortLands(i)) == s
  {
    assert s.attempts[i := s.attempts[i]] == s.attempts;
  }

  /**
   An abort lands only on an attempt the loop has let go of, and from then on that attempt sends no
   Choose and no report, in any run. Until it lands the task runs on: that is what the line is for.
   */
  lemma AbortedIsSilent(aim: Aim, es: seq<Event>, more: seq<Event>, i: nat)
    requires i < |Exec(aim, es).attempts|
    ensures var s := Exec(aim, es);
      if s.attempts[i].Aborting() then Silent(s, Exec(aim, es + [AbortLands(i)] + more), i)
      else Exec(aim, es + [AbortLands(i)]) == s
  {
    var s := Exec(aim, es);
    ExecStep(aim, es, AbortLands(i));
    AbortStep(s, i);
    if s.attempts[i].Aborting() {
      OverIsForGood(aim, s, es + [AbortLands(i)], more, i);
    }
  }

  /**
   A report that is not the attempt in flight's leaves the rebuild as it is; a landing is swapped
   in all the same, which drops the latch if nothing is in flight and moves nothing else.
   */
  lemma StaleReportChangesNothing(aim: Aim, es: seq<Event>)
    requires var s := Exec(aim, es); !s.closed && s.read < |s.reports|
    requires var s := Exec(aim, es); var g := s.reports[s.read].generation;
      0 < g <= |s.attempts| && !s.attempts[g - 1].fate.Held?
    ensures var s, s' := Exec(aim, es), Exec(aim, es + [LoopRead]);
      s' == if s.reports[s.read].outcome.Landed?
            then s.(read := s.read + 1, handed := s.handed + {s.read}, core := s.core.(displacing := s.core.inFlight))
            else s.(read := s.read + 1)
  {
    InvHolds(aim, es);
    assert (es + [LoopRead])[..|es|] == es;
  }

  // ---------------------------------------------------------------- the displacing latch

  /** `e` starts an attempt in `s`. */
  ghost predicate Begins(s: System, e: Event) {
    e.LoopBegin? && !s.closed && !s.core.inFlight
  }

  /**
   `e` ends the outage in `s`: a stand-down, or a landing read while no other attempt is left
   in flight.
   */
  ghost predicate EndsOutage(s: System, e: Event) {
    && !s.closed
    && (e.LoopStandDown?
        || (e.LoopRead? && s.read < |s.reports| && s.reports[s.read].outcome.Landed? && !Next(s, e).core.inFlight))
  }

  lemma LatchStep(s: System, e: Event)
    requires Inv(s)
    ensures Next(s, e).core.displacing == (Begins(s, e) || (s.core.displacing && !EndsOutage(s, e)))
  {
  }

  /** Which events of the run `es` start an attempt, and which end the outage. */
  ghost function BeginMarks(aim: Aim, es: seq<Event>): (marks: seq<bool>)
    ensures |marks| == |es|
  {
    if es == [] then []
    else BeginMarks(aim, es[..|es| - 1]) + [Begins(Exec(aim, es[..|es| - 1]), es[|es| - 1])]
  }

  ghost function OutageEndMarks(aim: Aim, es: seq<Event>): (marks: seq<bool>)
    ensures |marks| == |es|
  {
    if es == [] then []
    else OutageEndMarks(aim, es[..|es| - 1]) + [EndsOutage(Exec(aim, es[..|es| - 1]), es[|es| - 1])]
  }

  /**
   The latch is exact over every run: a takeover may be our own doing if and only if an
   attempt has been started and no outage has ended since. Failures, abandons and retargets
   therefore leave it as it is.
   */
  lemma {:induction false} LatchExact(aim: Aim, es: seq<Event>)
    ensures Exec(aim, es).core.displacing <==> StartedSince(BeginMarks(aim, es), OutageEndMarks(aim, es))
  {
    if es != [] {
      var p, e := es[..|es| - 1], es[|es| - 1];
      LatchExact(aim, p);
      InvHolds(aim, p);
      LatchStep(Exec(aim, p), e);
      var s := Exec(aim, p);
      StartedSinceStep(BeginMarks(aim, p), OutageEndMarks(aim, p), Begins(s, e), EndsOutage(s, e));
    }
  }

  /**
   While an attempt is in flight a takeover is always read as possibly our own doing, its clock
   is running, and it goes where the client now is: one sent elsewhere is let go of by the
   retarget that moved the client.
   */
  lemma {:induction false} InFlightIsLatched(aim: Aim, es: seq<Event>)
    ensures var s := Exec(aim, es);
      && (s.core.inFlight <==> s.core.started.Some?)
      && (s.core.inFlight ==>
            s.core.displacing && s.attempts != [] && s.attempts[|s.attempts| - 1].aim == s.core.aim)
  {
    InvHolds(aim, es);
  }

  /** Where the run `es` last sent the client, before it was dropped. */
  ghost function LastAim(aim: Aim, es: seq<Event>): Aim {
    if es == [] then aim
    else
      var p, e := es[..|es| - 1], es[|es| - 1];
      if e.LoopRetarget? && LoopDrop !in p then e.aim else LastAim(aim, p)
  }

  /** The next attempt goes where the client was last sent, whatever attempts did meanwhile. */
  lemma {:induction false} AimFollowsTheClient(aim: Aim, es: seq<Event>)
    ensures Exec(aim, es).core.aim == LastAim(aim, es)
    ensures Exec(aim, es).closed <==> LoopDrop in es
  {
    if es != [] {
      var p, e := es[..|es| - 1], es[|es| - 1];
      AimFollowsTheClient(aim, p);
      AimStep(Exec(aim, p), e);
      assert es == p + [e];
    }
  }

  lemma AimStep(s: System, e: Event)
    ensures Next(s, e).core.aim == if e.LoopRetarget? && !s.closed then e.aim else s.core.aim
    ensures Next(s, e).closed <==> s.closed || e.LoopDrop?
  {
  }

  lemma ExecStep(aim: Aim, es: seq<Event>, e: Event)
    ensures Exec(aim, es + [e]) == Next(Exec(aim, es), e)
  {
    assert (es + [e])[..|es|] == es;
  }

  /** An attempt whose Choose is out, from a rebuild just made. */
  lemma ChooseGoesOut(aim: Aim)
    ensures Exec(aim, [LoopBegin(0), TaskClaims(0), TaskChooses(0)]) ==
      System(Core(aim, true, 1, Some(0), true),
             [Fresh(aim).(line := Line.Committed, pc := Chosen, chose := true)], [], 0, {}, false)
  {
    var b, c := [LoopBegin(0)], [LoopBegin(0), TaskClaims(0)];
    ExecStep(aim, [], LoopBegin(0));
    assert [] + [LoopBegin(0)] == b;
    ExecStep(aim, b, TaskClaims(0));
    assert b + [TaskClaims(0)] == c;
    ExecStep(aim, c, TaskChooses(0));
    assert c + [TaskChooses(0)] == [LoopBegin(0), TaskClaims(0), TaskChooses(0)];
    ChooseSteps(aim);
  }

  lemma ChooseSteps(aim: Aim)
    ensures Next(Next(Next(Init(aim), LoopBegin(0)), TaskClaims(0)), TaskChooses(0)) ==
      System(Core(aim, true, 1, Some(0), true),
             [Fresh(aim).(line := Line.Committed, pc := Chosen, chose := true)], [], 0, {}, false)
  {
    var s := Next(Init(aim), LoopBegin(0));
    assert s.attempts == [Fresh(aim)];
    var s1 := Next(s, TaskClaims(0));
    assert s1.attempts == [Fresh(aim).(line := Line.Committed, pc := Cleared)];
  }

  /**
   The latch does not cover every adoption, and cannot: a stand-down drops it while a Choose
   that is already out may still be adopted. This is such a run.
   */
  lemma AdoptedAfterStandDown(aim: Aim)
    ensures var s := Exec(aim, [LoopBegin(0), TaskClaims(0), TaskChooses(0)] + [LoopStandDown] + [HostAdopts(0)]);
      |s.attempts| == 1 && !s.core.displacing && s.attempts[0].adopted
  {
    var es := [LoopBegin(0), TaskClaims(0), TaskChooses(0)];
    ChooseGoesOut(aim);
    ExecStep(aim, es, LoopStandDown);
    ExecStep(aim, es + [LoopStandDown], HostAdopts(0));
  }

  /** The state after each step of an attempt whose Choose is out when the client is sent elsewhere. */
  lemma RetargetedSteps(s: System, other: Aim)
    requires s.core.inFlight && !s.closed && s.core.aim != other && s.reports == [] && s.read == 0 && s.handed == {}
    requires |s.attempts| == 1 && s.attempts[0].pc.Chosen?
    ensures var s1 := Next(s, LoopRetarget(other)); var s2 := Next(s1, TaskLands(0));
      var s3 := Next(s2, TaskReports(0)); var s4 := Next(s3, LoopRead);
      |s4.attempts| == 1 && s4.attempts[0].fate.Retargeted? && s4.read == 1 && s4.handed == {0}
  {
    var s1 := Next(s, LoopRetarget(other));
    assert s1.attempts == [s.attempts[0].(fate := Retargeted)];
    var s2 := Next(s1, TaskLands(0));
    assert s2.attempts[0].pc == Ended(Landed);
    var s3 := Next(s2, TaskReports(0));
    assert s3.reports == [Report(1, Landed)];
  }

  /**
   A retarget leaves a stale landing too: this is a run in which an attempt let go of by a retarget
   lands and is handed on.
   */
  lemma LandsAfterRetarget(aim: Aim, other: Aim)
    requires aim != other
    ensures var s := Exec(aim, [LoopBegin(0), TaskClaims(0), TaskChooses(0)]
        + [LoopRetarget(other)] + [TaskLands(0)] + [TaskReports(0)] + [LoopRead]);
      |s.attempts| == 1 && s.attempts[0].fate.Retargeted? && s.read == 1 && 0 in s.handed
  {
    var es := [LoopBegin(0), TaskClaims(0), TaskChooses(0)];
    ChooseGoesOut(aim);
    RetargetedSteps(Exec(aim, es), other);
    ExecStep(aim, es, LoopRetarget(other));
    ExecStep(aim, es + [LoopRetarget(other)], TaskLands(0));
    ExecStep(aim, es + [LoopRetarget(other)] + [TaskLands(0)], TaskReports(0));
    ExecStep(aim, es + [LoopRetarget(other)] + [TaskLands(0)] + [TaskReports(0)], LoopRead);
  }
}
