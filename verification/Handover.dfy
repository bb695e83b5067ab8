/**
 The two sides of a failover joined: the client's rebuild (src/rebuild.rs), its switch to the
 standby (src/session.rs, `fail_over`) and the host's loop (src/host_session.rs).

 Each side is the system of its own module and steps by its own `Next`. What joins them is what one
 can see of the other: the host adopts a rebuild only after reading its Choose, the client sends on
 its standby only once it has failed over, and it fails over only with no attempt past the line.
 */
module Handover {
  import opened Options
  import R = RebuildRace
  import H = HostSession

  /** Whose attach a link handed to the host is. */
  datatype Who = FromAttempt(i: nat) | OwnStandby | FromElsewhere

  datatype Event =
    | Client(e: R.Event)             // the client's loop or one of its attempts
    | FailsOver(l: H.LinkId)         // `fail_over` onto the client's own standby
    | HostLap(i: H.LapIn, who: Who)  // a lap of the host, and who is attaching if somebody is
    | LinkCloses(l: H.LinkId)

  /**
   `from`: the attempt a link came from. `own`: this client's standbys. `failovers`: those it failed
   over onto, and the attempt it gave up to do so. `over`: the links a new primary displaced, each with
   the link that did.
   */
  datatype Joint = Joint(
    r: R.System, h: H.Host, from: map<H.LinkId, nat>, own: set<H.LinkId>,
    failovers: map<H.LinkId, Option<nat>>, over: set<(H.LinkId, H.LinkId)>)

  /** `fail_over` swaps the standby in: with nothing in flight, or an attempt it can still give up. */
  predicate Swaps(j: Joint, l: H.LinkId) {
    && !j.r.closed && l in j.own && l !in j.failovers
    && (j.r.core.inFlight ==> j.r.attempts != [] && j.r.attempts[|j.r.attempts| - 1].line.Connecting?)
  }

  /** The attempt a failover in `j` gives up, if one is in flight. */
  function GivenUpFor(j: Joint): Option<nat> {
    if j.r.core.inFlight && j.r.attempts != [] then Some(|j.r.attempts| - 1) else None
  }

  /** What the host can read in the lap `i`: an attach whose Choose is out, a frame that was sent. */
  predicate Readable(j: Joint, i: H.LapIn, who: Who) {
    match i.wake
    case AttachedLink(Primary, _, _) =>
      who.FromElsewhere? || (who.FromAttempt? && who.i < |j.r.attempts| && j.r.attempts[who.i].chose)
    case AttachedLink(Standby, _, _) => !who.FromAttempt?
    case StandbyFrame(_) =>
      j.h.standby.Some? && j.h.standby.value.link in j.own ==> j.h.standby.value.link in j.failovers
    case _ => true
  }

  function HostStep(j: Joint, e: Event): Option<H.Event> {
    match e
    case HostLap(i, who) => if Readable(j, i, who) then Some(H.RunLap(i)) else None
    case LinkCloses(l) => Some(H.PeerCloses(l))
    case _ => None
  }

  function HostAfter(j: Joint, e: Event): H.Host {
    match HostStep(j, e)
    case Some(s) => H.Next(j.h, s)
    case None => j.h
  }

  /** The host took a new link in, which is numbered next. */
  predicate HandsIn(j: Joint, e: Event) {
    |j.h.s.net.status| < |HostAfter(j, e).s.net.status|
  }

  function ClientStep(j: Joint, e: Event): Option<R.Event> {
    match e
    case Client(c) => if c.HostAdopts? || c.LoopAbandon? then None else Some(c)
    case FailsOver(l) => if Swaps(j, l) && j.r.core.inFlight then Some(R.LoopAbandon) else None
    case HostLap(_, who) => if HandsIn(j, e) && who.FromAttempt? then Some(R.HostAdopts(who.i)) else None
    case LinkCloses(_) => None
  }

  /** What is newly lost to a new primary, which is link `l`. */
  function Displaced(
    lost: map<H.LinkId, H.Cause>, lost': map<H.LinkId, H.Cause>, l: H.LinkId): set<(H.LinkId, H.LinkId)>
  {
    set m | m in lost' && m !in lost && lost'[m].NewPrimary? :: (m, l)
  }

  function Next(j: Joint, e: Event): Joint {
    var h', l := HostAfter(j, e), |j.h.s.net.status|;
    var handed := HandsIn(j, e) && e.HostLap?;
    Joint(
      match ClientStep(j, e) case Some(c) => R.Next(j.r, c) case None => j.r,
      h',
      if handed && e.who.FromAttempt? then j.from[l := e.who.i] else j.from,
      if handed && e.who.OwnStandby? then j.own + {l} else j.own,
      if e.FailsOver? && Swaps(j, e.l)
      then j.failovers[e.l := GivenUpFor(j)] else j.failovers,
      j.over + Displaced(j.h.s.net.lost, h'.s.net.lost, l))
  }

  ghost function Exec(aim: R.Aim, start: H.Host, es: seq<Event>): Joint {
    if es == [] then Joint(R.Init(aim), start, map[], {}, map[], {})
    else Next(Exec(aim, start, es[..|es| - 1]), es[|es| - 1])
  }

  // ---------------------------------------------------------------- each side runs as it would alone

  ghost function ClientSide(aim: R.Aim, start: H.Host, es: seq<Event>): seq<R.Event> {
    if es == [] then []
    else
      var p, e := es[..|es| - 1], es[|es| - 1];
      var step := ClientStep(Exec(aim, start, p), e);
      ClientSide(aim, start, p) + if step.Some? then [step.value] else []
  }

  ghost function HostSide(aim: R.Aim, start: H.Host, es: seq<Event>): seq<H.Event> {
    if es == [] then []
    else
      var p, e := es[..|es| - 1], es[|es| - 1];
      var step := HostStep(Exec(aim, start, p), e);
      HostSide(aim, start, p) + if step.Some? then [step.value] else []
  }

  /** So every theorem about one side alone is one about a joint run. */
  lemma {:induction false} EachSideIsARun(aim: R.Aim, start: H.Host, es: seq<Event>)
    ensures Exec(aim, start, es).r == R.Exec(aim, ClientSide(aim, start, es))
    ensures Exec(aim, start, es).h == H.Exec(start, HostSide(aim, start, es))
  {
    if es != [] {
      var p, e := es[..|es| - 1], es[|es| - 1];
      EachSideIsARun(aim, start, p);
      var j := Exec(aim, start, p);
      match ClientStep(j, e) {
        case Some(c) => R.ExecStep(aim, ClientSide(aim, start, p), c);
        case None => assert ClientSide(aim, start, p) + [] == ClientSide(aim, start, p);
      }
      match HostStep(j, e) {
        case Some(s) => H.ExecStep(start, HostSide(aim, start, p), s);
        case None => assert HostSide(aim, start, p) + [] == HostSide(aim, start, p);
      }
    }
  }

  lemma BothInvariants(aim: R.Aim, size: H.Size, now: int, detachAfter: nat, es: seq<Event>)
    ensures var j := Exec(aim, H.Start(size, now, detachAfter), es);
      R.Inv(j.r) && H.Owned(H.HoldingOf(j.h)) && H.FramesInv(j.h)
  {
    var start := H.Start(size, now, detachAfter);
    EachSideIsARun(aim, start, es);
    R.InvHolds(aim, ClientSide(aim, start, es));
    H.StartOwned(size, now, detachAfter);
    H.OwnedHolds(start, HostSide(aim, start, es));
    H.FramesInvHolds(start, HostSide(aim, start, es));
  }

  // ---------------------------------------------------------------- who displaced whom

  /** Causes on record stay, and a new one is a new primary's only where that primary is now current. */
  ghost predicate Grows(o: H.Holding, o': H.Holding) {
    && |o.status| <= |o'.status| && o.adopted <= o'.adopted
    && (forall m :: m in o.lost ==> m in o'.lost && o'.lost[m] == o.lost[m])
    && (forall m :: m in o'.lost && m !in o.lost && o'.lost[m].NewPrimary? ==>
          |o'.status| == |o.status| + 1 && o'.link == |o.status|)
  }

  /** The same, with no new link and nobody displaced by one. */
  ghost predicate GrowsQuietly(o: H.Holding, o': H.Holding) {
    && |o.status| == |o'.status| && o.adopted <= o'.adopted
    && (forall m :: m in o.lost ==> m in o'.lost && o'.lost[m] == o.lost[m])
    && (forall m :: m in o'.lost && m !in o.lost ==> !o'.lost[m].NewPrimary?)
  }

  lemma UnparkGrows(o: H.Holding, cause: H.Cause)
    requires H.Owned(o) && !cause.NewPrimary?
    ensures GrowsQuietly(o, H.Unpark(o, cause))
  {
  }

  lemma TopGrows(h: H.Host, t: H.TurnIn)
    requires H.Owned(H.HoldingOf(h))
    ensures GrowsQuietly(H.HoldingOf(h), H.HoldingOf(H.TopOfLap(h, t).0))
  {
    match h.promote
    case Some((parked, first)) =>
      var s := H.AdoptAs(h.s, parked.link, h.s.size, H.OwnStandby, t.now);
      H.TurnSameLinks(s, Some(first), t);
      assert H.HoldingOf(h).Holds(h.s.link);
      assert H.TopOfLap(h, t).0.s.net.lost == h.s.net.lost[h.s.link := H.OwnStandby];
    case None => H.TurnSameLinks(h.s, h.pending, t);
  }

  lemma PrimaryGrows(o: H.Holding)
    requires H.Owned(o) && o.incoming.None? && o.promoted.None? && !o.returned
    ensures Grows(o, H.Adopt(H.Unpark(H.HandedIn(o), H.NewPrimary), H.NewPrimary))
  {
    assert o.Holds(o.link);
    assert o.parked.Some? ==> o.Holds(o.parked.value.link);
  }

  lemma StandbyGrows(o: H.Holding)
    requires H.Owned(o) && o.incoming.None? && o.promoted.None?
    ensures var o' := H.Unpark(H.HandedIn(o), H.NewerStandby);
      |o.status| <= |o'.status| && o.adopted == o'.adopted
    ensures var o' := H.Unpark(H.HandedIn(o), H.NewerStandby);
      forall m :: (m in o.lost ==> m in o'.lost && o'.lost[m] == o.lost[m])
               && (m in o'.lost && m !in o.lost ==> !o'.lost[m].NewPrimary?)
  {
    assert o.parked.Some? ==> o.Holds(o.parked.value.link);
  }

  lemma WokenGrows(h: H.Host, wake: H.Wake)
    requires H.Owned(H.HoldingOf(h)) && h.promote.None? && h.returned.None?
    ensures Grows(H.HoldingOf(h), H.HoldingOf(H.Woken(h, wake)))
  {
    var o := H.HoldingOf(h);
    match wake
    case AttachedLink(Primary, size, at) =>
      H.PrimaryIsAdopt(h, size, at);
      PrimaryGrows(o);
    case AttachedLink(Standby, size, at) =>
      H.StandbyIsPark(h, size, at);
      StandbyGrows(o);
    case _ => ParkedGrows(h, wake);
  }

  lemma ParkedGrows(h: H.Host, wake: H.Wake)
    requires H.Owned(H.HoldingOf(h)) && h.promote.None? && h.returned.None? && !wake.AttachedLink?
    ensures GrowsQuietly(H.HoldingOf(h), H.HoldingOf(H.Woken(h, wake)))
  {
    H.ParkedWakes(h, wake);
    UnparkGrows(H.HoldingOf(h), H.WentAway);
    UnparkGrows(H.HoldingOf(h), H.LobbyEnded);
  }

  lemma ReturnGrows(h: H.Host, code: int, i: H.LapIn)
    requires H.Owned(H.HoldingOf(h))
    ensures GrowsQuietly(H.HoldingOf(h), H.HoldingOf(H.Return(h, code, i)))
  {
    var h1 := H.DropStandby(h, H.ShellGone(code));
    H.DropIsUnpark(h, H.ShellGone(code));
    UnparkGrows(H.HoldingOf(h), H.ShellGone(code));
    H.FinishCloses(h1.s, code, i.lastMoved, i.lastRise, i.lastOwed);
    assert H.HoldingOf(h1).lost == h1.s.net.lost && H.HoldingOf(h1).status == h1.s.net.status;
  }

  lemma EndKillGrows(h: H.Host, code: int, i: H.LapIn)
    requires H.Owned(H.HoldingOf(h)) && h.killing.Some?
    ensures GrowsQuietly(H.HoldingOf(h), H.HoldingOf(H.EndKill(h, code, i)))
  {
    var h1 := h.(killing := None);
    assert H.HoldingOf(h1) == H.HoldingOf(h);
    if h.killing.value {
      ReturnGrows(h1, code, i);
    } else {
      H.DropIsUnpark(h1, H.KilledToLobby);
      UnparkGrows(H.HoldingOf(h1), H.KilledToLobby);
      assert H.HoldingOf(H.EndKill(h, code, i)) == H.HoldingOf(H.DropStandby(h1, H.KilledToLobby));
    }
  }

  lemma LapGrows(h: H.Host, i: H.LapIn)
    requires H.Owned(H.HoldingOf(h)) && h.returned.None?
    ensures Grows(H.HoldingOf(h), H.HoldingOf(H.Lap(h, i)))
  {
    H.TopKeepsOwned(h, i.turn);
    TopGrows(h, i.turn);
    var (h1, exited) := H.TopOfLap(h, i.turn);
    var over := H.KillOver(h1, exited, i.killed);
    if over.Some? {
      EndKillGrows(h1, over.value, i);
    } else if exited.Some? {
      ReturnGrows(h1, exited.value, i);
    } else {
      WokenGrows(h1, i.wake);
    }
  }

  lemma HostGrows(h: H.Host, e: H.Event)
    requires H.Owned(H.HoldingOf(h))
    ensures Grows(H.HoldingOf(h), H.HoldingOf(H.Next(h, e)))
  {
    if e.RunLap? && h.returned.None? {
      LapGrows(h, e.i);
    }
  }

  // ---------------------------------------------------------------- what every joint step keeps

  /** Whatever came from an attempt came from one whose Choose is out; what was given up stays so. */
  ghost predicate ClientKept(j: Joint) {
    && (forall l :: l in j.from ==>
          l < |j.h.s.net.status| && j.from[l] < |j.r.attempts| && j.r.attempts[j.from[l]].chose)
    && (forall l :: l in j.failovers && j.failovers[l].Some? ==>
          j.failovers[l].value < |j.r.attempts| && j.r.attempts[j.failovers[l].value].fate.GivenUp?)
  }

  /** Every link a new primary displaced has that primary on record. */
  ghost predicate HostKept(j: Joint) {
    forall m :: m in j.h.s.net.lost && j.h.s.net.lost[m].NewPrimary? ==>
      exists t :: (m, t) in j.over && t in j.h.s.net.adopted
  }

  lemma ChoseStays(r: R.System, e: R.Event, i: nat)
    requires i < |r.attempts| && r.attempts[i].chose
    ensures i < |R.Next(r, e).attempts| && R.Next(r, e).attempts[i].chose
  {
  }

  lemma StatusGrows(j: Joint, e: Event)
    requires H.Owned(H.HoldingOf(j.h))
    ensures |j.h.s.net.status| <= |HostAfter(j, e).s.net.status|
  {
    if HostStep(j, e).Some? {
      HostGrows(j.h, HostStep(j, e).value);
    }
  }

  /** A lap hands a link in only where it wakes to an attach. */
  lemma OnlyAttachesHandIn(h: H.Host, i: H.LapIn)
    requires H.Owned(H.HoldingOf(h)) && h.returned.None? && |h.s.net.status| < |H.Lap(h, i).s.net.status|
    ensures i.wake.AttachedLink?
  {
    H.TopKeepsOwned(h, i.turn);
    TopGrows(h, i.turn);
    var (h1, exited) := H.TopOfLap(h, i.turn);
    var over := H.KillOver(h1, exited, i.killed);
    if over.Some? {
      EndKillGrows(h1, over.value, i);
    } else if exited.Some? {
      ReturnGrows(h1, exited.value, i);
    } else if !i.wake.AttachedLink? {
      ParkedGrows(h1, i.wake);
    }
  }

  lemma FromStep(j: Joint, e: Event, l: H.LinkId)
    requires R.Inv(j.r) && H.Owned(H.HoldingOf(j.h)) && ClientKept(j) && l in Next(j, e).from
    ensures var j' := Next(j, e);
      l < |j'.h.s.net.status| && j'.from[l] < |j'.r.attempts| && j'.r.attempts[j'.from[l]].chose
  {
    var j' := Next(j, e);
    StatusGrows(j, e);
    var a := j'.from[l];
    if e.HostLap? && HandsIn(j, e) && e.who.FromAttempt? && l == |j.h.s.net.status| {
      OnlyAttachesHandIn(j.h, e.i);
      assert a == e.who.i && j.r.attempts[a].chose;
    } else {
      assert l in j.from && j.from[l] == a;
    }
    if ClientStep(j, e).Some? {
      ChoseStays(j.r, ClientStep(j, e).value, a);
    }
  }

  lemma FailoverStep(j: Joint, e: Event, l: H.LinkId)
    requires R.Inv(j.r) && ClientKept(j) && l in Next(j, e).failovers && Next(j, e).failovers[l].Some?
    ensures var j' := Next(j, e);
      j'.failovers[l].value < |j'.r.attempts| && j'.r.attempts[j'.failovers[l].value].fate.GivenUp?
  {
    var a := Next(j, e).failovers[l].value;
    if e.FailsOver? && Swaps(j, e.l) && e.l == l {
      R.AbandonStep(j.r);
    } else if ClientStep(j, e).Some? {
      R.GivenUpStep(j.r, ClientStep(j, e).value, a);
    }
  }

  lemma OverStep(j: Joint, e: Event, m: H.LinkId)
    requires H.Owned(H.HoldingOf(j.h)) && H.Owned(H.HoldingOf(Next(j, e).h)) && HostKept(j)
    requires m in Next(j, e).h.s.net.lost && Next(j, e).h.s.net.lost[m].NewPrimary?
    ensures var j' := Next(j, e);
      exists t :: (m, t) in j'.over && t in j'.h.s.net.adopted
  {
    var j' := Next(j, e);
    if HostStep(j, e).Some? {
      HostGrows(j.h, HostStep(j, e).value);
    }
    assert Grows(H.HoldingOf(j.h), H.HoldingOf(j'.h));
    TakerOnRecord(H.HoldingOf(j.h), H.HoldingOf(j'.h), j.over, j'.over, m);
  }

  lemma TakerOnRecord(
    o: H.Holding, o': H.Holding, over: set<(H.LinkId, H.LinkId)>, over': set<(H.LinkId, H.LinkId)>, m: H.LinkId)
    requires H.Owned(o') && Grows(o, o') && m in o'.lost && o'.lost[m].NewPrimary?
    requires over' == over + Displaced(o.lost, o'.lost, |o.status|)
    requires m in o.lost && o.lost[m].NewPrimary? ==> exists t :: (m, t) in over && t in o.adopted
    ensures exists t :: (m, t) in over' && t in o'.adopted
  {
    if m in o.lost {
      var t :| (m, t) in over && t in o.adopted;
      assert (m, t) in over';
    } else {
      assert (m, |o.status|) in over' && o'.link == |o.status|;
    }
  }

  lemma {:induction false} KeptHolds(aim: R.Aim, size: H.Size, now: int, detachAfter: nat, es: seq<Event>)
    ensures var j := Exec(aim, H.Start(size, now, detachAfter), es); ClientKept(j) && HostKept(j)
  {
    var start := H.Start(size, now, detachAfter);
    if es != [] {
      var p, e := es[..|es| - 1], es[|es| - 1];
      KeptHolds(aim, size, now, detachAfter, p);
      BothInvariants(aim, size, now, detachAfter, p);
      BothInvariants(aim, size, now, detachAfter, es);
      StepKeeps(Exec(aim, start, p), e);
    }
  }

  lemma StepKeeps(j: Joint, e: Event)
    requires R.Inv(j.r) && H.Owned(H.HoldingOf(j.h)) && H.Owned(H.HoldingOf(Next(j, e).h))
    requires ClientKept(j) && HostKept(j)
    ensures ClientKept(Next(j, e)) && HostKept(Next(j, e))
  {
    var j' := Next(j, e);
    forall l | l in j'.from
      ensures l < |j'.h.s.net.status| && j'.from[l] < |j'.r.attempts| && j'.r.attempts[j'.from[l]].chose
    {
      FromStep(j, e, l);
    }
    forall l | l in j'.failovers && j'.failovers[l].Some?
      ensures j'.failovers[l].value < |j'.r.attempts| && j'.r.attempts[j'.failovers[l].value].fate.GivenUp?
    {
      FailoverStep(j, e, l);
    }
    forall m | m in j'.h.s.net.lost && j'.h.s.net.lost[m].NewPrimary?
      ensures exists t :: (m, t) in j'.over && t in j'.h.s.net.adopted
    {
      OverStep(j, e, m);
    }
  }

  // ---------------------------------------------------------------- the theorems

  lemma TakenOverIsOnRecord(o: H.Holding, m: H.LinkId)
    requires H.Owned(o) && o.incoming.None? && m < |o.status| && o.status[m] == H.Closed(H.TakenOver)
    ensures m in o.lost && o.lost[m].NewPrimary?
  {
    assert m in o.lost <==> !o.Holds(m);
  }

  /**
   In every joint run, a link closed as taken over was displaced by a primary the host adopted, and if
   that came from one of the client's attempts, it was one whose Choose was out: never an attempt that
   was given up for the standby.
   */
  lemma NoneTakenOverByTheAbandoned(
    aim: R.Aim, size: H.Size, now: int, detachAfter: nat, es: seq<Event>, m: H.LinkId)
    requires var status := Exec(aim, H.Start(size, now, detachAfter), es).h.s.net.status;
      m < |status| && status[m] == H.Closed(H.TakenOver)
    ensures var j := Exec(aim, H.Start(size, now, detachAfter), es);
      && (exists t :: (m, t) in j.over && t in j.h.s.net.adopted)
      && (forall t :: (m, t) in j.over && t in j.from ==>
            && j.from[t] < |j.r.attempts|
            && var a := j.r.attempts[j.from[t]]; a.chose && !a.fate.GivenUp?)
  {
    var j := Exec(aim, H.Start(size, now, detachAfter), es);
    KeptHolds(aim, size, now, detachAfter, es);
    BothInvariants(aim, size, now, detachAfter, es);
    TakenOverIsOnRecord(H.HoldingOf(j.h), m);
    forall t | t in j.from
      ensures !j.r.attempts[j.from[t]].fate.GivenUp?
    {
      assert R.AttemptInv(j.r.attempts[j.from[t]]);
    }
  }

  /**
   The failover is safe: a standby the client failed over onto after giving an attempt up is never
   closed as taken over by that attempt, which has sent no Choose, whose attach the host has not had
   and which it has not adopted -- at no point of any run from then on.
   */
  lemma PromotedStandbyIsSafe(
    aim: R.Aim, size: H.Size, now: int, detachAfter: nat, es: seq<Event>, more: seq<Event>, l: H.LinkId)
    requires var j := Exec(aim, H.Start(size, now, detachAfter), es); l in j.failovers && j.failovers[l].Some?
    ensures var start := H.Start(size, now, detachAfter);
      var j, j' := Exec(aim, start, es), Exec(aim, start, es + more); var a := j.failovers[l].value;
      && a < |j'.r.attempts| && j'.r.attempts[a].fate.GivenUp?
      && !j'.r.attempts[a].chose && !j'.r.attempts[a].adopted
      && (forall m :: m in j'.from ==> j'.from[m] != a)
      && (l < |j'.h.s.net.status| && j'.h.s.net.status[l] == H.Closed(H.TakenOver) ==>
            && (exists t :: (l, t) in j'.over && t in j'.h.s.net.adopted)
            && (forall t :: (l, t) in j'.over && t in j'.from ==> j'.from[t] != a))
  {
    var start := H.Start(size, now, detachAfter);
    var j' := Exec(aim, start, es + more);
    FailoversStay(aim, size, now, detachAfter, es, more, l);
    KeptHolds(aim, size, now, detachAfter, es + more);
    BothInvariants(aim, size, now, detachAfter, es + more);
    assert R.AttemptInv(j'.r.attempts[j'.failovers[l].value]);
    if l < |j'.h.s.net.status| && j'.h.s.net.status[l] == H.Closed(H.TakenOver) {
      NoneTakenOverByTheAbandoned(aim, size, now, detachAfter, es + more, l);
    }
  }

  lemma {:induction false} FailoversStay(
    aim: R.Aim, size: H.Size, now: int, detachAfter: nat, es: seq<Event>, more: seq<Event>, l: H.LinkId)
    requires l in Exec(aim, H.Start(size, now, detachAfter), es).failovers
    ensures var start := H.Start(size, now, detachAfter);
      var j, j' := Exec(aim, start, es), Exec(aim, start, es + more);
      l in j'.failovers && j'.failovers[l] == j.failovers[l]
  {
    if more == [] {
      assert es + more == es;
    } else {
      var n := |more| - 1;
      FailoversStay(aim, size, now, detachAfter, es, more[..n], l);
      assert (es + more)[..|es + more| - 1] == es + more[..n];
      FailoverKept(Exec(aim, H.Start(size, now, detachAfter), es + more[..n]), more[n], l);
    }
  }

  lemma FailoverKept(j: Joint, e: Event, l: H.LinkId)
    requires l in j.failovers
    ensures l in Next(j, e).failovers && Next(j, e).failovers[l] == j.failovers[l]
  {
  }

  lemma ExecStep(aim: R.Aim, start: H.Host, es: seq<Event>, e: Event)
    ensures Exec(aim, start, es + [e]) == Next(Exec(aim, start, es), e)
  {
    assert (es + [e])[..|es|] == es;
  }

  ghost predicate LastGivenUp(r: R.System) {
    r.attempts != [] && var a := r.attempts[|r.attempts| - 1]; a.fate.GivenUp? && !a.chose
  }

  /**
   And it works: once the client has failed over, the first lap of the host that wakes to its frame on
   the parked standby makes the next turn one of the standby's, with a receiver of its own that meets
   that frame first, and the link it replaces closed as switched.
   */
  lemma FailoverReachesTheHost(
    aim: R.Aim, size: H.Size, now: int, detachAfter: nat, es: seq<Event>,
    l: H.LinkId, i: H.LapIn, id: nat, t: H.TurnIn)
    requires var j := Exec(aim, H.Start(size, now, detachAfter), es);
      && Swaps(j, l) && j.h.returned.None? && j.h.standby.Some? && j.h.standby.value.link == l
      && H.ReachesWake(j.h, i) && i.wake == H.StandbyFrame(id)
    ensures var start := H.Start(size, now, detachAfter);
      var j, j' := Exec(aim, start, es), Exec(aim, start, es + [FailsOver(l)] + [HostLap(i, FromElsewhere)]);
      var h1, h' := H.TopOfLap(j.h, i.turn).0, H.TopOfLap(j'.h, t).0;
      && l in j'.failovers && j'.failovers[l] == GivenUpFor(j)
      && (j.r.core.inFlight ==> LastGivenUp(j'.r))
      && h'.s.link == l && h'.s.rx == H.Receiver(l, |h1.s.net.adopted|)
      && |h1.s.net.fed| < |h'.s.net.fed| && h'.s.net.fed[|h1.s.net.fed|] == H.Fed(H.Frame(l, id), h'.s.rx)
      && h'.s.net.status == H.ClosedAs(h1.s.net.status, h1.s.link, H.Switched)
  {
    var start := H.Start(size, now, detachAfter);
    var j := Exec(aim, start, es);
    BothInvariants(aim, size, now, detachAfter, es);
    ExecStep(aim, start, es, FailsOver(l));
    ExecStep(aim, start, es + [FailsOver(l)], HostLap(i, FromElsewhere));
    GivesUp(j, l);
    HearsTheStandby(Next(j, FailsOver(l)), l, i, id, t);
  }

  lemma GivesUp(j: Joint, l: H.LinkId)
    requires R.Inv(j.r) && Swaps(j, l)
    ensures var j1 := Next(j, FailsOver(l));
      && j1.h == j.h && l in j1.failovers && j1.failovers[l] == GivenUpFor(j)
      && (j.r.core.inFlight ==> LastGivenUp(j1.r))
  {
    if j.r.core.inFlight {
      R.AbandonStep(j.r);
      assert R.AttemptInv(j.r.attempts[|j.r.attempts| - 1]);
    }
  }

  lemma HearsTheStandby(j: Joint, l: H.LinkId, i: H.LapIn, id: nat, t: H.TurnIn)
    requires H.Owned(H.HoldingOf(j.h)) && H.FramesInv(j.h) && j.h.returned.None?
    requires l in j.failovers && j.h.standby.Some? && j.h.standby.value.link == l
    requires H.ReachesWake(j.h, i) && i.wake == H.StandbyFrame(id)
    ensures var j' := Next(j, HostLap(i, FromElsewhere));
      var h1, h' := H.TopOfLap(j.h, i.turn).0, H.TopOfLap(j'.h, t).0;
      && j'.r == j.r && j'.failovers == j.failovers
      && h'.s.link == l && h'.s.rx == H.Receiver(l, |h1.s.net.adopted|)
      && |h1.s.net.fed| < |h'.s.net.fed| && h'.s.net.fed[|h1.s.net.fed|] == H.Fed(H.Frame(l, id), h'.s.rx)
      && h'.s.net.status == H.ClosedAs(h1.s.net.status, h1.s.link, H.Switched)
  {
    var h1 := H.TopOfLap(j.h, i.turn).0;
    H.TopKeepsOwned(j.h, i.turn);
    H.TopKeepsFrames(j.h, i.turn);
    assert h1.standby == j.h.standby;
    H.StandbyFrameSwitches(h1, id, t);
    assert H.Lap(j.h, i) == H.Woken(h1, H.StandbyFrame(id));
  }

  const PARKS := H.LapIn(H.IDLE, None, false, H.ZERO, false, false, H.AttachedLink(H.Standby, (24, 80), 0))

  lemma Parks(h: H.Host)
    requires h == H.Start((24, 80), 0, 30)
    ensures var h' := H.Lap(h, PARKS);
      h'.standby == Some(H.Parked(1, 0)) && |h'.s.net.status| == 2 && h'.returned.None?
  {
    H.TurnSameLinks(h.s, None, H.IDLE);
    assert H.Turn(h.s, None, H.IDLE).1.None?;
  }

  lemma ParksItsStandby(aim: R.Aim)
    ensures var j := Exec(aim, H.Start((24, 80), 0, 30), [HostLap(PARKS, OwnStandby)]);
      && j.r == R.Init(aim) && j.own == {1} && j.failovers == map[]
      && j.h.standby == Some(H.Parked(1, 0))
  {
    var start := H.Start((24, 80), 0, 30);
    var j := Exec(aim, start, []);
    Parks(start);
    assert [] + [HostLap(PARKS, OwnStandby)] == [HostLap(PARKS, OwnStandby)];
    ExecStep(aim, start, [], HostLap(PARKS, OwnStandby));
    assert HandsIn(j, HostLap(PARKS, OwnStandby));
  }

  /** A step of the client alone moves only the client. */
  lemma ClientMoves(j: Joint, c: R.Event)
    requires !c.HostAdopts? && !c.LoopAbandon?
    ensures var j' := Next(j, Client(c));
      j'.r == R.Next(j.r, c) && j'.h == j.h && j'.own == j.own && j'.failovers == j.failovers
  {
  }

  lemma BeginsAnAttempt(aim: R.Aim)
    ensures var r := R.Next(R.Init(aim), R.LoopBegin(0));
      r.attempts == [R.Fresh(aim)] && r.core.inFlight && !r.closed
  {
  }

  lemma FindsItsLineGone(r: R.System)
    requires |r.attempts| == 1 && r.attempts[0].fate.GivenUp? && r.attempts[0].line.Abandoned?
    requires r.attempts[0].pc.AtOffer?
    ensures var r' := R.Next(r, R.TaskClaims(0));
      |r'.attempts| == 1 && r'.attempts[0].fate.GivenUp? && r'.attempts[0].pc == R.Ended(R.Retry)
  {
  }

  lemma GivesUpTheFirst(j: Joint, aim: R.Aim)
    requires j.r == R.Next(R.Init(aim), R.LoopBegin(0)) && j.own == {1} && j.failovers == map[]
    ensures var j' := Next(j, FailsOver(1));
      && j'.h == j.h && j'.failovers == map[1 := Some(0)] && |j'.r.attempts| == 1
      && j'.r.attempts[0] == R.Fresh(aim).(line := R.Line.Abandoned, fate := R.GivenUp)
  {
    BeginsAnAttempt(aim);
    assert Swaps(j, 1);
    assert GivenUpFor(j) == Some(0);
  }

  /**
   Such a failover: a standby is parked, an attempt begins, and the client gives it up and fails over
   while it is still connecting. When the attempt comes to its line, it finds it gone.
   */
  lemma AbandonsAndFailsOver(aim: R.Aim)
    ensures var j := Exec(aim, H.Start((24, 80), 0, 30), [HostLap(PARKS, OwnStandby)]
        + [Client(R.LoopBegin(0))] + [FailsOver(1)] + [Client(R.TaskClaims(0))]);
      && j.failovers == map[1 := Some(0)] && j.h.standby == Some(H.Parked(1, 0))
      && |j.r.attempts| == 1 && j.r.attempts[0].fate.GivenUp? && j.r.attempts[0].pc == R.Ended(R.Retry)
  {
    var start := H.Start((24, 80), 0, 30);
    var a, b, c, d := HostLap(PARKS, OwnStandby), Client(R.LoopBegin(0)), FailsOver(1), Client(R.TaskClaims(0));
    ParksItsStandby(aim);
    ExecStep(aim, start, [a], b);
    ClientMoves(Exec(aim, start, [a]), R.LoopBegin(0));
    ExecStep(aim, start, [a] + [b], c);
    GivesUpTheFirst(Exec(aim, start, [a] + [b]), aim);
    ExecStep(aim, start, [a] + [b] + [c], d);
    var j := Exec(aim, start, [a] + [b] + [c]);
    ClientMoves(j, R.TaskClaims(0));
    FindsItsLineGone(j.r);
  }

  // ---------------------------------------------------------------- whose doing a takeover is

  /** Event `k` of the client's run `p` started attempt `a`. */
  ghost predicate Began(aim: R.Aim, p: seq<R.Event>, k: nat, a: nat) {
    k < |p| && R.BeginMarks(aim, p)[k] && |R.Exec(aim, p[..k]).attempts| == a
  }

  lemma {:induction false} BeganSomewhere(aim: R.Aim, p: seq<R.Event>, a: nat) returns (k: nat)
    requires a < |R.Exec(aim, p).attempts|
    ensures Began(aim, p, k, a)
  {
    var q := p[..|p| - 1];
    if a < |R.Exec(aim, q).attempts| {
      k := BeganSomewhere(aim, q, a);
      assert p[..k] == q[..k];
    } else {
      k := |p| - 1;
      AttemptsGrowByBegins(R.Exec(aim, q), p[k]);
    }
  }

  lemma AttemptsGrowByBegins(r: R.System, e: R.Event)
    ensures |R.Next(r, e).attempts| == |r.attempts| + if R.Begins(r, e) then 1 else 0
  {
  }

  /**
   A takeover that is the client's own doing is read as such: in every joint run, once the host has
   adopted one of its attempts the latch is up, unless the outage ended after that attempt began.
   */
  lemma TakeoverIsExcused(aim: R.Aim, size: H.Size, now: int, detachAfter: nat, es: seq<Event>, l: H.LinkId)
    requires l in Exec(aim, H.Start(size, now, detachAfter), es).from
    ensures var start := H.Start(size, now, detachAfter); var j, p := Exec(aim, start, es), ClientSide(aim, start, es);
      j.r.core.displacing ||
      exists k: nat, n :: Began(aim, p, k, j.from[l]) && k < n < |p| && R.OutageEndMarks(aim, p)[n]
  {
    var start := H.Start(size, now, detachAfter);
    var j, p := Exec(aim, start, es), ClientSide(aim, start, es);
    KeptHolds(aim, size, now, detachAfter, es);
    EachSideIsARun(aim, start, es);
    R.LatchExact(aim, p);
    var k := BeganSomewhere(aim, p, j.from[l]);
    if !j.r.core.displacing {
      var begun, ended := R.BeginMarks(aim, p), R.OutageEndMarks(aim, p);
      assert begun[k];
      var n :| k < n < |ended| && ended[n];
      assert Began(aim, p, k, j.from[l]);
    }
  }
}
