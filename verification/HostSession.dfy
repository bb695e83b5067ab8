/**
 Which link the host serves (src/host_session.rs): the loop with its one current link, one parked
 standby, a promotion owed to the next turn, a shell that can be killed to a lobby and started
 again, and a new generation at every adoption.

 The pty, the emulator and the sync channels are opaque. An emulator is its three counters, which
 only rise; the sender is the counters of the state it would offer; the receiver is tagged with
 the link and the generation it was made for. Everything the outside decides -- frames, sizes,
 exits, clocks, closing peers -- is an input of the step it happens in.
 */
module HostSession {
  import opened Histories
  import opened Options

  type LinkId = nat

  type Size = (nat, nat)

  // ---------------------------------------------------------------- screens

  /** The bell, scrollback and clipboard counts of a screen. */
  datatype Counters = Counters(bell: nat, scrollback: nat, copies: nat)
  {
    predicate AtMost(c: Counters) { bell <= c.bell && scrollback <= c.scrollback && copies <= c.copies }

    function Plus(c: Counters): Counters { Counters(bell + c.bell, scrollback + c.scrollback, copies + c.copies) }

    function Max(c: Counters): Counters {
      Counters(if bell < c.bell then c.bell else bell,
               if scrollback < c.scrollback then c.scrollback else scrollback,
               if copies < c.copies then c.copies else copies)
    }
  }

  /** A blank screen's. */
  const ZERO := Counters(0, 0, 0)

  // ---------------------------------------------------------------- links

  datatype Reason = TakenOver | Superseded | Switched | ShellExited(code: nat) | PeerClosed

  /** A status as a close can carry it: what is no `u32`, such as the -1 of a child lost track of, is 255. */
  function ExitCode(code: int): (wire: nat)
    ensures wire < 0x1_0000_0000 && (0 <= code < 0x1_0000_0000 ==> wire == code)
  {
    if 0 <= code < 0x1_0000_0000 then code else 255
  }

  datatype Status = Open | Closed(reason: Reason)

  /** A close is the first one's: a link closed already keeps its reason. */
  function ClosedAs(status: seq<Status>, l: LinkId, reason: Reason): seq<Status> {
    if l < |status| && status[l].Open? then status[l := Closed(reason)] else status
  }

  /** Why the loop let go of a link. */
  datatype Cause =
    | NewPrimary               // a newer attach displaced it, current or parked
    | OwnStandby               // the client failed over away from it
    | NewerStandby             // a newer standby took its slot
    | KilledToLobby            // parked, when the shell was killed for a lobby
    | ShellGone(code: int)     // parked, when the shell exited
    | LobbyEnded               // parked, when the lobby ended
    | WentAway                 // parked, and found closed

  function ReasonFor(cause: Cause): Reason {
    match cause
    case NewPrimary => TakenOver
    case OwnStandby => Switched
    case NewerStandby => Superseded
    case KilledToLobby => Superseded
    case ShellGone(code) => ShellExited(ExitCode(code))
    case LobbyEnded => Superseded
    case WentAway => PeerClosed
  }

  /** A frame and the link it came in on. */
  datatype Frame = Frame(link: LinkId, id: nat)

  /** The input receiver, by the link and the generation it was made for. */
  datatype Receiver = Receiver(link: LinkId, generation: nat)

  datatype Fed = Fed(frame: Frame, rx: Receiver)

  /** A state offered on a link; `hollow` when it was an adoption's blank. */
  datatype Offer = Offer(link: LinkId, counters: Counters, hollow: bool)

  /** Every link handed in, by number, and what became of it; and what went over them. */
  datatype Net = Net(
    status: seq<Status>, adopted: seq<LinkId>, lost: map<LinkId, Cause>, fed: seq<Fed>, offers: seq<Offer>)
  {
    function Close(l: LinkId, reason: Reason): Net {
      if l < |status| && status[l].Open? then this.(status := status[l := Closed(reason)]) else this
    }

    /** The loop lets go of `l`, closing it with the reason that goes with the cause. */
    function LetGo(l: LinkId, cause: Cause): Net {
      Close(l, ReasonFor(cause)).(lost := lost[l := cause])
    }

    predicate IsClosed(l: LinkId) { l < |status| && status[l].Closed? }
  }

  // ---------------------------------------------------------------- the session, on values

  /** `term` is `None` in a lobby. `hollow`: the sender still holds an adoption's blank. */
  datatype Session = Session(
    term: Option<Counters>, sender: Counters, hollow: bool, rx: Receiver, link: LinkId, size: Size,
    stale: bool, lastHeard: int, detachAfter: nat, net: Net)

  /** What one turn meets: the clock, the source, the size asked for, the pty, the pace. */
  datatype TurnIn = TurnIn(
    now: int, waiting: seq<nat>, wants: Option<Size>, delivered: bool,
    moved: bool, rise: Counters, due: bool, owed: bool, exited: Option<int>)

  function Feed(s: Session, f: Frame, now: int): Session {
    s.(lastHeard := now, net := s.net.(fed := s.net.fed + [Fed(f, s.rx)]))
  }

  /** The frames waiting on the current link, in order. */
  function FeedAll(s: Session, ids: seq<nat>, now: int): Session {
    if ids == [] then s else Feed(FeedAll(s, ids[..|ids| - 1], now), Frame(s.link, ids[|ids| - 1]), now)
  }

  /** A lobby's screen stays blank at any size, and keeps its counts (`lobby_screen`). */
  function Resize(s: Session, size: Size): Session {
    s.(size := size)
  }

  function Attached(s: Session, now: int): bool {
    !s.net.IsClosed(s.link) && now - s.lastHeard < s.detachAfter
  }

  function PollTerm(s: Session, attached: bool, moved: bool, rise: Counters): Session {
    match s.term
    case None => s
    case Some(t) =>
      var t' := if moved then t.Plus(rise) else t;
      if attached then
        if moved || s.stale then s.(term := Some(t'), sender := t', hollow := false, stale := false)
        else s
      else s.(term := Some(t'), stale := s.stale || moved)
  }

  function OfferState(s: Session): Session {
    s.(net := s.net.(offers := s.net.offers + [Offer(s.link, s.sender, s.hollow)]))
  }

  /** The inbound half of `turn_at`: the frames, the copies delivered, the size asked for. */
  function TakeIn(s: Session, first: Option<Frame>, t: TurnIn): Session {
    var s1 := if first.Some? then Feed(s, first.value, t.now) else s;
    var s2 := FeedAll(s1, t.waiting, t.now);
    var s3 := if s2.term.Some? && t.delivered then s2.(stale := true) else s2;
    if t.wants.Some? && 0 < t.wants.value.0 && 0 < t.wants.value.1 then Resize(s3, t.wants.value) else s3
  }

  /** The outbound half: drain the pty, snapshot and offer a frame if anybody is listening. */
  function PutOut(s: Session, t: TurnIn): Session {
    var attached := Attached(s, t.now);
    var s1 := PollTerm(s, attached, t.moved, t.rise);
    if attached && t.due && t.owed then OfferState(s1) else s1
  }

  function Turn(s: Session, first: Option<Frame>, t: TurnIn): (Session, Option<int>) {
    var s' := PutOut(TakeIn(s, first, t), t);
    (s', if s'.term.Some? then t.exited else None)
  }

  /** A new generation on `l`, the displaced link closed for `cause`. */
  function AdoptAs(s: Session, l: LinkId, size: Size, cause: Cause, now: int): Session {
    var net := s.net.LetGo(s.link, cause);
    var s1 := Resize(s.(net := net.(adopted := net.adopted + [l]), link := l), size);
    s1.(sender := if s.term.None? then s.sender else ZERO, hollow := s.term.Some?,
        rx := Receiver(l, |net.adopted|), stale := true, lastHeard := now)
  }

  function BecomeLobby(s: Session): Session {
    s.(term := None, sender := if s.term.Some? then s.term.value else s.sender, hollow := false, stale := false)
  }

  /** A new shell counts on from the screen before it. */
  function StartShell(s: Session): Session {
    s.(term := Some(ZERO.Max(s.sender)), stale := true)
  }

  /** The last screen, reliably, and then the close. */
  function Finish(s: Session, code: int, moved: bool, rise: Counters, owed: bool): Session {
    var s1 := if s.term.Some? && moved
      then var t := s.term.value.Plus(rise); s.(term := Some(t), sender := t, hollow := false) else s;
    var s2 := if owed then OfferState(s1) else s1;
    s2.(net := s2.net.Close(s2.link, ShellExited(ExitCode(code))))
  }

  // ---------------------------------------------------------------- the loop, on values

  datatype Role = Primary | Standby

  /** A parked standby and how many primaries had attached when it was parked. */
  datatype Parked = Parked(link: LinkId, epoch: nat)

  /** A promotion, with the epochs at its parking and at its adoption. */
  datatype Promotion = Promotion(parked: Parked, epoch: nat)

  datatype Host = Host(
    s: Session, pending: Option<Frame>, standby: Option<Parked>, promote: Option<(Parked, Frame)>,
    killing: Option<bool>, returned: Option<int>, epoch: nat, promotions: seq<Promotion>)

  /** What the `select!` of one lap came back with. */
  datatype Wake =
    | Quiet                                              // the pty, the exit hint or the pace
    | FrameIn(id: nat)
    | AttachedLink(role: Role, size: Size, at: int)
    | StandbyFrame(id: nat)
    | StandbyGone
    | LobbyOver(now: int)
    | CmdStartShell(spawned: bool, watched: bool)
    | CmdKill(end: bool)

  /**
   One lap's inputs: the turn, how a kill in progress is getting on, the last poll before a close,
   whether more output is waiting, and the wake.
   */
  datatype LapIn = LapIn(
    turn: TurnIn, killed: Option<int>, lastMoved: bool, lastRise: Counters, lastOwed: bool, more: bool, wake: Wake)

  function DropStandby(h: Host, cause: Cause): Host {
    if h.standby.None? then h
    else h.(standby := None, s := h.s.(net := h.s.net.LetGo(h.standby.value.link, cause)))
  }

  function Return(h: Host, code: int, i: LapIn): Host {
    var h1 := DropStandby(h, ShellGone(code));
    h1.(s := Finish(h1.s, code, i.lastMoved, i.lastRise, i.lastOwed), returned := Some(code))
  }

  function OnAttached(h: Host, role: Role, size: Size, at: int): Host {
    var l := |h.s.net.status|;
    var h0 := h.(s := h.s.(net := h.s.net.(status := h.s.net.status + [Open])));
    match role
    case Primary =>
      var h1 := DropStandby(h0, NewPrimary);
      h1.(s := AdoptAs(h1.s, l, size, NewPrimary, at), epoch := h1.epoch + 1)
    case Standby =>
      DropStandby(h0, NewerStandby).(standby := Some(Parked(l, h0.epoch)))
  }

  /** The top of a lap: a promotion owed, or a turn with a frame owed, or a plain turn. */
  function TopOfLap(h: Host, t: TurnIn): (Host, Option<int>) {
    match h.promote
    case Some((parked, first)) =>
      var s := AdoptAs(h.s, parked.link, h.s.size, OwnStandby, t.now);
      var (s', exited) := Turn(s, Some(first), t);
      (h.(s := s', promote := None, pending := None,
          promotions := h.promotions + [Promotion(parked, h.epoch)]), exited)
    case None =>
      var (s', exited) := Turn(h.s, h.pending, t);
      (h.(s := s', pending := None), exited)
  }

  /** A kill in progress that is over, if it is. */
  function KillOver(h: Host, exited: Option<int>, killed: Option<int>): Option<int> {
    if h.killing.None? then None
    else if h.s.term.None? then Some(-1)
    else if exited.Some? then exited
    else killed
  }

  function Woken(h: Host, wake: Wake): Host {
    match wake
    case Quiet => h
    case FrameIn(id) => h.(pending := Some(Frame(h.s.link, id)))
    case AttachedLink(role, size, at) => OnAttached(h, role, size, at)
    case StandbyFrame(id) =>
      if h.standby.None? then h
      else h.(standby := None, promote := Some((h.standby.value, Frame(h.standby.value.link, id))))
    case StandbyGone =>
      // the source of a parked link ends only with its connection
      if h.standby.None? || !h.s.net.IsClosed(h.standby.value.link) then h else DropStandby(h, WentAway)
    case LobbyOver(now) =>
      if h.s.term.None? && (h.s.net.IsClosed(h.s.link) || now - h.s.lastHeard >= h.s.detachAfter)
      then DropStandby(h, LobbyEnded).(returned := Some(0)) else h
    case CmdStartShell(spawned, watched) =>
      if h.killing.Some? || h.s.term.Some? then h
      else if spawned && watched then h.(s := StartShell(h.s))
      else h.(s := BecomeLobby(if spawned then StartShell(h.s) else h.s))
    case CmdKill(end) =>
      if h.killing.Some? || h.s.term.None? then h else h.(killing := Some(end))
  }

  function EndKill(h: Host, code: int, i: LapIn): Host
    requires h.killing.Some?
  {
    var h1 := h.(killing := None);
    if h.killing.value then Return(h1, code, i)
    else var h2 := DropStandby(h1, KilledToLobby); h2.(s := BecomeLobby(h2.s))
  }

  function RestOfLap(h: Host, exited: Option<int>, i: LapIn): Host {
    var over := KillOver(h, exited, i.killed);
    if over.Some? then EndKill(h, over.value, i)
    else if exited.Some? then Return(h, exited.value, i)
    else if h.s.term.Some? && i.more then h
    else Woken(h, i.wake)
  }

  function Lap(h: Host, i: LapIn): Host {
    var (h1, exited) := TopOfLap(h, i.turn);
    RestOfLap(h1, exited, i)
  }

  // ---------------------------------------------------------------- runs

  datatype Event = RunLap(i: LapIn) | PeerCloses(l: LinkId)

  /** A lobby on the first link, link 0. */
  function Start(size: Size, now: int, detachAfter: nat): Host {
    Host(Session(None, ZERO, false, Receiver(0, 0), 0, size, false, now, detachAfter,
                 Net([Open], [0], map[], [], [])),
         None, None, None, None, None, 0, [])
  }

  function Next(h: Host, e: Event): Host {
    match e
    case PeerCloses(l) => h.(s := h.s.(net := h.s.net.Close(l, PeerClosed)))
    case RunLap(i) => if h.returned.Some? then h else Lap(h, i)
  }

  ghost function Exec(start: Host, es: seq<Event>): Host {
    if es == [] then start else Next(Exec(start, es[..|es| - 1]), es[|es| - 1])
  }

  // ---------------------------------------------------------------- what a turn leaves alone

  /** `s'` is `s` after taking in frames of its own link, or `first`, and nothing else about links. */
  ghost predicate SameLinks(s: Session, first: Option<Frame>, s': Session) {
    && s'.link == s.link && s'.rx == s.rx && s'.detachAfter == s.detachAfter
    && s'.net == s.net.(fed := s'.net.fed, offers := s'.net.offers)
    && (s'.term.Some? <==> s.term.Some?)
    && s.net.fed <= s'.net.fed
    && forall k :: |s.net.fed| <= k < |s'.net.fed| ==>
         s'.net.fed[k].rx == s.rx && (s'.net.fed[k].frame.link == s.link || first == Some(s'.net.fed[k].frame))
  }

  lemma {:induction false} FeedAllSameLinks(s: Session, ids: seq<nat>, now: int)
    ensures SameLinks(s, None, FeedAll(s, ids, now))
    ensures FeedAll(s, ids, now).net.offers == s.net.offers
    ensures var s' := FeedAll(s, ids, now); s' == s.(net := s'.net, lastHeard := s'.lastHeard)
  {
    if ids != [] {
      FeedAllSameLinks(s, ids[..|ids| - 1], now);
    }
  }

  lemma TakeInSameLinks(s: Session, first: Option<Frame>, t: TurnIn)
    ensures SameLinks(s, first, TakeIn(s, first, t))
  {
    var s1 := if first.Some? then Feed(s, first.value, t.now) else s;
    FeedAllSameLinks(s1, t.waiting, t.now);
  }

  lemma PutOutSameLinks(s: Session, t: TurnIn)
    ensures var s' := PutOut(s, t);
      && s'.link == s.link && s'.rx == s.rx && s'.detachAfter == s.detachAfter
      && s'.net == s.net.(offers := s'.net.offers) && (s'.term.Some? <==> s.term.Some?)
  {
  }

  lemma TurnSameLinks(s: Session, first: Option<Frame>, t: TurnIn)
    ensures SameLinks(s, first, Turn(s, first, t).0)
  {
    TakeInSameLinks(s, first, t);
    PutOutSameLinks(TakeIn(s, first, t), t);
  }

  // ---------------------------------------------------------------- what a turn does

  lemma {:induction false} FeedAllHears(s: Session, ids: seq<nat>, now: int)
    ensures FeedAll(s, ids, now).lastHeard == if ids == [] then s.lastHeard else now
  {
    if ids != [] {
      FeedAllHears(s, ids[..|ids| - 1], now);
    }
  }

  /**
   Somebody is listening if and only if the link is open and a frame -- of this turn, any frame, or
   else the last one before it -- is less than `detachAfter` old.
   */
  lemma AttachedExactly(s: Session, first: Option<Frame>, t: TurnIn)
    ensures Attached(TakeIn(s, first, t), t.now) <==>
      && !s.net.IsClosed(s.link)
      && (if first.Some? || t.waiting != [] then 0 else t.now - s.lastHeard) < s.detachAfter
  {
    var s1 := if first.Some? then Feed(s, first.value, t.now) else s;
    FeedAllHears(s1, t.waiting, t.now);
    FeedAllSameLinks(s1, t.waiting, t.now);
  }

  /**
   The shell is drained on every turn, heard or not: its emulator has every byte's counts, and only
   a turn nobody listens to leaves a snapshot owed.
   */
  lemma ShellIsDrained(s: Session, first: Option<Frame>, t: TurnIn)
    requires s.term.Some?
    ensures var s' := Turn(s, first, t).0;
      && s'.term == Some(if t.moved then s.term.value.Plus(t.rise) else s.term.value)
      && (s'.stale <==> !Attached(TakeIn(s, first, t), t.now) && (s.stale || t.delivered || t.moved))
  {
    var s1 := if first.Some? then Feed(s, first.value, t.now) else s;
    FeedAllSameLinks(s1, t.waiting, t.now);
  }

  /** A size a turn can be given that is one. */
  predicate IsSize(wants: Option<Size>) {
    wants.Some? && 0 < wants.value.0 && 0 < wants.value.1
  }

  lemma TurnSize(s: Session, first: Option<Frame>, t: TurnIn)
    ensures Turn(s, first, t).0.size == if IsSize(t.wants) then t.wants.value else s.size
  {
    var s1 := if first.Some? then Feed(s, first.value, t.now) else s;
    FeedAllSameLinks(s1, t.waiting, t.now);
  }

  /** The lap `i` gets as far as its wake. */
  predicate ReachesWake(h: Host, i: LapIn) {
    var (h1, exited) := TopOfLap(h, i.turn);
    KillOver(h1, exited, i.killed).None? && exited.None? && !(h1.s.term.Some? && i.more)
  }

  /** The size `e` says in `h`: that of the primary that attaches, or else the one its client asks for. */
  function SizeSaid(h: Host, e: Event): Option<Size> {
    if e.PeerCloses? || h.returned.Some? then None
    else if e.i.wake.AttachedLink? && e.i.wake.role.Primary? && ReachesWake(h, e.i) then Some(e.i.wake.size)
    else if IsSize(e.i.turn.wants) then e.i.turn.wants
    else None
  }

  /** The last size said in the run `es`. */
  ghost function LastSize(start: Host, es: seq<Event>): Size {
    if es == [] then start.s.size
    else
      var p, e := es[..|es| - 1], es[|es| - 1];
      match SizeSaid(Exec(start, p), e)
      case Some(size) => size
      case None => LastSize(start, p)
  }

  lemma TopSize(h: Host, t: TurnIn)
    ensures TopOfLap(h, t).0.s.size == if IsSize(t.wants) then t.wants.value else h.s.size
  {
    match h.promote
    case Some((parked, first)) => TurnSize(AdoptAs(h.s, parked.link, h.s.size, OwnStandby, t.now), Some(first), t);
    case None => TurnSize(h.s, h.pending, t);
  }

  lemma ReturnSize(h: Host, code: int, i: LapIn)
    ensures Return(h, code, i).s.size == h.s.size
  {
  }

  lemma WokenSize(h: Host, wake: Wake)
    ensures Woken(h, wake).s.size == if wake.AttachedLink? && wake.role.Primary? then wake.size else h.s.size
  {
  }

  lemma RestSize(h: Host, exited: Option<int>, i: LapIn)
    ensures RestOfLap(h, exited, i).s.size ==
      if && KillOver(h, exited, i.killed).None? && exited.None? && !(h.s.term.Some? && i.more)
         && i.wake.AttachedLink? && i.wake.role.Primary?
      then i.wake.size else h.s.size
  {
    var over := KillOver(h, exited, i.killed);
    if over.Some? {
      ReturnSize(h.(killing := None), over.value, i);
    } else if exited.Some? {
      ReturnSize(h, exited.value, i);
    } else {
      WokenSize(h, i.wake);
    }
  }

  /**
   Over every run the session is as big as its client last said: a primary by attaching, and any
   client by a frame, whatever shells, lobbies and failovers came in between.
   */
  lemma {:induction false} SizeIsTheClients(start: Host, es: seq<Event>)
    ensures Exec(start, es).s.size == LastSize(start, es)
  {
    if es != [] {
      var p, e := es[..|es| - 1], es[|es| - 1];
      SizeIsTheClients(start, p);
      var h := Exec(start, p);
      if e.RunLap? && h.returned.None? {
        TopSize(h, e.i.turn);
        RestSize(TopOfLap(h, e.i.turn).0, TopOfLap(h, e.i.turn).1, e.i);
      }
    }
  }

  /**
   A kill that is over: for a sibling the session ends with the shell's status; for its own client it
   is a lobby on the same link, with the shell's last counts and nothing parked, and goes on.
   */
  lemma KillEndsOrLeavesALobby(h: Host, exited: Option<int>, i: LapIn)
    requires h.returned.None? && KillOver(h, exited, i.killed).Some?
    ensures var h' := RestOfLap(h, exited, i);
      && h'.killing.None? && h'.standby.None? && h'.s.link == h.s.link
      && (if h.killing.value then h'.returned == KillOver(h, exited, i.killed)
          else
            && h'.returned.None? && h'.s.term.None? && !h'.s.stale
            && h'.s.sender == (if h.s.term.Some? then h.s.term.value else h.s.sender)
            && h'.s.net.offers == h.s.net.offers)
  {
  }

  // ---------------------------------------------------------------- every frame meets its own receiver

  /** What the path of a frame depends on. */
  datatype Paths = Paths(
    link: LinkId, rx: Receiver, adopted: seq<LinkId>, fed: seq<Fed>,
    pending: Option<Frame>, promote: Option<(Parked, Frame)>)

  function PathsOf(h: Host): Paths {
    Paths(h.s.link, h.s.rx, h.s.net.adopted, h.s.net.fed, h.pending, h.promote)
  }

  /**
   The receiver is the one made for the current link at the last adoption, a frame owed to the next
   turn came in on the link it will be fed to, and every frame ever fed met the receiver of its own
   link: the one made when that link was adopted.
   */
  ghost predicate PathsOk(p: Paths) {
    && p.adopted != [] && p.adopted[|p.adopted| - 1] == p.link
    && p.rx == Receiver(p.link, |p.adopted| - 1)
    && (forall k :: 0 <= k < |p.fed| ==>
          && p.fed[k].rx.generation < |p.adopted|
          && p.adopted[p.fed[k].rx.generation] == p.fed[k].rx.link == p.fed[k].frame.link)
    && (p.pending.Some? ==> p.pending.value.link == p.link)
    && (p.promote.Some? ==> p.promote.value.1.link == p.promote.value.0.link && p.pending.None?)
  }

  ghost predicate FramesInv(h: Host) {
    PathsOk(PathsOf(h))
  }

  lemma TopKeepsFrames(h: Host, t: TurnIn)
    requires FramesInv(h)
    ensures FramesInv(TopOfLap(h, t).0)
    ensures TopOfLap(h, t).0.pending.None? && TopOfLap(h, t).0.promote.None?
  {
    match h.promote
    case Some((parked, first)) =>
      TurnSameLinks(AdoptAs(h.s, parked.link, h.s.size, OwnStandby, t.now), Some(first), t);
    case None =>
      TurnSameLinks(h.s, h.pending, t);
  }

  lemma AttachKeepsFrames(h: Host, role: Role, size: Size, at: int)
    requires FramesInv(h) && h.pending.None? && h.promote.None?
    ensures FramesInv(OnAttached(h, role, size, at))
  {
    var p, p' := PathsOf(h), PathsOf(OnAttached(h, role, size, at));
    assert p'.fed == p.fed;
    assert role.Primary? ==> p'.adopted == p.adopted + [p'.link];
  }

  lemma DropKeepsPaths(h: Host, cause: Cause)
    ensures PathsOf(DropStandby(h, cause)) == PathsOf(h)
  {
  }

  lemma FinishKeepsPaths(s: Session, code: int, moved: bool, rise: Counters, owed: bool)
    ensures var s' := Finish(s, code, moved, rise, owed);
      s'.link == s.link && s'.rx == s.rx && s'.net.adopted == s.net.adopted && s'.net.fed == s.net.fed
  {
  }

  lemma ReturnKeepsPaths(h: Host, code: int, i: LapIn)
    ensures PathsOf(Return(h, code, i)) == PathsOf(h)
  {
    DropKeepsPaths(h, ShellGone(code));
    FinishKeepsPaths(DropStandby(h, ShellGone(code)).s, code, i.lastMoved, i.lastRise, i.lastOwed);
  }

  lemma EndKillKeepsPaths(h: Host, code: int, i: LapIn)
    requires h.killing.Some?
    ensures PathsOf(EndKill(h, code, i)) == PathsOf(h)
  {
    ReturnKeepsPaths(h.(killing := None), code, i);
    DropKeepsPaths(h.(killing := None), KilledToLobby);
  }

  lemma WokenKeepsFrames(h: Host, wake: Wake)
    requires FramesInv(h) && h.pending.None? && h.promote.None?
    ensures FramesInv(Woken(h, wake))
  {
    var p, p' := PathsOf(h), PathsOf(Woken(h, wake));
    match wake
    case AttachedLink(role, size, at) => AttachKeepsFrames(h, role, size, at);
    case FrameIn(id) => assert p' == p.(pending := Some(Frame(h.s.link, id)));
    case StandbyFrame(id) => assert p' == p.(promote := p'.promote);
    case _ => assert p' == p;
  }

  /** The rest of a lap feeds nothing; a primary attach is the one thing in it that moves the link. */
  lemma RestKeepsFrames(h: Host, exited: Option<int>, i: LapIn)
    requires FramesInv(h) && h.pending.None? && h.promote.None?
    ensures FramesInv(RestOfLap(h, exited, i))
  {
    var over := KillOver(h, exited, i.killed);
    if over.Some? {
      EndKillKeepsPaths(h, over.value, i);
    } else if exited.Some? {
      ReturnKeepsPaths(h, exited.value, i);
    } else {
      WokenKeepsFrames(h, i.wake);
    }
  }

  lemma {:induction false} FramesInvHolds(start: Host, es: seq<Event>)
    requires FramesInv(start)
    ensures FramesInv(Exec(start, es))
  {
    if es != [] {
      FramesInvHolds(start, es[..|es| - 1]);
      var h, e := Exec(start, es[..|es| - 1]), es[|es| - 1];
      if e.RunLap? && h.returned.None? {
        TopKeepsFrames(h, e.i.turn);
        RestKeepsFrames(TopOfLap(h, e.i.turn).0, TopOfLap(h, e.i.turn).1, e.i);
      }
    }
  }

  // ---------------------------------------------------------------- a kill has a shell to end

  ghost predicate KillInv(h: Host) {
    h.killing.Some? ==> h.s.term.Some? && h.returned.None?
  }

  lemma TopKeepsKill(h: Host, t: TurnIn)
    ensures var h' := TopOfLap(h, t).0;
      h'.killing == h.killing && h'.returned == h.returned && (h'.s.term.Some? <==> h.s.term.Some?)
  {
    match h.promote
    case Some((parked, first)) =>
      TurnSameLinks(AdoptAs(h.s, parked.link, h.s.size, OwnStandby, t.now), Some(first), t);
    case None =>
      TurnSameLinks(h.s, h.pending, t);
  }

  lemma WokenKeepsKill(h: Host, wake: Wake)
    requires KillInv(h) && h.returned.None?
    ensures KillInv(Woken(h, wake))
  {
  }

  lemma RestKeepsKill(h: Host, exited: Option<int>, i: LapIn)
    requires KillInv(h) && h.returned.None?
    ensures KillInv(RestOfLap(h, exited, i))
  {
    if KillOver(h, exited, i.killed).Some? {
      KillEndsOrLeavesALobby(h, exited, i);
    } else {
      WokenKeepsKill(h, i.wake);
    }
  }

  lemma {:induction false} KillInvHolds(start: Host, es: seq<Event>)
    requires KillInv(start)
    ensures KillInv(Exec(start, es))
  {
    if es != [] {
      KillInvHolds(start, es[..|es| - 1]);
      var h, e := Exec(start, es[..|es| - 1]), es[|es| - 1];
      if e.RunLap? && h.returned.None? {
        TopKeepsKill(h, e.i.turn);
        RestKeepsKill(TopOfLap(h, e.i.turn).0, TopOfLap(h, e.i.turn).1, e.i);
      }
    }
  }

  /**
   Over every run, a kill in progress has a shell -- the loop's answer for one without is never
   needed -- and is over on exactly the lap that finds the shell exited or reaped. A sibling's ends
   the session with the shell's status; its own client's leaves a lobby with the shell's last counts
   and nothing parked. And one begins if and only if there is a shell and no kill yet.
   */
  lemma KillHasAShell(size: Size, now: int, detachAfter: nat, es: seq<Event>, i: LapIn, end: bool)
    requires Exec(Start(size, now, detachAfter), es).returned.None?
    ensures var h := Exec(Start(size, now, detachAfter), es); var h1 := TopOfLap(h, i.turn).0;
      var over := if i.turn.exited.Some? then i.turn.exited else i.killed;
      && (h.killing.Some? ==> h1.s.term.Some?)
      && (h.killing.Some? && over.Some? ==> KillIsOver(h.killing.value, over, h1, Lap(h, i)))
      && (h.killing.Some? && over.None? ==> Lap(h, i).returned.None? && Lap(h, i).killing == h.killing)
      && Woken(h1, CmdKill(end)).killing == if h.killing.None? && h.s.term.Some? then Some(end) else h.killing
  {
    var h := Exec(Start(size, now, detachAfter), es);
    KillInvHolds(Start(size, now, detachAfter), es);
    TopKeepsKill(h, i.turn);
    TopReports(h, i.turn);
    var (h1, exited) := TopOfLap(h, i.turn);
    KillBegins(h1, end);
    if KillOver(h1, exited, i.killed).Some? {
      KillEndsOrLeavesALobby(h1, exited, i);
    } else if h.killing.Some? {
      WokenKeepsKilling(h1, i.wake);
    }
  }

  /** What is left of a kill that is over: nothing but the end of the session, or a lobby. */
  ghost predicate KillIsOver(end: bool, over: Option<int>, h: Host, h': Host) {
    && h'.killing.None? && h'.standby.None? && h'.s.link == h.s.link
    && (if end then h'.returned == over
        else h'.returned.None? && h'.s.term.None? && Some(h'.s.sender) == h.s.term && h'.s.net.offers == h.s.net.offers)
  }

  lemma WokenKeepsKilling(h: Host, wake: Wake)
    requires h.killing.Some? && h.s.term.Some? && h.returned.None?
    ensures Woken(h, wake).killing == h.killing && Woken(h, wake).returned.None?
  {
  }

  lemma TopReports(h: Host, t: TurnIn)
    ensures TopOfLap(h, t).1 == if h.s.term.Some? then t.exited else None
  {
    match h.promote
    case Some((parked, first)) =>
      TurnReports(AdoptAs(h.s, parked.link, h.s.size, OwnStandby, t.now), Some(first), t);
    case None => TurnReports(h.s, h.pending, t);
  }

  lemma TurnReports(s: Session, first: Option<Frame>, t: TurnIn)
    ensures Turn(s, first, t).1 == if s.term.Some? then t.exited else None
  {
    TurnSameLinks(s, first, t);
  }

  lemma KillBegins(h: Host, end: bool)
    ensures Woken(h, CmdKill(end)).killing == if h.killing.None? && h.s.term.Some? then Some(end) else h.killing
  {
  }

  // ---------------------------------------------------------------- every link has one owner

  /**
   Who holds which link. `incoming` is one that has been handed in and not yet placed, which it is
   before the step that took it is over.
   */
  datatype Holding = Holding(
    status: seq<Status>, lost: map<LinkId, Cause>, adopted: seq<LinkId>, link: LinkId, incoming: Option<LinkId>,
    parked: Option<Parked>, promoted: Option<Parked>, epoch: nat, promotions: seq<Promotion>, returned: bool)
  {
    predicate Holds(l: LinkId) {
      || l == link || incoming == Some(l)
      || (parked.Some? && parked.value.link == l) || (promoted.Some? && promoted.value.link == l)
    }

    predicate Fresh(l: LinkId) {
      l < |status| && (status[l].Open? || status[l] == Closed(PeerClosed)) && l !in adopted
    }
  }

  function HoldingOf(h: Host): Holding {
    Holding(h.s.net.status, h.s.net.lost, h.s.net.adopted, h.s.link, None, h.standby,
            if h.promote.Some? then Some(h.promote.value.0) else None, h.epoch, h.promotions, h.returned.Some?)
  }

  /**
   Each link ever handed in is the current one, the parked one or the one being promoted -- three
   different links -- or it has been let go of, once, for a cause on record, and is closed with that
   cause's reason unless its peer had closed it first. What is parked or being promoted was parked
   since the last primary attach, and so was everything ever promoted.
   */
  ghost predicate Owned(o: Holding) {
    && o.link < |o.status|
    && (o.status[o.link].Open? || o.status[o.link] == Closed(PeerClosed)
        || (o.returned && o.status[o.link].reason.ShellExited?))
    && (o.incoming.Some? ==> o.Fresh(o.incoming.value) && o.incoming.value != o.link)
    && (o.parked.Some? ==>
          o.Fresh(o.parked.value.link) && o.parked.value.link != o.link && o.parked.value.epoch == o.epoch)
    && (o.promoted.Some? ==>
          o.Fresh(o.promoted.value.link) && o.promoted.value.link != o.link && o.promoted.value.epoch == o.epoch)
    && (o.incoming.Some? && o.parked.Some? ==> o.incoming.value != o.parked.value.link)
    && (o.promoted.Some? ==> o.parked.None? && o.incoming.None?)
    && (forall l :: l in o.lost ==> l < |o.status|)
    && (forall l :: 0 <= l < |o.status| ==> (l in o.lost <==> !o.Holds(l)))
    && (forall l :: l in o.lost ==> o.status[l] == Closed(ReasonFor(o.lost[l])) || o.status[l] == Closed(PeerClosed))
    && (forall k :: 0 <= k < |o.adopted| ==> o.adopted[k] < |o.status|)
    && (forall j, k :: 0 <= j < k < |o.adopted| ==> o.adopted[j] != o.adopted[k])
    && o.link in o.adopted
    && (forall k :: 0 <= k < |o.promotions| ==> o.promotions[k].parked.epoch == o.promotions[k].epoch)
    && (o.returned ==> o.parked.None? && o.promoted.None?)
  }

  function HandedIn(o: Holding): Holding {
    o.(status := o.status + [Open], incoming := Some(|o.status|))
  }

  function Unpark(o: Holding, cause: Cause): Holding {
    if o.parked.None? then o
    else var l := o.parked.value.link;
      o.(parked := None, status := ClosedAs(o.status, l, ReasonFor(cause)), lost := o.lost[l := cause])
  }

  function Adopt(o: Holding, cause: Cause): Holding
    requires o.incoming.Some?
  {
    o.(link := o.incoming.value, incoming := None, adopted := o.adopted + [o.incoming.value],
       status := ClosedAs(o.status, o.link, ReasonFor(cause)), lost := o.lost[o.link := cause])
  }

  lemma HandedInKeepsOwned(o: Holding)
    requires Owned(o) && o.incoming.None? && o.promoted.None?
    ensures Owned(HandedIn(o))
  {
  }

  lemma UnparkKeepsOwned(o: Holding, cause: Cause)
    requires Owned(o)
    ensures Owned(Unpark(o, cause))
  {
  }

  lemma AdoptKeepsOwned(o: Holding, cause: Cause)
    requires Owned(o) && o.incoming.Some? && !o.returned
    ensures Owned(Adopt(o, cause))
  {
  }

  lemma PromoteMoves(o: Holding)
    requires Owned(o) && o.promoted.Some?
    ensures var p := o.promoted.value;
      Owned(o.(promoted := None, incoming := Some(p.link), promotions := o.promotions + [Promotion(p, o.epoch)]))
  {
  }

  // ---------------------------------------------------------------- the loop as moves of links

  lemma TopKeepsOwned(h: Host, t: TurnIn)
    requires Owned(HoldingOf(h)) && h.returned.None?
    ensures Owned(HoldingOf(TopOfLap(h, t).0)) && TopOfLap(h, t).0.promote.None? && TopOfLap(h, t).0.returned.None?
  {
    var o := HoldingOf(h);
    match h.promote
    case Some((parked, first)) =>
      var s := AdoptAs(h.s, parked.link, h.s.size, OwnStandby, t.now);
      TurnSameLinks(s, Some(first), t);
      var o1 := o.(promoted := None, incoming := Some(parked.link),
                   promotions := o.promotions + [Promotion(parked, o.epoch)]);
      PromoteMoves(o);
      AdoptKeepsOwned(o1, OwnStandby);
      assert HoldingOf(TopOfLap(h, t).0) == Adopt(o1, OwnStandby);
    case None =>
      TurnSameLinks(h.s, h.pending, t);
      assert HoldingOf(TopOfLap(h, t).0) == o;
  }

  lemma EpochMoves(o: Holding, epoch: nat)
    requires Owned(o) && o.parked.None? && o.promoted.None?
    ensures Owned(o.(epoch := epoch))
  {
  }

  lemma Parks(o: Holding)
    requires Owned(o) && o.incoming.Some? && o.parked.None? && !o.returned
    ensures Owned(o.(incoming := None, parked := Some(Parked(o.incoming.value, o.epoch))))
  {
  }

  lemma PrimaryIsAdopt(h: Host, size: Size, at: int)
    requires h.promote.None?
    ensures HoldingOf(OnAttached(h, Primary, size, at))
      == Adopt(Unpark(HandedIn(HoldingOf(h)), NewPrimary), NewPrimary).(epoch := h.epoch + 1)
  {
  }

  lemma PrimaryKeepsOwned(h: Host, size: Size, at: int)
    requires Owned(HoldingOf(h)) && h.promote.None? && h.returned.None?
    ensures Owned(HoldingOf(OnAttached(h, Primary, size, at)))
  {
    var o1 := HandedIn(HoldingOf(h));
    HandedInKeepsOwned(HoldingOf(h));
    UnparkKeepsOwned(o1, NewPrimary);
    AdoptKeepsOwned(Unpark(o1, NewPrimary), NewPrimary);
    EpochMoves(Adopt(Unpark(o1, NewPrimary), NewPrimary), h.epoch + 1);
    PrimaryIsAdopt(h, size, at);
  }

  lemma StandbyIsPark(h: Host, size: Size, at: int)
    requires h.promote.None?
    ensures HoldingOf(OnAttached(h, Standby, size, at))
      == Unpark(HandedIn(HoldingOf(h)), NewerStandby)
           .(incoming := None, parked := Some(Parked(|h.s.net.status|, h.epoch)))
  {
  }

  lemma StandbyKeepsOwned(h: Host, size: Size, at: int)
    requires Owned(HoldingOf(h)) && h.promote.None? && h.returned.None?
    ensures Owned(HoldingOf(OnAttached(h, Standby, size, at)))
  {
    var o1 := HandedIn(HoldingOf(h));
    HandedInKeepsOwned(HoldingOf(h));
    UnparkKeepsOwned(o1, NewerStandby);
    Parks(Unpark(o1, NewerStandby));
    StandbyIsPark(h, size, at);
  }

  lemma DropIsUnpark(h: Host, cause: Cause)
    ensures HoldingOf(DropStandby(h, cause)) == Unpark(HoldingOf(h), cause)
  {
  }

  lemma ReturnKeepsOwned(h: Host, code: int, i: LapIn)
    requires Owned(HoldingOf(h)) && h.promote.None?
    ensures Owned(HoldingOf(Return(h, code, i)))
  {
    var o := HoldingOf(h);
    DropIsUnpark(h, ShellGone(code));
    UnparkKeepsOwned(o, ShellGone(code));
    var o1 := Unpark(o, ShellGone(code));
    ReturningKeepsOwned(o1, code);
    FinishCloses(DropStandby(h, ShellGone(code)).s, code, i.lastMoved, i.lastRise, i.lastOwed);
    assert HoldingOf(Return(h, code, i))
      == o1.(status := ClosedAs(o1.status, o1.link, ShellExited(ExitCode(code))), returned := true);
  }

  lemma ReturningKeepsOwned(o: Holding, code: int)
    requires Owned(o) && o.promoted.None? && o.parked.None?
    ensures Owned(o.(status := ClosedAs(o.status, o.link, ShellExited(ExitCode(code))), returned := true))
  {
  }

  lemma FinishCloses(s: Session, code: int, moved: bool, rise: Counters, owed: bool)
    ensures var s' := Finish(s, code, moved, rise, owed);
      && s'.net.status == ClosedAs(s.net.status, s.link, ShellExited(ExitCode(code)))
      && s'.net.lost == s.net.lost && s'.net.adopted == s.net.adopted && s'.link == s.link
  {
  }

  lemma EndKillKeepsOwned(h: Host, code: int, i: LapIn)
    requires Owned(HoldingOf(h)) && h.promote.None? && h.killing.Some?
    ensures Owned(HoldingOf(EndKill(h, code, i)))
  {
    var h1 := h.(killing := None);
    assert HoldingOf(h1) == HoldingOf(h);
    if h.killing.value {
      ReturnKeepsOwned(h1, code, i);
    } else {
      DropIsUnpark(h1, KilledToLobby);
      UnparkKeepsOwned(HoldingOf(h1), KilledToLobby);
      assert HoldingOf(EndKill(h, code, i)) == HoldingOf(DropStandby(h1, KilledToLobby));
    }
  }

  /** The wakes that move no link but the parked one. */
  lemma ParkedWakes(h: Host, wake: Wake)
    requires h.promote.None? && h.returned.None? && !wake.AttachedLink?
    ensures var o, o' := HoldingOf(h), HoldingOf(Woken(h, wake));
      match wake
      case StandbyFrame(_) => o' == o.(parked := None, promoted := o.parked)
      case StandbyGone =>
        o' == if h.standby.Some? && h.s.net.IsClosed(h.standby.value.link) then Unpark(o, WentAway) else o
      case LobbyOver(now) =>
        o' == if h.s.term.None? && !Attached(h.s, now) then Unpark(o, LobbyEnded).(returned := true) else o
      case _ => o' == o
  {
  }

  /**
   Failing over: a frame on the parked standby makes it the current link at the next lap, closes the
   link it replaces as switched, and is itself the first thing fed to the receiver made for it.
   */
  lemma StandbyFrameSwitches(h: Host, id: nat, t: TurnIn)
    requires Owned(HoldingOf(h)) && h.returned.None? && h.promote.None? && h.pending.None? && h.standby.Some?
    ensures var l, h' := h.standby.value.link, TopOfLap(Woken(h, StandbyFrame(id)), t).0;
      && h'.s.link == l && h'.s.rx == Receiver(l, |h.s.net.adopted|)
      && h'.s.net.adopted == h.s.net.adopted + [l] && h'.standby.None? && h'.promote.None?
      && |h.s.net.fed| < |h'.s.net.fed| && h'.s.net.fed[|h.s.net.fed|] == Fed(Frame(l, id), h'.s.rx)
      && h'.s.net.status == ClosedAs(h.s.net.status, h.s.link, Switched)
  {
    var l, h1 := h.standby.value.link, Woken(h, StandbyFrame(id));
    var s := AdoptAs(h1.s, l, h1.s.size, OwnStandby, t.now);
    TurnSameLinks(s, Some(Frame(l, id)), t);
    FirstIsFedFirst(s, Frame(l, id), t);
    assert TopOfLap(h1, t).0.s == Turn(s, Some(Frame(l, id)), t).0;
  }

  lemma FirstIsFedFirst(s: Session, first: Frame, t: TurnIn)
    ensures s.net.fed + [Fed(first, s.rx)] <= Turn(s, Some(first), t).0.net.fed
  {
    FeedAllSameLinks(Feed(s, first, t.now), t.waiting, t.now);
    PutOutSameLinks(TakeIn(s, Some(first), t), t);
  }

  lemma PromoteKeepsOwned(o: Holding)
    requires Owned(o) && o.promoted.None? && o.incoming.None? && !o.returned
    ensures Owned(o.(parked := None, promoted := o.parked))
  {
  }

  lemma WokenKeepsOwned(h: Host, wake: Wake)
    requires Owned(HoldingOf(h)) && h.promote.None? && h.returned.None?
    ensures Owned(HoldingOf(Woken(h, wake)))
  {
    var o := HoldingOf(h);
    if wake.AttachedLink? {
      if wake.role.Primary? {
        PrimaryKeepsOwned(h, wake.size, wake.at);
      } else {
        StandbyKeepsOwned(h, wake.size, wake.at);
      }
    } else {
      ParkedWakes(h, wake);
      PromoteKeepsOwned(o);
      UnparkKeepsOwned(o, WentAway);
      UnparkKeepsOwned(o, LobbyEnded);
      Returns(Unpark(o, LobbyEnded));
    }
  }

  lemma Returns(o: Holding)
    requires Owned(o) && o.parked.None? && o.promoted.None?
    ensures Owned(o.(returned := true))
  {
  }

  lemma PeerClosingKeepsOwned(o: Holding, l: LinkId)
    requires Owned(o)
    ensures Owned(o.(status := ClosedAs(o.status, l, PeerClosed)))
  {
  }

  lemma NextKeepsOwned(h: Host, e: Event)
    requires Owned(HoldingOf(h))
    ensures Owned(HoldingOf(Next(h, e)))
  {
    match e
    case PeerCloses(l) =>
      PeerClosingKeepsOwned(HoldingOf(h), l);
      assert HoldingOf(Next(h, e)) == HoldingOf(h).(status := ClosedAs(h.s.net.status, l, PeerClosed));
    case RunLap(i) =>
      if h.returned.None? {
        TopKeepsOwned(h, i.turn);
        RestKeepsOwned(TopOfLap(h, i.turn).0, TopOfLap(h, i.turn).1, i);
      }
  }

  lemma RestKeepsOwned(h: Host, exited: Option<int>, i: LapIn)
    requires Owned(HoldingOf(h)) && h.promote.None? && h.returned.None?
    ensures Owned(HoldingOf(RestOfLap(h, exited, i)))
  {
    var over := KillOver(h, exited, i.killed);
    if over.Some? {
      EndKillKeepsOwned(h, over.value, i);
    } else if exited.Some? {
      ReturnKeepsOwned(h, exited.value, i);
    } else {
      WokenKeepsOwned(h, i.wake);
    }
  }

  lemma {:induction false} OwnedHolds(start: Host, es: seq<Event>)
    requires Owned(HoldingOf(start))
    ensures Owned(HoldingOf(Exec(start, es)))
  {
    if es != [] {
      OwnedHolds(start, es[..|es| - 1]);
      NextKeepsOwned(Exec(start, es[..|es| - 1]), es[|es| - 1]);
    }
  }

  // ---------------------------------------------------------------- the two theorems about links

  /**
   Over every run, each frame fed to the input receiver came in on the link that receiver was made
   for: the receiver's generation is the one at which that link, and no other, was adopted. So a
   promoted standby's first frame meets the new generation's receiver and never the old one's, and
   no frame of an old link reaches a new generation.
   */
  lemma FramesMeetTheirReceiver(size: Size, now: int, detachAfter: nat, es: seq<Event>, k: nat)
    requires k < |Exec(Start(size, now, detachAfter), es).s.net.fed|
    ensures var net := Exec(Start(size, now, detachAfter), es).s.net; var f := net.fed[k];
      && f.frame.link == f.rx.link
      && f.rx.generation < |net.adopted| && net.adopted[f.rx.generation] == f.frame.link
      && forall g :: 0 <= g < |net.adopted| && g != f.rx.generation ==> net.adopted[g] != f.frame.link
  {
    var start := Start(size, now, detachAfter);
    FramesInvHolds(start, es);
    StartOwned(size, now, detachAfter);
    OwnedHolds(start, es);
    var net := Exec(start, es).s.net;
    assert PathsOf(Exec(start, es)).fed[k] == net.fed[k];
    var f := net.fed[k];
    forall g | 0 <= g < |net.adopted| && g != f.rx.generation
      ensures net.adopted[g] != net.adopted[f.rx.generation]
    {
      assert g < f.rx.generation || f.rx.generation < g;
    }
  }

  lemma StartOwned(size: Size, now: int, detachAfter: nat)
    ensures Owned(HoldingOf(Start(size, now, detachAfter)))
  {
  }

  /**
   Over every run without I/O errors, every link handed to the loop has exactly one place, as `Owned`
   says; when the loop returns nothing is parked or owed a promotion; and no standby parked before
   a primary attach was promoted after it.
   */
  lemma LinksHaveOneOwner(size: Size, now: int, detachAfter: nat, es: seq<Event>)
    ensures var h := Exec(Start(size, now, detachAfter), es);
      && Owned(HoldingOf(h))
      && (h.returned.Some? ==> h.standby.None? && h.promote.None?)
      && (forall k :: 0 <= k < |h.promotions| ==> h.promotions[k].parked.epoch == h.promotions[k].epoch)
  {
    var start := Start(size, now, detachAfter);
    StartOwned(size, now, detachAfter);
    OwnedHolds(start, es);
    assert HoldingOf(Exec(start, es)).promotions == Exec(start, es).promotions;
  }

  // ---------------------------------------------------------------- the counts a client sees

  /** What a client must never see fall, and what will be offered next. */
  datatype Counts = Counts(term: Option<Counters>, sender: Counters, hollow: bool, stale: bool, offers: seq<Offer>)

  function CountsOf(s: Session): Counts {
    Counts(s.term, s.sender, s.hollow, s.stale, s.net.offers)
  }

  /**
   Nothing offered is above what the shell, or else the lobby's screen, now counts; and a sender that
   is not stale has the shell's own counts.
   */
  ghost predicate Climbing(c: Counts) {
    && (c.hollow ==> c.term.Some? && c.stale && c.sender == ZERO)
    && (!c.hollow && c.term.Some? ==> c.sender.AtMost(c.term.value))
    && (c.term.Some? && !c.stale ==> c.sender == c.term.value)
    && (forall k :: 0 <= k < |c.offers| ==>
          && (c.term.Some? ==> c.offers[k].counters.AtMost(c.term.value))
          && (!c.hollow ==> c.offers[k].counters.AtMost(c.sender))
          && (c.offers[k].hollow ==> c.offers[k].counters == ZERO))
    && (forall j, k :: 0 <= j < k < |c.offers| && !c.offers[k].hollow ==>
          c.offers[j].counters.AtMost(c.offers[k].counters))
  }

  ghost predicate NoneHollow(c: Counts) {
    forall k :: 0 <= k < |c.offers| ==> !c.offers[k].hollow
  }

  lemma OfferKeepsClimbing(s: Session)
    requires Climbing(CountsOf(s)) && !s.hollow
    ensures Climbing(CountsOf(OfferState(s)))
    ensures NoneHollow(CountsOf(s)) ==> NoneHollow(CountsOf(OfferState(s)))
  {
  }

  lemma PollKeepsClimbing(s: Session, attached: bool, moved: bool, rise: Counters)
    requires Climbing(CountsOf(s))
    ensures var s' := PollTerm(s, attached, moved, rise);
      Climbing(CountsOf(s')) && s'.net == s.net && (attached ==> !s'.hollow) && (!attached ==> s'.hollow == s.hollow)
  {
  }

  lemma TakeInKeepsCounts(s: Session, first: Option<Frame>, t: TurnIn)
    ensures var c := CountsOf(s);
      CountsOf(TakeIn(s, first, t)) == c.(stale := c.stale || (s.term.Some? && t.delivered))
  {
    var s1 := if first.Some? then Feed(s, first.value, t.now) else s;
    FeedAllSameLinks(s1, t.waiting, t.now);
  }

  /** A turn that finds somebody listening fills the blank before it offers anything. */
  lemma TurnKeepsClimbing(s: Session, first: Option<Frame>, t: TurnIn)
    requires Climbing(CountsOf(s)) && NoneHollow(CountsOf(s))
    ensures var s' := Turn(s, first, t).0;
      && Climbing(CountsOf(s')) && NoneHollow(CountsOf(s'))
      && (s'.hollow <==> s.hollow && !Attached(TakeIn(s, first, t), t.now))
  {
    var s1 := TakeIn(s, first, t);
    TakeInKeepsCounts(s, first, t);
    assert Climbing(CountsOf(s1));
    var attached := Attached(s1, t.now);
    PollKeepsClimbing(s1, attached, t.moved, t.rise);
    if attached {
      OfferKeepsClimbing(PollTerm(s1, attached, t.moved, t.rise));
    }
  }

  lemma AdoptKeepsClimbing(s: Session, l: LinkId, size: Size, cause: Cause, now: int)
    requires Climbing(CountsOf(s))
    ensures var s' := AdoptAs(s, l, size, cause, now);
      Climbing(CountsOf(s')) && s'.net.offers == s.net.offers && s'.hollow == s.term.Some?
  {
  }

  lemma LobbyKeepsClimbing(s: Session)
    requires Climbing(CountsOf(s))
    ensures Climbing(CountsOf(BecomeLobby(s))) && (s.term.None? ==> Climbing(CountsOf(StartShell(s))))
  {
  }

  lemma FinishCounts(s: Session, code: int, moved: bool, rise: Counters, owed: bool)
    requires Climbing(CountsOf(s)) && NoneHollow(CountsOf(s))
    ensures var s' := Finish(s, code, moved, rise, owed); var n := |s.net.offers|;
      && Climbing(CountsOf(s')) && (forall k :: 0 <= k < n && k < |s'.net.offers| ==> !s'.net.offers[k].hollow)
      && n <= |s'.net.offers| <= n + 1
      && (n < |s'.net.offers| ==> (s'.net.offers[n].hollow <==> s.hollow && !moved))
  {
    if !(s.hollow && !moved) {
      var s1 := if s.term.Some? && moved
        then var t := s.term.value.Plus(rise); s.(term := Some(t), sender := t, hollow := false) else s;
      OfferKeepsClimbing(s1);
    }
  }

  /** While the loop runs nothing hollow has been offered; the last offer of all may be. */
  ghost predicate CountsInv(h: Host) {
    && Climbing(CountsOf(h.s))
    && (h.returned.None? ==> NoneHollow(CountsOf(h.s)))
    && (forall k :: 0 <= k < |h.s.net.offers| - 1 ==> !h.s.net.offers[k].hollow)
  }

  lemma DropKeepsCounts(h: Host, cause: Cause)
    ensures CountsOf(DropStandby(h, cause).s) == CountsOf(h.s)
  {
  }

  lemma TopKeepsCounts(h: Host, t: TurnIn)
    requires CountsInv(h) && h.returned.None?
    ensures CountsInv(TopOfLap(h, t).0) && TopOfLap(h, t).0.returned.None?
  {
    match h.promote
    case Some((parked, first)) =>
      AdoptKeepsClimbing(h.s, parked.link, h.s.size, OwnStandby, t.now);
      TurnKeepsClimbing(AdoptAs(h.s, parked.link, h.s.size, OwnStandby, t.now), Some(first), t);
    case None => TurnKeepsClimbing(h.s, h.pending, t);
  }

  lemma ReturnKeepsCounts(h: Host, code: int, i: LapIn)
    requires CountsInv(h) && h.returned.None?
    ensures CountsInv(Return(h, code, i))
  {
    DropKeepsCounts(h, ShellGone(code));
    FinishCounts(DropStandby(h, ShellGone(code)).s, code, i.lastMoved, i.lastRise, i.lastOwed);
  }

  lemma EndKillKeepsCounts(h: Host, code: int, i: LapIn)
    requires CountsInv(h) && h.returned.None? && h.killing.Some?
    ensures CountsInv(EndKill(h, code, i))
  {
    var h1 := h.(killing := None);
    if h.killing.value {
      ReturnKeepsCounts(h1, code, i);
    } else {
      DropKeepsCounts(h1, KilledToLobby);
      LobbyKeepsClimbing(DropStandby(h1, KilledToLobby).s);
    }
  }

  lemma AttachKeepsCounts(h: Host, role: Role, size: Size, at: int)
    requires CountsInv(h) && h.returned.None?
    ensures CountsInv(OnAttached(h, role, size, at))
  {
    var l := |h.s.net.status|;
    var h0 := h.(s := h.s.(net := h.s.net.(status := h.s.net.status + [Open])));
    DropKeepsCounts(h0, NewPrimary);
    DropKeepsCounts(h0, NewerStandby);
    assert CountsOf(h0.s) == CountsOf(h.s);
    AdoptKeepsClimbing(DropStandby(h0, NewPrimary).s, l, size, NewPrimary, at);
  }

  lemma WokenKeepsCounts(h: Host, wake: Wake)
    requires CountsInv(h) && h.returned.None?
    ensures CountsInv(Woken(h, wake))
  {
    match wake
    case AttachedLink(role, size, at) => AttachKeepsCounts(h, role, size, at);
    case CmdStartShell(spawned, watched) =>
      LobbyKeepsClimbing(h.s);
      if h.s.term.None? {
        LobbyKeepsClimbing(StartShell(h.s));
      }
    case StandbyGone => DropKeepsCounts(h, WentAway);
    case LobbyOver(_) => DropKeepsCounts(h, LobbyEnded);
    case _ => assert CountsOf(Woken(h, wake).s) == CountsOf(h.s);
  }

  lemma NextKeepsCounts(h: Host, e: Event)
    requires CountsInv(h)
    ensures CountsInv(Next(h, e))
  {
    match e
    case PeerCloses(l) => assert CountsOf(Next(h, e).s) == CountsOf(h.s);
    case RunLap(i) =>
      if h.returned.None? {
        TopKeepsCounts(h, i.turn);
        var (h1, exited) := TopOfLap(h, i.turn);
        var over := KillOver(h1, exited, i.killed);
        if over.Some? {
          EndKillKeepsCounts(h1, over.value, i);
        } else if exited.Some? {
          ReturnKeepsCounts(h1, exited.value, i);
        } else {
          WokenKeepsCounts(h1, i.wake);
        }
      }
  }

  /**
   Across kill-to-lobby, lobby resizes, new shells, detach, adoption and failover, the counts offered
   never fall: every state offered has at least the counts of every one before it -- but for the very
   last of the session, which falls to zero where it is hollow.
   */
  lemma {:induction false} CountsNeverFall(size: Size, now: int, detachAfter: nat, es: seq<Event>)
    ensures CountsInv(Exec(Start(size, now, detachAfter), es))
    ensures var h := Exec(Start(size, now, detachAfter), es); var offers := h.s.net.offers;
      forall j, k :: 0 <= j < k < |offers| && (h.returned.None? || k < |offers| - 1 || !offers[k].hollow) ==>
        offers[j].counters.AtMost(offers[k].counters)
  {
    if es != [] {
      CountsNeverFall(size, now, detachAfter, es[..|es| - 1]);
      NextKeepsCounts(Exec(Start(size, now, detachAfter), es[..|es| - 1]), es[|es| - 1]);
    }
  }

  /** A lap in which the shell's end is reported, and the session with it. */
  ghost predicate Ends(h: Host, i: LapIn) {
    var (h1, exited) := TopOfLap(h, i.turn);
    var over := KillOver(h1, exited, i.killed);
    if over.Some? then h1.killing.value else exited.Some?
  }

  /** Where the top of a lap finds its client: the link and the time since it was heard from. */
  ghost predicate TurnAttached(h: Host, t: TurnIn) {
    match h.promote
    case Some((parked, first)) =>
      Attached(TakeIn(AdoptAs(h.s, parked.link, h.s.size, OwnStandby, t.now), Some(first), t), t.now)
    case None => Attached(TakeIn(h.s, h.pending, t), t.now)
  }

  lemma TopHollowIff(h: Host, t: TurnIn)
    requires CountsInv(h) && h.returned.None?
    ensures TopOfLap(h, t).0.s.hollow <==>
      (h.s.hollow || (h.promote.Some? && h.s.term.Some?)) && !TurnAttached(h, t)
  {
    match h.promote {
      case Some((parked, first)) =>
        AdoptKeepsClimbing(h.s, parked.link, h.s.size, OwnStandby, t.now);
        TurnKeepsClimbing(AdoptAs(h.s, parked.link, h.s.size, OwnStandby, t.now), Some(first), t);
      case None => TurnKeepsClimbing(h.s, h.pending, t);
    }
  }

  lemma TurnOffersTheScreen(s: Session, first: Option<Frame>, t: TurnIn)
    requires Climbing(CountsOf(s))
    ensures var s' := Turn(s, first, t).0; var screen := if s'.term.Some? then s'.term.value else s'.sender;
      s'.net.offers == s.net.offers
        + if Attached(TakeIn(s, first, t), t.now) && t.due && t.owed then [Offer(s'.link, screen, false)] else []
  {
    var s1 := TakeIn(s, first, t);
    TakeInKeepsCounts(s, first, t);
    TakeInSameLinks(s, first, t);
    PollKeepsClimbing(s1, Attached(s1, t.now), t.moved, t.rise);
  }

  /**
   What is offered is what is there: over every run, a turn offers a state if and only if its client
   is there and a frame is due and owed, and the counts of that state are the shell's own at that
   moment, however long it ran unheard before.
   */
  lemma OffersAreCurrent(size: Size, now: int, detachAfter: nat, es: seq<Event>, t: TurnIn)
    requires Exec(Start(size, now, detachAfter), es).returned.None?
    ensures var h := Exec(Start(size, now, detachAfter), es); var h' := TopOfLap(h, t).0;
      var screen := if h'.s.term.Some? then h'.s.term.value else h'.s.sender;
      h'.s.net.offers == h.s.net.offers
        + if TurnAttached(h, t) && t.due && t.owed then [Offer(h'.s.link, screen, false)] else []
  {
    var h := Exec(Start(size, now, detachAfter), es);
    CountsNeverFall(size, now, detachAfter, es);
    match h.promote {
      case Some((parked, first)) =>
        AdoptKeepsClimbing(h.s, parked.link, h.s.size, OwnStandby, t.now);
        TurnOffersTheScreen(AdoptAs(h.s, parked.link, h.s.size, OwnStandby, t.now), Some(first), t);
      case None => TurnOffersTheScreen(h.s, h.pending, t);
    }
  }

  // ---------------------------------------------------------------- when the last offer falls

  /** The lap ends with a new primary adopted over a shell: after its turn, so nothing fills its blank. */
  ghost predicate AttachesLast(h: Host, i: LapIn) {
    var (h1, exited) := TopOfLap(h, i.turn);
    && h1.s.term.Some? && KillOver(h1, exited, i.killed).None? && exited.None? && !i.more
    && i.wake.AttachedLink? && i.wake.role.Primary?
  }

  /** The lap fills a blank: its turn finds the client there, or the shell goes, or the last poll moves. */
  ghost predicate Fills(h: Host, i: LapIn) {
    TurnAttached(h, i.turn) || Lap(h, i).s.term.None? || (Ends(h, i) && i.lastMoved)
  }

  /** The lap adopts a link over a shell and leaves it its blank. */
  ghost predicate Blanks(h: Host, i: LapIn) {
    AttachesLast(h, i) || (h.promote.Some? && h.s.term.Some? && !Fills(h, i))
  }

  /** The laps of the run `es` that leave an adoption its blank, and those that fill one. */
  ghost function BlankMarks(start: Host, es: seq<Event>): (marks: seq<bool>)
    ensures |marks| == |es|
  {
    if es == [] then []
    else
      var h, e := Exec(start, es[..|es| - 1]), es[|es| - 1];
      BlankMarks(start, es[..|es| - 1]) + [e.RunLap? && h.returned.None? && Blanks(h, e.i)]
  }

  ghost function FillMarks(start: Host, es: seq<Event>): (marks: seq<bool>)
    ensures |marks| == |es|
  {
    if es == [] then []
    else
      var h, e := Exec(start, es[..|es| - 1]), es[|es| - 1];
      FillMarks(start, es[..|es| - 1]) + [e.RunLap? && h.returned.None? && Fills(h, e.i)]
  }

  /** A link was adopted over a shell in the run `es`, and its blank has not been filled since. */
  ghost predicate Unfilled(start: Host, es: seq<Event>) {
    StartedSince(BlankMarks(start, es), FillMarks(start, es))
  }

  lemma EndHollow(h: Host, i: LapIn)
    requires CountsInv(h) && h.returned.None? && Ends(h, i)
    ensures Lap(h, i).s.hollow <==> TopOfLap(h, i.turn).0.s.hollow && !i.lastMoved
    ensures Lap(h, i).s.term.Some? <==> TopOfLap(h, i.turn).0.s.term.Some?
  {
    TopKeepsCounts(h, i.turn);
    var code := EndIsAReturn(h, i);
  }

  lemma RestHollow(h: Host, exited: Option<int>, i: LapIn)
    requires CountsInv(h) && h.returned.None? && KillOver(h, exited, i.killed).None? && exited.None?
    ensures RestOfLap(h, exited, i).s.hollow <==>
      || (h.s.hollow && RestOfLap(h, exited, i).s.term.Some?)
      || (h.s.term.Some? && !i.more && i.wake.AttachedLink? && i.wake.role.Primary?)
    ensures h.s.term.Some? ==> RestOfLap(h, exited, i).s.term.Some?
  {
  }

  lemma KilledHollow(h: Host, exited: Option<int>, i: LapIn)
    requires h.returned.None? && KillOver(h, exited, i.killed).Some? && !h.killing.value
    ensures !RestOfLap(h, exited, i).s.hollow && RestOfLap(h, exited, i).s.term.None?
  {
  }

  lemma LapHollow(h: Host, i: LapIn)
    requires CountsInv(h) && h.returned.None?
    ensures Lap(h, i).s.hollow <==> Blanks(h, i) || (h.s.hollow && !Fills(h, i))
  {
    TopKeepsCounts(h, i.turn);
    TopHollowIff(h, i.turn);
    TopKeepsKill(h, i.turn);
    var (h1, exited) := TopOfLap(h, i.turn);
    if Ends(h, i) {
      EndHollow(h, i);
    } else if KillOver(h1, exited, i.killed).Some? {
      KilledHollow(h1, exited, i);
    } else {
      RestHollow(h1, exited, i);
    }
  }

  /**
   Over every run, the sender still holds an adoption's blank if and only if a link was adopted over a
   shell and no turn since has found its client there.
   */
  lemma {:induction false} HollowExactly(size: Size, now: int, detachAfter: nat, es: seq<Event>)
    ensures var start := Start(size, now, detachAfter); Exec(start, es).s.hollow <==> Unfilled(start, es)
  {
    var start := Start(size, now, detachAfter);
    if es != [] {
      var p, e := es[..|es| - 1], es[|es| - 1];
      var h := Exec(start, p);
      HollowExactly(size, now, detachAfter, p);
      CountsNeverFall(size, now, detachAfter, p);
      if e.RunLap? && h.returned.None? {
        LapHollow(h, e.i);
      }
      var blanks := e.RunLap? && h.returned.None? && Blanks(h, e.i);
      var fills := e.RunLap? && h.returned.None? && Fills(h, e.i);
      StartedSinceStep(BlankMarks(start, p), FillMarks(start, p), blanks, fills);
    }
  }

  lemma EndOffersHollow(h: Host, i: LapIn)
    requires CountsInv(h) && h.returned.None? && Ends(h, i) && i.lastOwed
    ensures var offers := Lap(h, i).s.net.offers;
      offers != [] && offers[|offers| - 1].hollow == Lap(h, i).s.hollow
  {
    TopKeepsCounts(h, i.turn);
    EndHollow(h, i);
    var code := EndIsAReturn(h, i);
    var h1 := TopOfLap(h, i.turn).0;
    ReturnOffers(h1, code, i);
    ReturnOffers(h1.(killing := None), code, i);
  }

  /**
   Over whole runs: a session that ends offers its last state hollow exactly when, the ending lap
   included, a link was adopted over its shell and no turn since found its client there. A client that
   is there on the last turn is never shown a fall.
   */
  lemma LastOfferHollowIff(size: Size, now: int, detachAfter: nat, es: seq<Event>, i: LapIn)
    requires var h := Exec(Start(size, now, detachAfter), es); h.returned.None? && Ends(h, i) && i.lastOwed
    ensures var start := Start(size, now, detachAfter); var offers := Exec(start, es + [RunLap(i)]).s.net.offers;
      offers != [] && (offers[|offers| - 1].hollow <==> Unfilled(start, es + [RunLap(i)]))
  {
    var start := Start(size, now, detachAfter);
    CountsNeverFall(size, now, detachAfter, es);
    ExecStep(start, es, RunLap(i));
    EndOffersHollow(Exec(start, es), i);
    HollowExactly(size, now, detachAfter, es + [RunLap(i)]);
  }

  /** The last of `offers` counts less, in something, than one before it. */
  ghost predicate Falls(offers: seq<Offer>)
    requires offers != []
  {
    exists j :: 0 <= j < |offers| - 1 && !offers[j].counters.AtMost(offers[|offers| - 1].counters)
  }

  /** Something before the last of `offers` counted at all. */
  ghost predicate CountedBefore(offers: seq<Offer>) {
    exists j :: 0 <= j < |offers| - 1 && offers[j].counters != ZERO
  }

  /**
   Over whole runs: a session's last offer falls below one before it if and only if it is hollow, as
   above, and anything was ever offered that counted at all.
   */
  lemma LastOfferFallsIff(size: Size, now: int, detachAfter: nat, es: seq<Event>, i: LapIn)
    requires var h := Exec(Start(size, now, detachAfter), es); h.returned.None? && Ends(h, i) && i.lastOwed
    ensures var start := Start(size, now, detachAfter); var offers := Exec(start, es + [RunLap(i)]).s.net.offers;
      offers != [] && (Falls(offers) <==> Unfilled(start, es + [RunLap(i)]) && CountedBefore(offers))
  {
    var start := Start(size, now, detachAfter);
    LastOfferHollowIff(size, now, detachAfter, es, i);
    CountsNeverFall(size, now, detachAfter, es + [RunLap(i)]);
    var s := Exec(start, es + [RunLap(i)]).s;
    assert CountsOf(s).offers == s.net.offers;
    FallsIffHollow(CountsOf(s));
  }

  lemma FallsIffHollow(c: Counts)
    requires Climbing(c) && c.offers != []
    ensures Falls(c.offers) <==> c.offers[|c.offers| - 1].hollow && CountedBefore(c.offers)
  {
    assert forall j :: 0 <= j < |c.offers| ==> (c.offers[j].counters == ZERO <==> c.offers[j].counters.AtMost(ZERO));
  }

  /**
   The end of a shell is told to whoever is there: when a lap reports it, the loop returns with that
   status and the current link is closed with it, unless its peer had closed it already.
   */
  lemma ShellEndIsTold(size: Size, now: int, detachAfter: nat, es: seq<Event>, i: LapIn)
    requires var h := Exec(Start(size, now, detachAfter), es); h.returned.None? && Ends(h, i)
    ensures var h' := Lap(Exec(Start(size, now, detachAfter), es), i);
      && h'.returned.Some? && h'.s.link < |h'.s.net.status|
      && (h'.s.net.status[h'.s.link] == Closed(ShellExited(ExitCode(h'.returned.value)))
          || h'.s.net.status[h'.s.link] == Closed(PeerClosed))
  {
    var h := Exec(Start(size, now, detachAfter), es);
    StartOwned(size, now, detachAfter);
    OwnedHolds(Start(size, now, detachAfter), es);
    TopKeepsOwned(h, i.turn);
    var code := EndIsAReturn(h, i);
    var h1 := TopOfLap(h, i.turn).0;
    ReturnCloses(h1, code, i);
    ReturnCloses(h1.(killing := None), code, i);
  }

  /** A lap that ends the session is a return, from the top of the lap, with a kill let go of or none. */
  lemma EndIsAReturn(h: Host, i: LapIn) returns (code: int)
    requires Ends(h, i)
    ensures var h1 := TopOfLap(h, i.turn).0;
      Lap(h, i) == Return(h1, code, i) || Lap(h, i) == Return(h1.(killing := None), code, i)
  {
    var (h1, exited) := TopOfLap(h, i.turn);
    var over := KillOver(h1, exited, i.killed);
    code := if over.Some? then over.value else exited.value;
  }

  lemma ReturnCloses(h: Host, code: int, i: LapIn)
    requires Owned(HoldingOf(h)) && h.returned.None?
    ensures var h' := Return(h, code, i);
      && h'.returned == Some(code) && h'.s.link < |h'.s.net.status|
      && (h'.s.net.status[h'.s.link] == Closed(ShellExited(ExitCode(code)))
          || h'.s.net.status[h'.s.link] == Closed(PeerClosed))
  {
    var h1 := DropStandby(h, ShellGone(code));
    DropIsUnpark(h, ShellGone(code));
    UnparkKeepsOwned(HoldingOf(h), ShellGone(code));
    assert HoldingOf(h1).link == h1.s.link && HoldingOf(h1).status == h1.s.net.status;
    FinishCloses(h1.s, code, i.lastMoved, i.lastRise, i.lastOwed);
  }

  lemma ReturnOffers(h: Host, code: int, i: LapIn)
    requires CountsInv(h) && h.returned.None? && i.lastOwed
    ensures var offers := Return(h, code, i).s.net.offers;
      |offers| == |h.s.net.offers| + 1 && (offers[|offers| - 1].hollow <==> h.s.hollow && !i.lastMoved)
  {
    DropKeepsCounts(h, ShellGone(code));
  }

  lemma ExecStep(start: Host, es: seq<Event>, e: Event)
    ensures Exec(start, es + [e]) == Next(Exec(start, es), e)
  {
    assert (es + [e])[..|es|] == es;
  }

  const IDLE := TurnIn(0, [], None, false, false, ZERO, false, false, None)
  const RINGS := IDLE.(moved := true, rise := Counters(1, 0, 0), due := true, owed := true)
  const EXITS := IDLE.(now := 30, exited := Some(0))

  function QuietLap(turn: TurnIn, wake: Wake): Event {
    RunLap(LapIn(turn, None, false, ZERO, true, false, wake))
  }

  /** A shell is started, its bell rings and is offered, and a new primary attaches. */
  lemma RingsThenAttaches(size: Size)
    ensures var start := Start(size, 0, 30);
      var h1 := Next(start, QuietLap(IDLE, CmdStartShell(true, true)));
      var h := Next(h1, QuietLap(RINGS, AttachedLink(Primary, size, 0)));
      && h.returned.None? && h.promote.None? && h.pending.None? && h.standby.None? && h.killing.None?
      && h.s.net.offers == [Offer(0, Counters(1, 0, 0), false)] && h.s.net.status == [Closed(TakenOver), Open]
      && h.s.link == 1 && h.s.lastHeard == 0 && h.s.detachAfter == 30
      && h.s.term.Some? && h.s.sender == ZERO && h.s.hollow
  {
    var h0 := Start(size, 0, 30);
    var h1 := Next(h0, QuietLap(IDLE, CmdStartShell(true, true)));
    assert h1 == h0.(s := StartShell(h0.s));
    var s := Turn(h1.s, None, RINGS).0;
    assert s.net.offers == [Offer(0, Counters(1, 0, 0), false)];
  }

  lemma ExitsUnheard(h: Host)
    requires h.returned.None? && h.promote.None? && h.pending.None? && h.standby.None? && h.killing.None?
    requires |h.s.net.status| == 2 && h.s.link == 1 && h.s.lastHeard == 0 && h.s.detachAfter == 30 && h.s.term.Some?
    ensures Next(h, QuietLap(EXITS, Quiet)).s.net.offers == h.s.net.offers + [Offer(1, h.s.sender, h.s.hollow)]
  {
    var t := Turn(h.s, None, EXITS);
    assert t.0 == h.s.(term := t.0.term) && t.1 == Some(0);
  }

  /**
   Such a run: the bell rings once, a new primary attaches, nothing is heard of it for `detachAfter`
   before the next turn, and on that turn the shell is found gone. The last state offered, on a link
   that is open, has a bell count of zero.
   */
  lemma LastOfferCanFall(size: Size)
    ensures var h := Exec(Start(size, 0, 30),
        [QuietLap(IDLE, CmdStartShell(true, true))]
        + [QuietLap(RINGS, AttachedLink(Primary, size, 0))]
        + [QuietLap(EXITS, Quiet)]);
      h.s.net.offers == [Offer(0, Counters(1, 0, 0), false), Offer(1, ZERO, true)]
  {
    var h0 := Start(size, 0, 30);
    var a, b := QuietLap(IDLE, CmdStartShell(true, true)), QuietLap(RINGS, AttachedLink(Primary, size, 0));
    var c := QuietLap(EXITS, Quiet);
    RingsThenAttaches(size);
    ExitsUnheard(Next(Next(h0, a), b));
    assert [a][..0] == [];
    assert Exec(h0, [a]) == Next(h0, a);
    ExecStep(h0, [a], b);
    ExecStep(h0, [a] + [b], c);
  }

  // ---------------------------------------------------------------- the session, in place

  class HostedSession {
    var term: Option<Counters>
    var sender: Counters
    var link: LinkId
    var size: Size
    var screenStale: bool
    var lastHeard: int
    const detachAfter: nat
    /** Every connection handed in, by number. */
    var status: seq<Status>
    /** The tags of the receiver and of the sender, and what went over the links. */
    ghost var rx: Receiver
    ghost var hollow: bool
    ghost var adopted: seq<LinkId>
    ghost var lost: map<LinkId, Cause>
    ghost var fed: seq<Fed>
    ghost var offers: seq<Offer>

    ghost function View(): Session
      reads this
    {
      Session(term, sender, hollow, rx, link, size, screenStale, lastHeard, detachAfter,
              Net(status, adopted, lost, fed, offers))
    }

    predicate IsClosed(l: LinkId)
      reads this
    {
      l < |status| && status[l].Closed?
    }

    constructor Lobby(size: Size, now: int, detachAfter: nat)
      ensures View() == Start(size, now, detachAfter).s
    {
      this.size, this.detachAfter, lastHeard := size, detachAfter, now;
      term, sender, link, screenStale, status := None, ZERO, 0, false, [Open];
      rx, hollow, adopted, lost, fed, offers := Receiver(0, 0), false, [0], map[], [], [];
    }

    method OnFrame(f: Frame, now: int)
      modifies this
      ensures View() == Feed(old(View()), f, now)
    {
      lastHeard := now;
      fed := fed + [Fed(f, rx)];
    }

    method ResizeTo(wanted: Size)
      modifies this`size
      ensures View() == Resize(old(View()), wanted)
    {
      if wanted == size {
        return;
      }
      // a shell is resized on its pty; a lobby's blank keeps the counts of the one before it
      size := wanted;
    }

    method TakeInFrames(first: Option<Frame>, t: TurnIn)
      modifies this
      ensures View() == TakeIn(old(View()), first, t)
    {
      if first.Some? {
        OnFrame(first.value, t.now);
      }
      ghost var s1 := View();
      for i := 0 to |t.waiting|
        invariant View() == FeedAll(s1, t.waiting[..i], t.now)
        invariant link == s1.link
      {
        assert t.waiting[..i + 1][..i] == t.waiting[..i];
        OnFrame(Frame(link, t.waiting[i]), t.now);
      }
      assert t.waiting[..|t.waiting|] == t.waiting;
      if term.Some? && t.delivered {
        screenStale := true;
      }
      if t.wants.Some? && 0 < t.wants.value.0 && 0 < t.wants.value.1 {
        ResizeTo(t.wants.value);
      }
    }

    method OfferFrame()
      modifies this`offers
      ensures View() == OfferState(old(View()))
    {
      offers := offers + [Offer(link, sender, hollow)];
    }

    method PutOutScreen(t: TurnIn)
      modifies this
      ensures View() == PutOut(old(View()), t)
    {
      var attached := !IsClosed(link) && t.now - lastHeard < detachAfter;
      if term.Some? {
        if t.moved {
          term := Some(term.value.Plus(t.rise));
        }
        if attached {
          if t.moved || screenStale {
            sender := term.value;
            hollow := false;
            screenStale := false;
          }
        } else if t.moved {
          screenStale := true;
        }
      }
      if attached && t.due && t.owed {
        OfferFrame();
      }
    }

    method TurnAt(first: Option<Frame>, t: TurnIn) returns (exited: Option<int>)
      modifies this
      ensures (View(), exited) == Turn(old(View()), first, t)
    {
      TakeInFrames(first, t);
      PutOutScreen(t);
      exited := if term.Some? then t.exited else None;
    }

    /** A sender and a receiver of their own for the link. */
    method BeginGeneration(now: int)
      requires adopted != []
      modifies this`sender, this`hollow, this`rx, this`screenStale, this`lastHeard
      ensures var s := old(View());
        View() == s.(sender := if s.term.None? then s.sender else ZERO, hollow := s.term.Some?,
                     rx := Receiver(s.link, |s.net.adopted| - 1), stale := true, lastHeard := now)
    {
      if term.Some? {
        sender := ZERO;
      }
      hollow := term.Some?;
      rx := Receiver(link, |adopted| - 1);
      screenStale := true;
      lastHeard := now;
    }

    method AdoptLink(l: LinkId, wanted: Size, cause: Cause, now: int)
      modifies this
      ensures View() == AdoptAs(old(View()), l, wanted, cause, now)
    {
      LetLinkGo(link, cause);
      link := l;
      adopted := adopted + [l];
      ResizeTo(wanted);
      BeginGeneration(now);
    }

    method ToLobby()
      modifies this
      ensures View() == BecomeLobby(old(View()))
    {
      if term.Some? {
        sender := term.value;
      }
      term, hollow, screenStale := None, false, false;
    }

    method StartTheShell()
      modifies this
      ensures View() == StartShell(old(View()))
    {
      term := Some(ZERO.Max(sender));
      screenStale := true;
    }

    method FinishWith(code: int, moved: bool, rise: Counters, owed: bool)
      modifies this
      ensures View() == Finish(old(View()), code, moved, rise, owed)
    {
      if term.Some? && moved {
        term := Some(term.value.Plus(rise));
        sender := term.value;
        hollow := false;
      }
      if owed {
        OfferFrame();
      }
      status := ClosedAs(status, link, ShellExited(ExitCode(code)));
    }

    method LetLinkGo(l: LinkId, cause: Cause)
      modifies this`status, this`lost
      ensures View() == old(View()).(net := old(View()).net.LetGo(l, cause))
    {
      status := ClosedAs(status, l, ReasonFor(cause));
      lost := lost[l := cause];
    }
  }

  /** `run_with_doors`: its locals, and a method for each part of a lap. */
  class HostLoop {
    const session: HostedSession
    var pending: Option<Frame>
    var standby: Option<LinkId>
    var promote: Option<(LinkId, Frame)>
    var killing: Option<bool>
    var returned: Option<int>
    /** The primaries attached so far, now and when the two links above were parked, and the promotions. */
    ghost var epoch: nat
    ghost var standbyEpoch: nat
    ghost var promoteEpoch: nat
    ghost var promotions: seq<Promotion>

    ghost function View(): Host
      reads this, session
    {
      Host(session.View(), pending,
           if standby.Some? then Some(Parked(standby.value, standbyEpoch)) else None,
           if promote.Some? then Some((Parked(promote.value.0, promoteEpoch), promote.value.1)) else None,
           killing, returned, epoch, promotions)
    }

    constructor (session: HostedSession)
      ensures this.session == session
      ensures View() == Host(session.View(), None, None, None, None, None, 0, [])
    {
      this.session := session;
      pending, standby, promote, killing, returned := None, None, None, None, None;
      epoch, standbyEpoch, promoteEpoch, promotions := 0, 0, 0, [];
    }

    method DropParked(cause: Cause)
      modifies this`standby, session`status, session`lost
      ensures View() == DropStandby(old(View()), cause)
    {
      if standby.Some? {
        session.LetLinkGo(standby.value, cause);
        standby := None;
      }
    }

    method BeginLap(t: TurnIn) returns (exited: Option<int>)
      modifies this, session
      ensures (View(), exited) == TopOfLap(old(View()), t)
    {
      match promote
      case Some((parked, first)) =>
        // reset first, then feed
        session.AdoptLink(parked, session.size, OwnStandby, t.now);
        exited := session.TurnAt(Some(first), t);
        promotions := promotions + [Promotion(Parked(parked, promoteEpoch), epoch)];
        promote, pending := None, None;
      case None =>
        exited := session.TurnAt(pending, t);
        pending := None;
    }

    method End(code: int, i: LapIn)
      modifies this, session
      ensures View() == Return(old(View()), code, i)
    {
      DropParked(ShellGone(code));
      session.FinishWith(code, i.lastMoved, i.lastRise, i.lastOwed);
      returned := Some(code);
    }

    method EndTheKill(code: int, i: LapIn)
      requires killing.Some?
      modifies this, session
      ensures View() == EndKill(old(View()), code, i)
    {
      var end := killing.value;
      killing := None;
      if end {
        End(code, i);
      } else {
        DropParked(KilledToLobby);
        session.ToLobby();
      }
    }

    method Attach(role: Role, size: Size, at: int)
      modifies this, session
      ensures View() == OnAttached(old(View()), role, size, at)
    {
      var l := |session.status|;
      session.status := session.status + [Open];
      match role
      case Primary =>
        DropParked(NewPrimary);
        session.AdoptLink(l, size, NewPrimary, at);
        epoch := epoch + 1;
      case Standby =>
        DropParked(NewerStandby);
        standby := Some(l);
        standbyEpoch := epoch;
    }

    method StartLobbyShell(spawned: bool, watched: bool)
      modifies this, session
      ensures View() == Woken(old(View()), CmdStartShell(spawned, watched))
    {
      if killing.Some? || session.term.Some? {
        return;
      }
      if spawned {
        session.StartTheShell();
      }
      if !(spawned && watched) {
        session.ToLobby();
      }
    }

    method Wakes(wake: Wake)
      modifies this, session
      ensures View() == Woken(old(View()), wake)
    {
      match wake
      case Quiet =>
      case FrameIn(id) => pending := Some(Frame(session.link, id));
      case AttachedLink(role, size, at) => Attach(role, size, at);
      case StandbyFrame(id) =>
        if standby.Some? {
          promote := Some((standby.value, Frame(standby.value, id)));
          promoteEpoch := standbyEpoch;
          standby := None;
        }
      case StandbyGone =>
        if standby.Some? && session.IsClosed(standby.value) {
          DropParked(WentAway);
        }
      case LobbyOver(now) =>
        var silent := now - session.lastHeard >= session.detachAfter;
        if session.term.None? && (session.IsClosed(session.link) || silent) {
          DropParked(LobbyEnded);
          returned := Some(0);
        }
      case CmdStartShell(spawned, watched) => StartLobbyShell(spawned, watched);
      case CmdKill(end) =>
        if killing.None? && session.term.Some? {
          killing := Some(end);
        }
    }

    method OneLap(i: LapIn)
      modifies this, session
      ensures View() == Lap(old(View()), i)
    {
      var exited := BeginLap(i.turn);
      var over: Option<int> := None;
      if killing.Some? {
        over := if session.term.None? then Some(-1) else if exited.Some? then exited else i.killed;
      }
      if over.Some? {
        EndTheKill(over.value, i);
      } else if exited.Some? {
        End(exited.value, i);
      } else if !(session.term.Some? && i.more) {
        Wakes(i.wake);
      }
    }

    /** Laps until the loop returns or `es` runs out, with peers closing their links in between. */
    method Run(es: seq<Event>)
      modifies this, session
      ensures View() == Exec(old(View()), es)
    {
      for k := 0 to |es|
        invariant View() == Exec(old(View()), es[..k])
      {
        assert es[..k + 1][..k] == es[..k];
        match es[k] {
          case PeerCloses(l) => session.status := ClosedAs(session.status, l, PeerClosed);
          case RunLap(i) =>
            if returned.None? {
              OneLap(i);
            }
        }
      }
      assert es[..|es|] == es;
    }
  }
}
