/**
 The host's serial attach loop (src/listener.rs, `serve_attaches`) and the session record it
 shares with renames (src/door.rs, `record_attach` and `rename_self`).

 An exchange is opaque but for what it does to the loop's working record: it moves the generation
 at its start, the size and detachability later, and may fail or time out anywhere. Requests
 arrive, exchanges move and renames happen in any order.
 */
module AttachLoop {
  import opened Options

  datatype Role = Primary | Standby

  datatype Request = Request(id: nat, role: Role)

  datatype Meta = Meta(attachId: nat, size: (nat, nat), detachable: bool, name: Option<string>)

  // ---------------------------------------------------------------- the door's record

  /** The door's copy, whether the session is registered, and what `meta.json` says. */
  datatype Own = Own(meta: Meta, registered: bool, disk: Meta)

  /** Only what the attach moved is taken over; a write that fails leaves the file behind. */
  function RecordAttach(own: Own, m: Meta, writes: bool): Own {
    var meta := own.meta.(attachId := m.attachId, size := m.size, detachable := m.detachable);
    own.(meta := meta, disk := if own.registered && writes then meta else own.disk)
  }

  /** `granted`: the name is free and the record could be written. */
  function Rename(own: Own, name: Option<string>, granted: bool): Own {
    if own.registered && granted
    then var meta := own.meta.(name := name); own.(meta := meta, disk := meta)
    else own
  }

  class Door {
    var meta: Meta
    var registered: bool
    var disk: Meta

    ghost function View(): Own
      reads this
    {
      Own(meta, registered, disk)
    }

    method RecordAttachOf(m: Meta, writes: bool)
      modifies this
      ensures View() == RecordAttach(old(View()), m, writes)
    {
      meta := meta.(attachId := m.attachId);
      meta := meta.(size := m.size);
      meta := meta.(detachable := m.detachable);
      if registered && writes {
        disk := meta;
      }
    }

    method RenameSelf(name: Option<string>, granted: bool) returns (ok: bool)
      modifies this
      ensures View() == Rename(old(View()), name, granted) && ok == (registered && granted)
    {
      ok := registered && granted;
      if ok {
        var renamed := meta.(name := name);
        disk := renamed;
        meta := renamed;
      }
    }
  }

  // ---------------------------------------------------------------- the loop

  /** How far the exchange under way has got with the working record. */
  datatype Progress = Begun | Numbered | Settled

  datatype Running = Running(req: Request, progress: Progress)

  datatype Ending = Completed | Failed | PreEmpted

  /** What the loop did, in order. */
  datatype Act = Began(req: Request) | Ended(req: Request, how: Ending)

  /** A completed exchange and what it agreed; its link goes to the session, if that is still there. */
  datatype Handed = Handed(req: Request, generation: nat, size: (nat, nat), detachable: bool)

  datatype Loop = Loop(
    primaries: seq<Request>, standbys: seq<Request>, preempting: Option<Request>, running: Option<Running>,
    meta: Meta, closed: bool, arrived: seq<Request>, acts: seq<Act>, handed: seq<Handed>)

  function Arrive(s: Loop, r: Request): Loop {
    var s' := s.(arrived := s.arrived + [r]);
    if r.role.Primary? then s'.(primaries := s.primaries + [r]) else s'.(standbys := s.standbys + [r])
  }

  /** The next request: one that pre-empted, else a primary, else a standby. */
  function TakeNext(s: Loop): Loop {
    if s.closed || s.running.Some? then s
    else if s.preempting.Some? then Begin(s.(preempting := None), s.preempting.value)
    else if s.primaries != [] then Begin(s.(primaries := s.primaries[1..]), s.primaries[0])
    else if s.standbys != [] then Begin(s.(standbys := s.standbys[1..]), s.standbys[0])
    else s
  }

  function Begin(s: Loop, req: Request): Loop {
    s.(running := Some(Running(req, Begun)), acts := s.acts + [Began(req)])
  }

  function End(s: Loop, how: Ending): Loop
    requires s.running.Some?
  {
    s.(running := None, acts := s.acts + [Ended(s.running.value.req, how)])
  }

  /** A standby's exchange gives way to a primary that arrives while it runs. */
  function PreEmpt(s: Loop): Loop {
    if s.closed || s.running.None? || !s.running.value.req.role.Standby? || s.primaries == [] then s
    else End(s, PreEmpted).(preempting := Some(s.primaries[0]), primaries := s.primaries[1..])
  }

  /** The exchange draws its generation (`begin_attach`). */
  function Number(s: Loop): Loop {
    if s.running.None? || !s.running.value.progress.Begun? then s
    else s.(running := Some(s.running.value.(progress := Numbered)), meta := s.meta.(attachId := s.meta.attachId + 1))
  }

  function Settle(s: Loop, size: (nat, nat), detachable: bool): Loop {
    if s.running.None? || !s.running.value.progress.Numbered? then s
    else s.(running := Some(s.running.value.(progress := Settled)),
            meta := s.meta.(size := size, detachable := detachable))
  }

  function Fail(s: Loop): Loop {
    if s.running.None? then s else End(s, Failed)
  }

  predicate CanComplete(s: Loop) {
    !s.closed && s.running.Some? && s.running.value.progress.Settled?
  }

  /** The link goes to the session; a session that is gone ends the loop. */
  function Complete(s: Loop, gone: bool): Loop
    requires CanComplete(s)
  {
    var h := Handed(s.running.value.req, s.meta.attachId, s.meta.size, s.meta.detachable);
    End(s, Completed).(closed := gone, handed := s.handed + [h])
  }

  // ---------------------------------------------------------------- the loop, in place

  /** `serve_attaches`, one method for each place its `select!` can wake. */
  class Server {
    var primaries: seq<Request>
    var standbys: seq<Request>
    var preempting: Option<Request>
    var running: Option<Running>
    var meta: Meta
    var closed: bool
    ghost var arrived: seq<Request>
    ghost var acts: seq<Act>
    ghost var handed: seq<Handed>

    ghost function View(): Loop
      reads this
    {
      Loop(primaries, standbys, preempting, running, meta, closed, arrived, acts, handed)
    }

    constructor (record: Meta)
      ensures View() == Start(record)
    {
      primaries, standbys, preempting, running, meta, closed := [], [], None, None, record, false;
      arrived, acts, handed := [], [], [];
    }

    method TakeRequest()
      modifies this
      ensures View() == TakeNext(old(View()))
    {
      if closed || running.Some? {
        return;
      }
      var req: Request;
      if preempting.Some? {
        req, preempting := preempting.value, None;
      } else if primaries != [] {
        req, primaries := primaries[0], primaries[1..];
      } else if standbys != [] {
        req, standbys := standbys[0], standbys[1..];
      } else {
        return;
      }
      running := Some(Running(req, Begun));
      acts := acts + [Began(req)];
    }

    method PrimaryArrivesDuringStandby()
      modifies this
      ensures View() == PreEmpt(old(View()))
    {
      if closed || running.None? || !running.value.req.role.Standby? || primaries == [] {
        return;
      }
      acts := acts + [Ended(running.value.req, PreEmpted)];
      preempting, primaries := Some(primaries[0]), primaries[1..];
      running := None;
    }

    /** A request through one of the doors. */
    method Receive(r: Request)
      modifies this
      ensures View() == Arrive(old(View()), r)
    {
      arrived := arrived + [r];
      match r.role
      case Primary => primaries := primaries + [r];
      case Standby => standbys := standbys + [r];
    }

    /** An error or the timeout: the session never hears of it, and the loop takes the next. */
    method ExchangeFails()
      modifies this
      ensures View() == Fail(old(View()))
    {
      if running.Some? {
        acts := acts + [Ended(running.value.req, Failed)];
        running := None;
      }
    }

    /** The record is written before the session is handed the link. */
    method ExchangeCompletes(door: Door, writes: bool, gone: bool)
      requires CanComplete(View())
      modifies this, door
      ensures View() == Complete(old(View()), gone)
      ensures door.View() == RecordAttach(old(door.View()), old(meta), writes)
    {
      door.RecordAttachOf(meta, writes);
      handed := handed + [Handed(running.value.req, meta.attachId, meta.size, meta.detachable)];
      acts := acts + [Ended(running.value.req, Completed)];
      running := None;
      closed := gone;
    }
  }

  // ---------------------------------------------------------------- runs

  datatype World = World(loop: Loop, own: Own, names: seq<Option<string>>)

  datatype Event =
    | Arrives(id: nat, role: Role)
    | Takes | PreEmpts | Numbers | Settles(size: (nat, nat), detachable: bool) | Fails
    | Completes(writes: bool, gone: bool)
    | Renames(name: Option<string>, granted: bool)

  function Start(record: Meta): Loop {
    Loop([], [], None, None, record, false, [], [], [])
  }

  function Init(own: Own): World {
    World(Start(own.meta), own, [own.meta.name])
  }

  function Next(w: World, e: Event): World {
    match e
    case Arrives(id, role) => w.(loop := Arrive(w.loop, Request(id, role)))
    case Takes => w.(loop := TakeNext(w.loop))
    case PreEmpts => w.(loop := PreEmpt(w.loop))
    case Numbers => w.(loop := Number(w.loop))
    case Settles(size, detachable) => w.(loop := Settle(w.loop, size, detachable))
    case Fails => w.(loop := Fail(w.loop))
    case Completes(writes, gone) =>
      if !CanComplete(w.loop) then w
      else w.(loop := Complete(w.loop, gone), own := RecordAttach(w.own, w.loop.meta, writes))
    case Renames(name, granted) =>
      w.(own := Rename(w.own, name, granted),
         names := if w.own.registered && granted then w.names + [name] else w.names)
  }

  ghost function Exec(own: Own, es: seq<Event>): World {
    if es == [] then Init(own) else Next(Exec(own, es[..|es| - 1]), es[|es| - 1])
  }

  // ---------------------------------------------------------------- serial, in order, never pre-empted

  /** The requests of one role, in order. */
  function Of(reqs: seq<Request>, role: Role): seq<Request> {
    if reqs == [] then []
    else Of(reqs[..|reqs| - 1], role) + if reqs[|reqs| - 1].role == role then [reqs[|reqs| - 1]] else []
  }

  /** The requests of one role begun so far, in order. */
  function Begins(acts: seq<Act>, role: Role): seq<Request> {
    if acts == [] then []
    else
      var rest, last := Begins(acts[..|acts| - 1], role), acts[|acts| - 1];
      if last.Began? && last.req.role == role then rest + [last.req] else rest
  }

  /** `a` may come right after `before`, or first of all. */
  ghost predicate Follows(before: Option<Act>, a: Act) {
    match a
    case Began(r) => before.Some? ==> before.value.Ended? && (before.value.how.PreEmpted? ==> r.role.Primary?)
    case Ended(r, how) => before == Some(Began(r)) && (how.PreEmpted? ==> r.role.Standby?)
  }

  function Before(acts: seq<Act>, k: nat): Option<Act>
    requires k <= |acts|
  {
    if k == 0 then None else Some(acts[k - 1])
  }

  /**
   One exchange at a time, each ended before the next begins; a primary is never pre-empted; and
   after a standby is, the very next exchange is a primary's.
   */
  ghost predicate Serial(acts: seq<Act>) {
    forall k :: 0 <= k < |acts| ==> Follows(Before(acts, k), acts[k])
  }

  lemma SerialAppend(acts: seq<Act>, a: Act)
    requires Serial(acts) && Follows(Before(acts, |acts|), a)
    ensures Serial(acts + [a])
  {
    forall k | 0 <= k < |acts + [a]|
      ensures Follows(Before(acts + [a], k), (acts + [a])[k])
    {
      assert Before(acts + [a], k) == Before(acts, k);
    }
  }

  /** The primaries still to be served, whoever pre-empted first. */
  function Ahead(preempting: Option<Request>, primaries: seq<Request>): seq<Request> {
    if preempting.Some? then [preempting.value] + primaries else primaries
  }

  function InHand(s: Loop): Option<Request> {
    if s.running.Some? then Some(s.running.value.req) else None
  }

  ghost predicate Orderly(s: Loop) {
    InOrder(s.acts, InHand(s), s.preempting, s.primaries, s.standbys, s.arrived)
  }

  ghost predicate InOrder(
    acts: seq<Act>, inHand: Option<Request>, preempting: Option<Request>,
    primaries: seq<Request>, standbys: seq<Request>, arrived: seq<Request>)
  {
    && Serial(acts)
    && Placed(Before(acts, |acts|), inHand, preempting)
    && (forall r :: r in primaries ==> r.role.Primary?)
    && (forall r :: r in standbys ==> r.role.Standby?)
    && Begins(acts, Primary) + Ahead(preempting, primaries) == Of(arrived, Primary)
    && Begins(acts, Standby) + standbys == Of(arrived, Standby)
  }

  /** Where the last thing done leaves the loop. */
  ghost predicate Placed(last: Option<Act>, inHand: Option<Request>, preempting: Option<Request>) {
    && (inHand.Some? ==> last == Some(Began(inHand.value)) && preempting.None?)
    && (inHand.None? && last.Some? ==> last.value.Ended? && (last.value.how.PreEmpted? ==> preempting.Some?))
    && (preempting.Some? ==> preempting.value.role.Primary?)
  }

  lemma BeginsAppend(acts: seq<Act>, a: Act, role: Role)
    ensures Begins(acts + [a], role) == Begins(acts, role) + if a.Began? && a.req.role == role then [a.req] else []
  {
    assert (acts + [a])[..|acts|] == acts;
  }

  /** A queue of one role when `r` is begun from it, or when it is left alone. */
  lemma BeginKeepsQueue(acts: seq<Act>, r: Request, role: Role, queue: seq<Request>, rest: seq<Request>)
    requires queue == (if r.role == role then [r] else []) + rest
    ensures Begins(acts + [Began(r)], role) + rest == Begins(acts, role) + queue
  {
    BeginsAppend(acts, Began(r), role);
  }

  lemma BeginKeepsInOrder(
    acts: seq<Act>, preempting: Option<Request>, primaries: seq<Request>, standbys: seq<Request>,
    arrived: seq<Request>, r: Request, primaries': seq<Request>, standbys': seq<Request>)
    requires InOrder(acts, None, preempting, primaries, standbys, arrived)
    requires (forall p :: p in primaries' ==> p.role.Primary?) && (forall p :: p in standbys' ==> p.role.Standby?)
    requires preempting.Some? ==> r.role.Primary?
    requires Ahead(preempting, primaries) == (if r.role == Primary then [r] else []) + primaries'
    requires standbys == (if r.role == Standby then [r] else []) + standbys'
    ensures InOrder(acts + [Began(r)], Some(r), None, primaries', standbys', arrived)
  {
    SerialAppend(acts, Began(r));
    BeginKeepsQueue(acts, r, Primary, Ahead(preempting, primaries), primaries');
    BeginKeepsQueue(acts, r, Standby, standbys, standbys');
  }

  /** Beginning the request at the head of `preempting` and the primaries, or a standby. */
  lemma BeginKeepsOrderly(s: Loop, s0: Loop, r: Request)
    requires Orderly(s) && s.running.None?
    requires s0 == s.(primaries := s0.primaries, standbys := s0.standbys, preempting := None)
    requires (forall p :: p in s0.primaries ==> p.role.Primary?) && (forall p :: p in s0.standbys ==> p.role.Standby?)
    requires s.preempting.Some? ==> r.role.Primary?
    requires Ahead(s.preempting, s.primaries) == (if r.role == Primary then [r] else []) + s0.primaries
    requires s.standbys == (if r.role == Standby then [r] else []) + s0.standbys
    ensures Orderly(Begin(s0, r))
  {
    BeginKeepsInOrder(s.acts, s.preempting, s.primaries, s.standbys, s.arrived, r, s0.primaries, s0.standbys);
  }

  lemma TakeKeepsOrderly(s: Loop)
    requires Orderly(s)
    ensures Orderly(TakeNext(s))
  {
    if s.closed || s.running.Some? {
    } else if s.preempting.Some? {
      BeginKeepsOrderly(s, s.(preempting := None), s.preempting.value);
    } else if s.primaries != [] {
      assert s.primaries == [s.primaries[0]] + s.primaries[1..];
      BeginKeepsOrderly(s, s.(primaries := s.primaries[1..]), s.primaries[0]);
    } else if s.standbys != [] {
      assert s.standbys == [s.standbys[0]] + s.standbys[1..];
      BeginKeepsOrderly(s, s.(standbys := s.standbys[1..]), s.standbys[0]);
    }
  }

  lemma EndKeepsOrderly(s: Loop, how: Ending)
    requires Orderly(s) && s.running.Some? && !how.PreEmpted?
    ensures Orderly(End(s, how))
  {
    BeginsAppend(s.acts, Ended(s.running.value.req, how), Primary);
    BeginsAppend(s.acts, Ended(s.running.value.req, how), Standby);
    SerialAppend(s.acts, Ended(s.running.value.req, how));
  }

  lemma PreEmptKeepsOrderly(s: Loop)
    requires Orderly(s)
    ensures Orderly(PreEmpt(s))
  {
    var s' := PreEmpt(s);
    if s' != s {
      BeginsAppend(s.acts, Ended(s.running.value.req, PreEmpted), Primary);
      BeginsAppend(s.acts, Ended(s.running.value.req, PreEmpted), Standby);
      SerialAppend(s.acts, Ended(s.running.value.req, PreEmpted));
      assert Ahead(s'.preempting, s'.primaries) == s.primaries;
    }
  }

  lemma ArriveKeepsOrderly(w: World, id: nat, role: Role)
    requires Orderly(w.loop)
    ensures Orderly(Next(w, Arrives(id, role)).loop)
  {
    var s, r := w.loop, Request(id, role);
    assert (s.arrived + [r])[..|s.arrived|] == s.arrived;
    assert Begins(s.acts, Standby) + (s.standbys + [r]) == (Begins(s.acts, Standby) + s.standbys) + [r];
    assert Ahead(s.preempting, s.primaries + [r]) == Ahead(s.preempting, s.primaries) + [r];
    var begun, ahead := Begins(s.acts, Primary), Ahead(s.preempting, s.primaries);
    assert begun + (ahead + [r]) == (begun + ahead) + [r];
  }

  lemma ProgressKeepsOrderly(s: Loop, size: (nat, nat), detachable: bool)
    requires Orderly(s)
    ensures Orderly(Number(s)) && Orderly(Settle(s, size, detachable))
  {
    assert InHand(Number(s)) == InHand(s) && InHand(Settle(s, size, detachable)) == InHand(s);
  }

  lemma NextKeepsOrderly(w: World, e: Event)
    requires Orderly(w.loop)
    ensures Orderly(Next(w, e).loop)
  {
    match e
    case Takes => TakeKeepsOrderly(w.loop);
    case PreEmpts => PreEmptKeepsOrderly(w.loop);
    case Fails =>
      if w.loop.running.Some? {
        EndKeepsOrderly(w.loop, Failed);
      }
    case Completes(_, _) =>
      if CanComplete(w.loop) {
        EndKeepsOrderly(w.loop, Completed);
      }
    case Arrives(id, role) => ArriveKeepsOrderly(w, id, role);
    case Numbers => ProgressKeepsOrderly(w.loop, (0, 0), false);
    case Settles(size, detachable) => ProgressKeepsOrderly(w.loop, size, detachable);
    case Renames(_, _) =>
  }

  /** The requests that came in through the doors, in order. */
  function Arrivals(es: seq<Event>): seq<Request> {
    if es == [] then []
    else
      var e := es[|es| - 1];
      Arrivals(es[..|es| - 1]) + if e.Arrives? then [Request(e.id, e.role)] else []
  }

  /**
   Whatever arrives and however exchanges end: the loop is serial, and the primaries that have
   begun, then one that pre-empted and is served next, then those waiting are exactly the
   primaries that arrived, in the order they did -- each begun once and none skipped; and so are
   the standbys begun and those waiting.
   */
  lemma {:induction false} PrimariesInOrder(own: Own, es: seq<Event>)
    ensures Orderly(Exec(own, es).loop) && Exec(own, es).loop.arrived == Arrivals(es)
  {
    if es != [] {
      PrimariesInOrder(own, es[..|es| - 1]);
      NextKeepsOrderly(Exec(own, es[..|es| - 1]), es[|es| - 1]);
      NextArrives(Exec(own, es[..|es| - 1]), es[|es| - 1]);
    }
  }

  lemma NextArrives(w: World, e: Event)
    ensures Next(w, e).loop.arrived == w.loop.arrived + if e.Arrives? then [Request(e.id, e.role)] else []
  {
  }

  lemma ExecStep(own: Own, es: seq<Event>, e: Event)
    ensures Exec(own, es + [e]) == Next(Exec(own, es), e)
  {
    assert (es + [e])[..|es|] == es;
  }

  /** Who is next: whoever pre-empted, else the first primary waiting, else the first standby. */
  function NextUp(s: Loop): Option<Request> {
    var queue := Ahead(s.preempting, s.primaries) + s.standbys;
    if queue == [] then None else Some(queue[0])
  }

  /** A loop is open until a session that is gone is handed a link; until then an idle one serves whoever is next. */
  lemma {:induction false} IdleServesTheNext(own: Own, es: seq<Event>)
    ensures var s, s' := Exec(own, es).loop, Exec(own, es + [Takes]).loop;
      !s.closed && s.running.None? && NextUp(s).Some? ==> s'.running == Some(Running(NextUp(s).value, Begun))
    ensures (forall k :: 0 <= k < |es| ==> !(es[k].Completes? && es[k].gone)) ==> !Exec(own, es).loop.closed
  {
    ExecStep(own, es, Takes);
    if es != [] {
      IdleServesTheNext(own, es[..|es| - 1]);
    }
  }

  /** `p` pre-empted and nothing is running. */
  ghost predicate UpNext(s: Loop, p: Request) {
    !s.closed && s.running.None? && s.preempting == Some(p)
  }

  lemma {:induction false} StaysUpNext(own: Own, es: seq<Event>, more: seq<Event>, p: Request)
    requires UpNext(Exec(own, es).loop, p) && forall k :: 0 <= k < |more| ==> !more[k].Takes?
    ensures UpNext(Exec(own, es + more).loop, p) && Exec(own, es + more).loop.handed == Exec(own, es).loop.handed
  {
    if more == [] {
      assert es + more == es;
    } else {
      var n := |more| - 1;
      StaysUpNext(own, es, more[..n], p);
      assert (es + more)[..|es + more| - 1] == es + more[..n];
    }
  }

  /**
   A primary that arrives while a standby's exchange runs, and pre-empts it, is the very next served,
   whatever arrives or is renamed before the loop comes round; the session hears nothing of the
   exchange that was dropped.
   */
  lemma PrimaryIsServedNext(own: Own, es: seq<Event>, more: seq<Event>)
    requires var s := Exec(own, es).loop;
      !s.closed && s.running.Some? && s.running.value.req.role.Standby? && s.primaries != []
    requires forall k :: 0 <= k < |more| ==> !more[k].Takes?
    ensures var s, s' := Exec(own, es).loop, Exec(own, es + [PreEmpts] + more + [Takes]).loop;
      s'.running == Some(Running(s.primaries[0], Begun)) && s'.handed == s.handed
  {
    ExecStep(own, es, PreEmpts);
    StaysUpNext(own, es + [PreEmpts], more, Exec(own, es).loop.primaries[0]);
    ExecStep(own, es + [PreEmpts] + more, Takes);
  }

  lemma ExecThree(own: Own, es: seq<Event>, a: Event, b: Event, c: Event)
    ensures Exec(own, es + [a] + [b] + [c]) == Next(Next(Next(Exec(own, es), a), b), c)
  {
    ExecStep(own, es, a);
    ExecStep(own, es + [a], b);
    ExecStep(own, es + [a] + [b], c);
  }

  lemma ExchangeSteps(w: World, size: (nat, nat), detachable: bool, writes: bool, gone: bool)
    requires !w.loop.closed && w.loop.running.Some? && w.loop.running.value.progress.Begun?
    ensures var w' := Next(Next(Next(w, Numbers), Settles(size, detachable)), Completes(writes, gone));
      var g := w.loop.meta.attachId + 1;
      && w'.loop.handed == w.loop.handed + [Handed(w.loop.running.value.req, g, size, detachable)]
      && w'.loop.running.None? && w'.loop.closed == gone
      && w'.own.meta == Meta(g, size, detachable, w.own.meta.name)
  {
  }

  /**
   An exchange that runs to its end: the link goes over with the next generation and what was agreed,
   and the record says so under the name it had.
   */
  lemma ExchangeHandsOver(own: Own, es: seq<Event>, size: (nat, nat), detachable: bool, writes: bool, gone: bool)
    requires var s := Exec(own, es).loop; !s.closed && s.running.Some? && s.running.value.progress.Begun?
    ensures var w := Exec(own, es);
      var w' := Exec(own, es + [Numbers] + [Settles(size, detachable)] + [Completes(writes, gone)]);
      var g := w.loop.meta.attachId + 1;
      && w'.loop.handed == w.loop.handed + [Handed(w.loop.running.value.req, g, size, detachable)]
      && w'.loop.running.None? && w'.loop.closed == gone
      && w'.own.meta == Meta(g, size, detachable, w.own.meta.name)
  {
    ExecThree(own, es, Numbers, Settles(size, detachable), Completes(writes, gone));
    ExchangeSteps(Exec(own, es), size, detachable, writes, gone);
  }

  // ---------------------------------------------------------------- generations and names

  /** The exchange in hand has taken its generation. */
  predicate HasNumber(s: Loop) {
    s.running.Some? && !s.running.value.progress.Begun?
  }

  /** Generations handed over rise, from the one at the start to the working record's. */
  ghost predicate Rising(handed: seq<Handed>, first: nat, working: nat, numbered: bool) {
    && first <= working
    && (numbered ==> first < working)
    && (forall i, j :: 0 <= i < j < |handed| ==> handed[i].generation < handed[j].generation)
    && (forall i :: 0 <= i < |handed| ==>
          first < handed[i].generation <= working && (numbered ==> handed[i].generation < working))
  }

  /** `m` is what the last completed exchange agreed, under the name `name`. */
  ghost predicate Agreed(handed: seq<Handed>, first: Meta, m: Meta, name: Option<string>) {
    m == if handed == [] then first.(name := name)
         else var h := handed[|handed| - 1]; Meta(h.generation, h.size, h.detachable, name)
  }

  /** What the door answers from is what the last completed exchange agreed, under the last name given. */
  ghost predicate Recorded(w: World, own: Own) {
    && w.own.registered == own.registered
    && w.names != [] && w.names[0] == own.meta.name
    && Rising(w.loop.handed, own.meta.attachId, w.loop.meta.attachId, HasNumber(w.loop))
    && Agreed(w.loop.handed, own.meta, w.own.meta, w.names[|w.names| - 1])
  }

  lemma CompleteKeepsRecorded(w: World, writes: bool, gone: bool, own: Own)
    requires Recorded(w, own)
    ensures Recorded(Next(w, Completes(writes, gone)), own)
  {
  }

  lemma ProgressKeepsRecorded(w: World, e: Event, own: Own)
    requires Recorded(w, own) && (e.Numbers? || e.Settles? || e.Renames?)
    ensures Recorded(Next(w, e), own)
  {
  }

  /** Every other event leaves the record, the names and what was handed over alone. */
  lemma QueuesKeepRecorded(w: World, e: Event, own: Own)
    requires Recorded(w, own) && (e.Arrives? || e.Takes? || e.PreEmpts? || e.Fails?)
    ensures Recorded(Next(w, e), own)
  {
    var w' := Next(w, e);
    assert w'.own == w.own && w'.names == w.names && w'.loop.handed == w.loop.handed && w'.loop.meta == w.loop.meta;
    assert HasNumber(w'.loop) ==> HasNumber(w.loop);
  }

  lemma NextKeepsRecorded(w: World, e: Event, own: Own)
    requires Recorded(w, own)
    ensures Recorded(Next(w, e), own)
  {
    if e.Completes? {
      CompleteKeepsRecorded(w, e.writes, e.gone, own);
    } else if e.Numbers? || e.Settles? || e.Renames? {
      ProgressKeepsRecorded(w, e, own);
    } else {
      QueuesKeepRecorded(w, e, own);
    }
  }

  /**
   Over every run the generations handed to the session strictly increase; the recorded
   generation, size and detachability are always those of one completed exchange, the last; and
   the recorded name is always the last one granted -- recording an attach, whose working record
   is older than the rename, never undoes it.
   */
  lemma {:induction false} RecordIsTheLastAttach(own: Own, es: seq<Event>)
    ensures Recorded(Exec(own, es), own)
  {
    if es != [] {
      RecordIsTheLastAttach(own, es[..|es| - 1]);
      NextKeepsRecorded(Exec(own, es[..|es| - 1]), es[|es| - 1], own);
    }
  }

  /** The last thing recorded in `es` did not reach the file: an attach whose write failed. */
  ghost predicate Behind(own: Own, es: seq<Event>) {
    es != [] &&
    var p, e := es[..|es| - 1], es[|es| - 1];
    BehindAfter(Exec(own, p), e, Behind(own, p))
  }

  ghost predicate BehindAfter(w: World, e: Event, before: bool) {
    if e.Completes? && CanComplete(w.loop) then !e.writes
    else if e.Renames? && e.granted then false
    else before
  }

  /** The file of a session registered as `own`, `behind` or not. */
  ghost predicate FileIs(w: World, own: Own, behind: bool) {
    && w.own.disk.attachId <= w.own.meta.attachId <= w.loop.meta.attachId
    && (if own.registered
        then
          && w.own.disk.name == w.own.meta.name
          && (w.own.disk == w.own.meta <==> !behind)
          && (behind ==> w.own.disk.attachId < w.own.meta.attachId)
        else w.own.disk == own.disk)
  }

  lemma CompleteKeepsFile(w: World, writes: bool, gone: bool, own: Own, behind: bool)
    requires Recorded(w, own) && FileIs(w, own, behind) && CanComplete(w.loop)
    ensures FileIs(Next(w, Completes(writes, gone)), own, !writes)
  {
    assert w.own.meta.attachId < w.loop.meta.attachId;
  }

  lemma OtherKeepsFile(w: World, e: Event, own: Own, behind: bool)
    requires Recorded(w, own) && FileIs(w, own, behind) && !(e.Completes? && CanComplete(w.loop))
    ensures FileIs(Next(w, e), own, BehindAfter(w, e, behind))
  {
  }

  /**
   A registered session's file says what the door's record says if and only if the write of the last
   attach did not fail or a rename has been granted since; where it is behind, it is in what attaches
   record and never in the name. The file of one that is not registered is left alone.
   */
  lemma {:induction false} FileLagsOnlyInGeneration(own: Own, es: seq<Event>)
    requires own.disk == own.meta
    ensures FileIs(Exec(own, es), own, Behind(own, es))
  {
    if es != [] {
      var p, e := es[..|es| - 1], es[|es| - 1];
      RecordIsTheLastAttach(own, p);
      FileLagsOnlyInGeneration(own, p);
      if e.Completes? && CanComplete(Exec(own, p).loop) {
        CompleteKeepsFile(Exec(own, p), e.writes, e.gone, own, Behind(own, p));
      } else {
        OtherKeepsFile(Exec(own, p), e, own, Behind(own, p));
      }
    }
  }
}
