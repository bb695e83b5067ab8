/**
 The activity log (src/activity.rs): a ring of the last entries for the popup, in which
 details give way first, and a file in which a run of identical entries is folded into two
 lines.

 The log is modelled twice over one set of functions: as it is, with a bounded ring, and with
 a ring that never lets go of anything. The second is the history the first is judged by.
 */
module ActivityLog {
  import opened Options

  const RING := 200
  const U32_MAX := 0xFFFF_FFFF

  datatype Kind = Link | Standby | Failover | Rebuild | Input | Log | Outage | Config | Session

  datatype Entry = Entry(
    at: int, since: int, kind: Kind, text: string, shown: string, full: string, detail: bool, repeats: nat)

  /** One `record_entry` call, its texts already escaped and made one line. */
  datatype Rec = Rec(kind: Kind, text: string, shown: string, full: string, detail: bool, at: int)

  /** A line of the file, before its words are put together. */
  datatype Line =
    | First(at: int, kind: Kind, full: string)
    | Repeated(at: int, kind: Kind, full: string, n: nat, since: int)

  /** What `LogFile::write_line` came back with; an error is told once, in the ring. */
  datatype Wrote = Fine | Failed(at: int, text: string)

  datatype State = State(ring: seq<Entry>, fileOn: bool, lines: seq<Line>)

  // ---------------------------------------------------------------- the code, on values

  predicate SameRun(e: Entry, r: Rec) {
    e.kind == r.kind && e.full == r.full && e.shown == r.shown && e.detail == r.detail
  }

  /** The first detail among the first `n` entries, or `n`. */
  function FirstDetail(ring: seq<Entry>, n: nat): (i: nat)
    requires n <= |ring|
    ensures i <= n
    ensures i < n ==> ring[i].detail
    ensures forall j :: 0 <= j < i ==> !ring[j].detail
  {
    if n == 0 then 0
    else var i := FirstDetail(ring, n - 1);
      if i < n - 1 || ring[n - 1].detail then i else n
  }

  lemma FirstDetailIs(ring: seq<Entry>, n: nat, i: nat)
    requires i <= n <= |ring| && (i < n ==> ring[i].detail) && forall j :: 0 <= j < i ==> !ring[j].detail
    ensures FirstDetail(ring, n) == i
  {
    var k := FirstDetail(ring, n);
    assert !(k < i) && !(i < k);
  }

  /** One entry gives way: the oldest detail but the newest entry, else the oldest. */
  function LetGo(ring: seq<Entry>): (r: seq<Entry>)
    requires ring != []
    ensures |r| == |ring| - 1
  {
    var older := |ring| - 1;
    var i := FirstDetail(ring, older);
    if i < older then ring[..i] + ring[i + 1..] else ring[1..]
  }

  function Evict(ring: seq<Entry>): seq<Entry> {
    if |ring| <= RING then ring else Evict(LetGo(ring))
  }

  function Push(bounded: bool, ring: seq<Entry>, e: Entry): seq<Entry> {
    if bounded then Evict(ring + [e]) else ring + [e]
  }

  function OffEntry(at: int, text: string): Entry {
    Entry(at, at, Log, text, text, text, false, 0)
  }

  function FileOff(bounded: bool, s: State, at: int, text: string): State {
    s.(fileOn := false, ring := Push(bounded, s.ring, OffEntry(at, text)))
  }

  function Write(bounded: bool, s: State, line: Line, wrote: Wrote): State {
    if !s.fileOn then s
    else match wrote
      case Fine => s.(lines := s.lines + [line])
      case Failed(at, text) => FileOff(bounded, s, at, text)
  }

  function EndRun(bounded: bool, s: State, wrote: Wrote): State {
    if s.ring == [] || s.ring[|s.ring| - 1].repeats == 0 then s
    else var last := s.ring[|s.ring| - 1];
      Write(bounded, s, Repeated(last.at, last.kind, last.full, last.repeats, last.since), wrote)
  }

  function Fold(ring: seq<Entry>, at: int): seq<Entry>
    requires ring != []
  {
    var last := ring[|ring| - 1];
    ring[|ring| - 1 := last.(repeats := if last.repeats < U32_MAX then last.repeats + 1 else last.repeats, at := at)]
  }

  function Record(bounded: bool, s: State, r: Rec, ended: Wrote, first: Wrote): State {
    if s.ring != [] && SameRun(s.ring[|s.ring| - 1], r) then s.(ring := Fold(s.ring, r.at))
    else
      var s1 := EndRun(bounded, s, ended);
      var s2 := s1.(ring := Push(bounded, s1.ring, Entry(r.at, r.at, r.kind, r.text, r.shown, r.full, r.detail, 0)));
      Write(bounded, s2, First(r.at, r.kind, r.full), first)
  }

  // ---------------------------------------------------------------- the code, in place

  class Activity {
    var ring: seq<Entry>
    var fileOn: bool
    var lines: seq<Line>

    ghost function View(): State
      reads this
    {
      State(ring, fileOn, lines)
    }

    /** `opening` is what opening the file came back with. */
    constructor (opening: Wrote)
      ensures View() == Start(true, opening)
    {
      ring, lines, fileOn := [], [], opening.Fine?;
      new;
      match opening
      case Fine =>
      case Failed(at, text) => TellFileOff(at, text);
    }

    /** One round of the loop in `push`. */
    method LetOneGo()
      requires ring != []
      modifies this`ring
      ensures ring == LetGo(old(ring))
    {
      var older := |ring| - 1;
      var i := 0;
      while i < older && !ring[i].detail
        invariant 0 <= i <= older
        invariant forall j :: 0 <= j < i ==> !ring[j].detail
      {
        i := i + 1;
      }
      FirstDetailIs(ring, older, i);
      if i < older {
        ring := ring[..i] + ring[i + 1..];
      } else {
        ring := ring[1..];
      }
    }

    method PushEntry(e: Entry)
      modifies this`ring
      ensures ring == Push(true, old(ring), e)
    {
      ring := ring + [e];
      while |ring| > RING
        invariant Evict(ring) == Evict(old(ring) + [e])
      {
        LetOneGo();
      }
    }

    method TellFileOff(at: int, text: string)
      modifies this`ring
      ensures ring == Push(true, old(ring), OffEntry(at, text))
    {
      PushEntry(OffEntry(at, text));
    }

    method WriteOut(line: Line, wrote: Wrote)
      modifies this
      ensures View() == Write(true, old(View()), line, wrote)
    {
      if !fileOn {
        return;
      }
      match wrote
      case Fine => lines := lines + [line];
      case Failed(at, text) =>
        fileOn := false;
        TellFileOff(at, text);
    }

    method EndTheRun(wrote: Wrote)
      modifies this
      ensures View() == EndRun(true, old(View()), wrote)
    {
      if ring == [] {
        return;
      }
      var last := ring[|ring| - 1];
      if last.repeats == 0 {
        return;
      }
      WriteOut(Repeated(last.at, last.kind, last.full, last.repeats, last.since), wrote);
    }

    method RecordEntry(r: Rec, ended: Wrote, first: Wrote)
      modifies this
      ensures View() == Record(true, old(View()), r, ended, first)
    {
      if ring != [] {
        var last := ring[|ring| - 1];
        if SameRun(last, r) {
          var n := if last.repeats < U32_MAX then last.repeats + 1 else last.repeats;
          ring := ring[|ring| - 1 := last.(repeats := n, at := r.at)];
          return;
        }
      }
      EndTheRun(ended);
      PushEntry(Entry(r.at, r.at, r.kind, r.text, r.shown, r.full, r.detail, 0));
      WriteOut(First(r.at, r.kind, r.full), first);
    }
  }

  // ---------------------------------------------------------------- runs

  datatype Event = Event(r: Rec, ended: Wrote, first: Wrote)

  function Start(bounded: bool, opening: Wrote): State {
    match opening
    case Fine => State([], true, [])
    case Failed(at, text) => FileOff(bounded, State([], false, []), at, text)
  }

  ghost function Exec(bounded: bool, opening: Wrote, es: seq<Event>): State {
    if es == [] then Start(bounded, opening)
    else var e := es[|es| - 1]; Record(bounded, Exec(bounded, opening, es[..|es| - 1]), e.r, e.ended, e.first)
  }

  // ---------------------------------------------------------------- the ring's closed form

  /** The last `s` shown entries of `h` and its last `d` details, in the order of `h`. */
  function Pick(h: seq<Entry>, s: nat, d: nat): seq<Entry> {
    if h == [] then []
    else
      var rest, last := h[..|h| - 1], h[|h| - 1];
      if last.detail then (if d == 0 then Pick(rest, s, 0) else Pick(rest, s, d - 1) + [last])
      else (if s == 0 then Pick(rest, 0, d) else Pick(rest, s - 1, d) + [last])
  }

  function Shown(h: seq<Entry>): (n: nat)
    ensures n <= |h|
  {
    if h == [] then 0 else Shown(h[..|h| - 1]) + if h[|h| - 1].detail then 0 else 1
  }

  function Min(a: nat, b: nat): nat {
    if a < b then a else b
  }

  /** How many shown entries are kept of `h`: all that fit, but the newest entry always has a place. */
  function ShownKept(h: seq<Entry>): nat {
    Min(Shown(h), if h != [] && h[|h| - 1].detail then RING - 1 else RING)
  }

  /** What the ring holds after the pushes `h`, in closed form. */
  function Kept(h: seq<Entry>): seq<Entry> {
    Pick(h, ShownKept(h), RING - ShownKept(h))
  }

  lemma {:induction false} PickLength(h: seq<Entry>, s: nat, d: nat)
    ensures |Pick(h, s, d)| == Min(s, Shown(h)) + Min(d, |h| - Shown(h))
  {
    if h != [] {
      var rest, last := h[..|h| - 1], h[|h| - 1];
      PickLength(rest, if last.detail || s == 0 then s else s - 1, if !last.detail || d == 0 then d else d - 1);
    }
  }

  /** Asking for more details than there are changes nothing. */
  lemma {:induction false} PickSaturates(h: seq<Entry>, s: nat, d: nat, e: nat)
    requires |h| - Shown(h) <= d && |h| - Shown(h) <= e
    ensures Pick(h, s, d) == Pick(h, s, e)
  {
    PickLength(h, s, d);
    if h != [] {
      var rest, last := h[..|h| - 1], h[|h| - 1];
      PickLength(rest, s, d);
      if last.detail {
        PickSaturates(rest, s, d - 1, e - 1);
      } else {
        PickSaturates(rest, if s == 0 then 0 else s - 1, d, e);
      }
    }
  }

  ghost predicate IsFirstDetail(r: seq<Entry>, i: nat) {
    i < |r| && r[i].detail && forall j :: 0 <= j < i ==> !r[j].detail
  }

  lemma {:induction false} NoDetailPicked(h: seq<Entry>, s: nat)
    ensures forall i :: 0 <= i < |Pick(h, s, 0)| ==> !Pick(h, s, 0)[i].detail
  {
    if h != [] {
      NoDetailPicked(h[..|h| - 1], if h[|h| - 1].detail || s == 0 then s else s - 1);
    }
  }

  /** The oldest detail leaves: one detail fewer is picked. */
  lemma {:induction false} DetailLeaves(h: seq<Entry>, s: nat, d: nat, i: nat)
    requires 0 < d <= |h| - Shown(h) && IsFirstDetail(Pick(h, s, d), i)
    ensures Pick(h, s, d)[..i] + Pick(h, s, d)[i + 1..] == Pick(h, s, d - 1)
  {
    var rest, last := h[..|h| - 1], h[|h| - 1];
    var k := Pick(h, s, d);
    if last.detail && d == 1 {
      NoDetailPicked(rest, s);
      assert k == Pick(rest, s, 0) + [last];
      assert forall j :: 0 <= j < |k| - 1 ==> k[j] == Pick(rest, s, 0)[j];
      assert i == |k| - 1;
    } else {
      var s', d' := if last.detail || s == 0 then s else s - 1, if last.detail then d - 1 else d;
      var k' := Pick(rest, s', d');
      PickLength(rest, s', d');
      PickHasDetail(rest, s', d');
      if k != k' {
        assert k == k' + [last];
        assert forall j :: 0 <= j < |k'| ==> k[j] == k'[j];
        assert IsFirstDetail(k', i);
        assert k[..i] + k[i + 1..] == (k'[..i] + k'[i + 1..]) + [last];
      }
      DetailLeaves(rest, s', d', i);
    }
  }

  lemma {:induction false} PickHasDetail(h: seq<Entry>, s: nat, d: nat)
    requires 0 < d && Shown(h) < |h|
    ensures exists i :: 0 <= i < |Pick(h, s, d)| && Pick(h, s, d)[i].detail
  {
    var rest, last := h[..|h| - 1], h[|h| - 1];
    var k := Pick(h, s, d);
    if last.detail {
      assert k[|k| - 1].detail;
    } else {
      var s' := if s == 0 then 0 else s - 1;
      PickHasDetail(rest, s', d);
      var i :| 0 <= i < |Pick(rest, s', d)| && Pick(rest, s', d)[i].detail;
      assert k[i].detail;
    }
  }

  /** The oldest entry leaves a ring of shown entries: one shown entry fewer is picked. */
  lemma {:induction false} ShownLeaves(h: seq<Entry>, s: nat)
    requires 0 < s <= Shown(h)
    ensures Pick(h, s, 0) != [] && Pick(h, s, 0)[1..] == Pick(h, s - 1, 0)
  {
    var rest, last := h[..|h| - 1], h[|h| - 1];
    PickLength(h, s, 0);
    PickLength(rest, s, 0);
    if last.detail {
      ShownLeaves(rest, s);
    } else if s == 1 {
      PickLength(rest, 0, 0);
    } else {
      ShownLeaves(rest, s - 1);
      assert (Pick(rest, s - 1, 0) + [last])[1..] == Pick(rest, s - 1, 0)[1..] + [last];
    }
  }

  /** What is left of the pushes `h` once room is made for one more. */
  function Room(h: seq<Entry>): seq<Entry> {
    var s := Min(Shown(h), RING - 1);
    Pick(h, s, RING - 1 - s)
  }

  lemma KeptUnfolds(h: seq<Entry>, e: Entry)
    ensures Kept(h + [e]) == Room(h) + [e]
  {
    assert (h + [e])[..|h|] == h;
  }

  /** The first detail of a ring that has one is the first of the ring and a new entry. */
  lemma FirstDetailIn(k: seq<Entry>, e: Entry)
    requires |k| == RING && exists j :: 0 <= j < RING && k[j].detail
    ensures var i := FirstDetail(k + [e], RING);
      IsFirstDetail(k, i) && LetGo(k + [e]) == (k[..i] + k[i + 1..]) + [e]
  {
    var i := FirstDetail(k + [e], RING);
    assert forall j :: 0 <= j < RING ==> (k + [e])[j] == k[j];
    assert (k + [e])[..i] + (k + [e])[i + 1..] == (k[..i] + k[i + 1..]) + [e];
  }

  lemma OldestIn(k: seq<Entry>, e: Entry)
    requires |k| == RING && forall j :: 0 <= j < RING ==> !k[j].detail
    ensures LetGo(k + [e]) == k[1..] + [e]
  {
    assert forall j :: 0 <= j < RING ==> (k + [e])[j] == k[j];
    assert (k + [e])[1..] == k[1..] + [e];
  }

  lemma LetGoMakesRoom(h: seq<Entry>, e: Entry)
    requires |Kept(h)| == RING
    ensures LetGo(Kept(h) + [e]) == Room(h) + [e]
  {
    var s := ShownKept(h);
    var d := RING - s;
    PickLength(h, s, d);
    if d == 0 {
      NoDetailPicked(h, s);
      OldestIn(Kept(h), e);
      ShownLeaves(h, s);
      assert Room(h) == Pick(h, s - 1, 0);
    } else {
      assert Room(h) == Pick(h, s, d - 1);
      PickHasDetail(h, s, d);
      FirstDetailIn(Kept(h), e);
      DetailLeaves(h, s, d, FirstDetail(Kept(h) + [e], RING));
    }
  }

  lemma EvictOne(r: seq<Entry>)
    requires |r| == RING + 1
    ensures Evict(r) == LetGo(r)
  {
    assert Evict(r) == Evict(LetGo(r));
  }

  lemma KeptFits(h: seq<Entry>)
    ensures |Kept(h)| <= RING
    ensures |Kept(h)| < RING ==> ShownKept(h) == Shown(h) < RING && |h| - Shown(h) < RING - Shown(h)
  {
    PickLength(h, ShownKept(h), RING - ShownKept(h));
    DetailsCount(h);
  }

  lemma KeptStep(h: seq<Entry>, e: Entry)
    ensures Evict(Kept(h) + [e]) == Kept(h + [e])
  {
    KeptUnfolds(h, e);
    KeptFits(h);
    if |Kept(h)| == RING {
      LetGoMakesRoom(h, e);
      EvictOne(Kept(h) + [e]);
    } else {
      PickSaturates(h, Shown(h), RING - Shown(h), RING - 1 - Shown(h));
    }
  }

  /** A history that ends in a detail has one. */
  lemma DetailsCount(h: seq<Entry>)
    ensures h != [] && h[|h| - 1].detail ==> Shown(h) < |h|
  {
    if h != [] {
      PickLength(h[..|h| - 1], 0, 0);
    }
  }

  /** The newest entry is always kept, so a repeat always finds it. */
  lemma NewestKept(h: seq<Entry>)
    requires h != []
    ensures Kept(h) == Room(h[..|h| - 1]) + [h[|h| - 1]]
  {
    assert h == h[..|h| - 1] + [h[|h| - 1]];
    KeptUnfolds(h[..|h| - 1], h[|h| - 1]);
  }

  /** Folding a repeat into the newest entry commutes with keeping. */
  lemma KeptFold(h: seq<Entry>, at: int)
    requires h != []
    ensures Kept(h) != [] && Kept(Fold(h, at)) == Fold(Kept(h), at)
  {
    var rest := h[..|h| - 1];
    NewestKept(h);
    NewestKept(Fold(h, at));
    assert Fold(h, at)[..|h| - 1] == rest;
  }

  // ---------------------------------------------------------------- the ring theorem

  /** `s` is the log `u` would be if it had a bounded ring. */
  ghost predicate Bounds(u: State, s: State) {
    s == u.(ring := Kept(u.ring))
  }

  lemma PushBounds(u: State, s: State, e: Entry)
    requires Bounds(u, s)
    ensures Bounds(u.(ring := Push(false, u.ring, e)), s.(ring := Push(true, s.ring, e)))
  {
    KeptStep(u.ring, e);
  }

  lemma WriteBounds(u: State, s: State, line: Line, wrote: Wrote)
    requires Bounds(u, s)
    ensures Bounds(Write(false, u, line, wrote), Write(true, s, line, wrote))
  {
    if wrote.Failed? {
      KeptStep(u.ring, OffEntry(wrote.at, wrote.text));
    }
  }

  lemma EndRunBounds(u: State, s: State, wrote: Wrote)
    requires Bounds(u, s)
    ensures Bounds(EndRun(false, u, wrote), EndRun(true, s, wrote))
  {
    if u.ring != [] {
      NewestKept(u.ring);
      var last := u.ring[|u.ring| - 1];
      WriteBounds(u, s, Repeated(last.at, last.kind, last.full, last.repeats, last.since), wrote);
    }
  }

  lemma FirstBounds(u: State, s: State, r: Rec, first: Wrote)
    requires Bounds(u, s)
    ensures var entry := Entry(r.at, r.at, r.kind, r.text, r.shown, r.full, r.detail, 0);
      Bounds(Write(false, u.(ring := Push(false, u.ring, entry)), First(r.at, r.kind, r.full), first),
             Write(true, s.(ring := Push(true, s.ring, entry)), First(r.at, r.kind, r.full), first))
  {
    var entry := Entry(r.at, r.at, r.kind, r.text, r.shown, r.full, r.detail, 0);
    PushBounds(u, s, entry);
    WriteBounds(u.(ring := Push(false, u.ring, entry)), s.(ring := Push(true, s.ring, entry)),
                First(r.at, r.kind, r.full), first);
  }

  lemma RecordBounds(u: State, s: State, e: Event)
    requires Bounds(u, s)
    ensures Bounds(Record(false, u, e.r, e.ended, e.first), Record(true, s, e.r, e.ended, e.first))
  {
    if u.ring != [] {
      NewestKept(u.ring);
    }
    if u.ring != [] && SameRun(u.ring[|u.ring| - 1], e.r) {
      KeptFold(u.ring, e.r.at);
    } else {
      EndRunBounds(u, s, e.ended);
      FirstBounds(EndRun(false, u, e.ended), EndRun(true, s, e.ended), e.r, e.first);
    }
  }

  /**
   After every run the ring is the closed form of the whole history: with `h` everything ever
   pushed, the last shown entries that fit -- one place fewer when the newest entry is a detail
   -- and the last details that fit in the rest, in order. The file does not depend on the ring
   at all: it is the same as if nothing had ever been let go of.
   */
  lemma {:induction false} RingClosedForm(opening: Wrote, es: seq<Event>)
    ensures Bounds(Exec(false, opening, es), Exec(true, opening, es))
    ensures |Exec(true, opening, es).ring| <= RING
  {
    if es == [] {
      if opening.Failed? {
        KeptStep([], OffEntry(opening.at, opening.text));
      }
    } else {
      RingClosedForm(opening, es[..|es| - 1]);
      RecordBounds(Exec(false, opening, es[..|es| - 1]), Exec(true, opening, es[..|es| - 1]), es[|es| - 1]);
    }
    KeptFits(Exec(false, opening, es).ring);
  }

  // ---------------------------------------------------------------- the file

  datatype Item = Item(kind: Kind, full: string)

  function Times(n: nat, i: Item): (r: seq<Item>)
    ensures |r| == n
  {
    seq(n, _ => i)
  }

  function ExpandLine(line: Line): seq<Item> {
    match line
    case First(_, kind, full) => [Item(kind, full)]
    case Repeated(_, kind, full, n, _) => Times(n, Item(kind, full))
  }

  /** The entries the lines of the file stand for. */
  function Expand(lines: seq<Line>): seq<Item> {
    if lines == [] then [] else Expand(lines[..|lines| - 1]) + ExpandLine(lines[|lines| - 1])
  }

  /** The repeats of the newest entry, which its run's end will write. */
  function OpenRun(ring: seq<Entry>): seq<Item> {
    if ring == [] then []
    else var last := ring[|ring| - 1]; Times(last.repeats, Item(last.kind, last.full))
  }

  /** Everything recorded, in order. */
  function Recorded(es: seq<Event>): (r: seq<Item>)
    ensures |r| == |es|
  {
    if es == [] then []
    else Recorded(es[..|es| - 1]) + [Item(es[|es| - 1].r.kind, es[|es| - 1].r.full)]
  }

  predicate SameRec(a: Rec, b: Rec) {
    a.kind == b.kind && a.full == b.full && a.shown == b.shown && a.detail == b.detail
  }

  /** How many records at the end of `es` are the same. */
  function Run(es: seq<Event>): nat {
    if es == [] then 0
    else if |es| > 1 && SameRec(es[|es| - 2].r, es[|es| - 1].r) then Run(es[..|es| - 1]) + 1
    else 1
  }

  /** No run is longer than its 32-bit counter of repeats can say. */
  ghost predicate RunsFit(es: seq<Event>) {
    forall k :: 0 <= k <= |es| ==> Run(es[..k]) <= U32_MAX + 1
  }

  /** The records that met a full counter. */
  function Uncounted(es: seq<Event>): nat {
    if es == [] then 0 else Uncounted(es[..|es| - 1]) + if Run(es) <= U32_MAX + 1 then 0 else 1
  }

  lemma {:induction false} UncountedIffTooLong(es: seq<Event>)
    ensures Uncounted(es) == 0 <==> RunsFit(es)
  {
    if es != [] {
      var p := es[..|es| - 1];
      UncountedIffTooLong(p);
      assert es[..|es|] == es;
      assert forall k :: 0 <= k <= |p| ==> p[..k] == es[..k];
      if RunsFit(p) && Run(es) <= U32_MAX + 1 {
        forall k | 0 <= k <= |es|
          ensures Run(es[..k]) <= U32_MAX + 1
        {
          assert k <= |p| ==> es[..k] == p[..k];
        }
      }
    }
  }

  lemma ExpandAppend(lines: seq<Line>, line: Line)
    ensures Expand(lines + [line]) == Expand(lines) + ExpandLine(line)
  {
    assert (lines + [line])[..|lines|] == lines;
  }

  /** What ties the log that never lets go to what was recorded. */
  ghost predicate Faithful(s: State, es: seq<Event>) {
    && (s.fileOn ==>
          && (s.ring == [] <==> es == [])
          && (es != [] ==>
                && SameRun(s.ring[|s.ring| - 1], es[|es| - 1].r)
                && s.ring[|s.ring| - 1].repeats == Min(Run(es) - 1, U32_MAX))
          && |Expand(s.lines)| + |OpenRun(s.ring)| + Uncounted(es) == |es|
          && (Uncounted(es) == 0 ==> Expand(s.lines) + OpenRun(s.ring) == Recorded(es)))
    && (Uncounted(es) == 0 ==> Expand(s.lines) <= Recorded(es))
  }

  /** Ending the open run moves it into the file. */
  lemma EndRunWrites(s: State)
    requires s.fileOn
    ensures var s' := EndRun(false, s, Fine);
      s'.fileOn && s'.ring == s.ring && Expand(s'.lines) == Expand(s.lines) + OpenRun(s.ring)
  {
    if s.ring != [] && s.ring[|s.ring| - 1].repeats != 0 {
      var last := s.ring[|s.ring| - 1];
      var line := Repeated(last.at, last.kind, last.full, last.repeats, last.since);
      ExpandAppend(s.lines, line);
      assert ExpandLine(line) == OpenRun(s.ring);
    }
  }

  lemma RunAtLeastOne(es: seq<Event>)
    ensures es != [] ==> 1 <= Run(es)
  {
  }

  /** A record of the run under way makes it longer by one. */
  lemma LongerRun(s: State, p: seq<Event>, e: Event)
    requires Faithful(s, p) && s.fileOn && s.ring != [] && SameRun(s.ring[|s.ring| - 1], e.r)
    ensures Run(p + [e]) == Run(p) + 1 && 1 <= Run(p)
    ensures Uncounted(p + [e]) == Uncounted(p) + if s.ring[|s.ring| - 1].repeats < U32_MAX then 0 else 1
    ensures Recorded(p + [e]) == Recorded(p) + [Item(e.r.kind, e.r.full)]
  {
    assert (p + [e])[..|p|] == p;
    RunAtLeastOne(p);
  }

  lemma LongerOpenRun(ring: seq<Entry>, at: int)
    requires ring != [] && ring[|ring| - 1].repeats < U32_MAX
    ensures var last := ring[|ring| - 1]; OpenRun(Fold(ring, at)) == OpenRun(ring) + [Item(last.kind, last.full)]
  {
  }

  lemma FoldFaithful(s: State, p: seq<Event>, e: Event)
    requires Faithful(s, p) && s.fileOn && s.ring != [] && SameRun(s.ring[|s.ring| - 1], e.r)
    ensures Faithful(s.(ring := Fold(s.ring, e.r.at)), p + [e])
  {
    var last := s.ring[|s.ring| - 1];
    LongerRun(s, p, e);
    if last.repeats < U32_MAX {
      LongerOpenRun(s.ring, e.r.at);
      assert Expand(s.lines) + (OpenRun(s.ring) + [Item(last.kind, last.full)])
          == Expand(s.lines) + OpenRun(s.ring) + [Item(last.kind, last.full)];
    } else {
      assert OpenRun(Fold(s.ring, e.r.at)) == OpenRun(s.ring);
    }
  }

  /** A record that starts a run of its own is counted, whatever the last run was. */
  lemma NewRun(s: State, p: seq<Event>, e: Event)
    requires Faithful(s, p) && s.fileOn && !(s.ring != [] && SameRun(s.ring[|s.ring| - 1], e.r))
    ensures Run(p + [e]) == 1 && Uncounted(p + [e]) == Uncounted(p)
    ensures Recorded(p + [e]) == Recorded(p) + [Item(e.r.kind, e.r.full)]
  {
    assert (p + [e])[..|p|] == p;
  }

  /** The end of the last run and the first line of the new one are both written. */
  lemma WrittenFaithful(s: State, p: seq<Event>, e: Event, s1: State, s': State)
    requires Faithful(s, p) && s.fileOn && !(s.ring != [] && SameRun(s.ring[|s.ring| - 1], e.r))
    requires s1 == EndRun(false, s, Fine)
    requires s'.fileOn && s'.lines == s1.lines + [First(e.r.at, e.r.kind, e.r.full)]
    requires s'.ring != [] && SameRun(s'.ring[|s'.ring| - 1], e.r) && s'.ring[|s'.ring| - 1].repeats == 0
    ensures Faithful(s', p + [e])
  {
    NewRun(s, p, e);
    EndRunWrites(s);
    ExpandAppend(s1.lines, First(e.r.at, e.r.kind, e.r.full));
    assert OpenRun(s'.ring) == [];
    assert Expand(s'.lines) == Expand(s.lines) + OpenRun(s.ring) + [Item(e.r.kind, e.r.full)];
  }

  /** One of the two is lost, and the file is off. */
  lemma LostFaithful(s: State, p: seq<Event>, e: Event, s': State)
    requires Faithful(s, p) && s.fileOn && !(s.ring != [] && SameRun(s.ring[|s.ring| - 1], e.r))
    requires !s'.fileOn && (s'.lines == s.lines || s'.lines == EndRun(false, s, Fine).lines)
    ensures Faithful(s', p + [e])
  {
    NewRun(s, p, e);
    EndRunWrites(s);
  }

  lemma FreshFaithful(s: State, p: seq<Event>, e: Event)
    requires Faithful(s, p) && s.fileOn && !(s.ring != [] && SameRun(s.ring[|s.ring| - 1], e.r))
    ensures Faithful(Record(false, s, e.r, e.ended, e.first), p + [e])
  {
    var s1, s' := EndRun(false, s, e.ended), Record(false, s, e.r, e.ended, e.first);
    if s1.fileOn && e.first.Fine? {
      assert s1 == EndRun(false, s, Fine);
      WrittenFaithful(s, p, e, s1, s');
    } else {
      assert s1.fileOn ==> s1 == EndRun(false, s, Fine);
      LostFaithful(s, p, e, s');
    }
  }

  lemma FileGoneFaithful(s: State, p: seq<Event>, e: Event)
    requires Faithful(s, p) && !s.fileOn
    ensures Faithful(Record(false, s, e.r, e.ended, e.first), p + [e])
  {
    assert (p + [e])[..|p|] == p;
  }

  lemma {:induction false} FaithfulHolds(opening: Wrote, es: seq<Event>)
    ensures Faithful(Exec(false, opening, es), es)
  {
    if es != [] {
      var p, e := es[..|es| - 1], es[|es| - 1];
      FaithfulHolds(opening, p);
      var s := Exec(false, opening, p);
      assert es == p + [e];
      if !s.fileOn {
        FileGoneFaithful(s, p, e);
      } else if s.ring != [] && SameRun(s.ring[|s.ring| - 1], e.r) {
        FoldFaithful(s, p, e);
      } else {
        FreshFaithful(s, p, e);
      }
    }
  }

  /**
   The file is a run-length encoding of what was recorded. While no write has failed, its
   lines and the open run together expand to exactly the recorded sequence -- and once the log
   is dropped the lines alone do, however much the ring has let go of -- if and only if no run
   outgrew its 32-bit counter. Where a write has failed and no run did, the lines are still a prefix.
   */
  lemma FileLossless(opening: Wrote, es: seq<Event>)
    ensures var s := Exec(true, opening, es);
      && (s.fileOn ==> (Expand(s.lines) + OpenRun(s.ring) == Recorded(es) <==> RunsFit(es)))
      && (s.fileOn ==> (Expand(EndRun(true, s, Fine).lines) == Recorded(es) <==> RunsFit(es)))
      && (RunsFit(es) ==> Expand(s.lines) <= Recorded(es))
  {
    var u, s := Exec(false, opening, es), Exec(true, opening, es);
    FaithfulHolds(opening, es);
    UncountedIffTooLong(es);
    RingClosedForm(opening, es);
    if u.ring != [] {
      NewestKept(u.ring);
    }
    assert OpenRun(s.ring) == OpenRun(u.ring);
    if u.fileOn {
      EndRunWrites(u);
      assert EndRun(true, s, Fine).lines == EndRun(false, u, Fine).lines;
    }
  }

  ghost predicate NoWriteFails(opening: Wrote, es: seq<Event>) {
    opening.Fine? && forall i :: 0 <= i < |es| ==> es[i].ended.Fine? && es[i].first.Fine?
  }

  /** The file stays on for as long as its writes do not fail. */
  lemma {:induction false} FileStaysOn(opening: Wrote, es: seq<Event>)
    requires NoWriteFails(opening, es)
    ensures Exec(true, opening, es).fileOn
  {
    if es != [] {
      FileStaysOn(opening, es[..|es| - 1]);
    }
  }
}
