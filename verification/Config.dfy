/**
 The layered settings and their live edits (src/config.rs): built-in default, top-level section,
 host section; edits on the screen that are applied at once and saved later; and the one rule
 over all of it, that the popup can always be opened. What the file says is taken as arbitrary
 layers: parsing and writing it are not modelled.
 */
module Config {
  import opened Options

  const SECOND := 1_000_000_000

  datatype Settings = Settings(
    popupKey: Option<nat>, autoOpenAfter: Option<nat>, linger: nat, splash: bool,
    silentAfter: nat, rebuildAfter: nat, connectTimeout: nat,
    standby: bool, stunServers: seq<string>, portMapping: bool, birthday: bool, clipboard: bool, hyperlinks: bool)
  {
    predicate Unreachable() { popupKey.None? && autoOpenAfter.None? }
  }

  const DEFAULTS := Settings(
    Some(0x1c), Some(2 * SECOND), 3 * SECOND, true,
    2 * SECOND, 20 * SECOND, 10 * SECOND,
    true, ["stun.cloudflare.com:3478", "stun.l.google.com:19302", "stun.nextcloud.com:443", "stun.sipgate.net:3478"],
    true, true, true, true)

  datatype Value = Bool(b: bool) | Duration(d: Option<nat>) | Key(k: Option<nat>) | List(l: seq<string>)

  // ---------------------------------------------------------------- the table

  const ROWS := 13
  const POPUP_KEY := 0
  const AUTO_OPEN := 1

  function Get(i: nat, s: Settings): Value
    requires i < ROWS
  {
    match i
    case 0 => Key(s.popupKey)
    case 1 => Duration(s.autoOpenAfter)
    case 2 => Duration(Some(s.linger))
    case 3 => Bool(s.splash)
    case 4 => Duration(Some(s.silentAfter))
    case 5 => Duration(Some(s.rebuildAfter))
    case 6 => Duration(Some(s.connectTimeout))
    case 7 => Bool(s.standby)
    case 8 => List(s.stunServers)
    case 9 => Bool(s.portMapping)
    case 10 => Bool(s.birthday)
    case 11 => Bool(s.clipboard)
    case _ => Bool(s.hyperlinks)
  }

  /** A value of another kind than the row's changes nothing. */
  function Put(i: nat, s: Settings, v: Value): Settings
    requires i < ROWS
  {
    match i
    case 0 => if v.Key? then s.(popupKey := v.k) else s
    case 1 => if v.Duration? then s.(autoOpenAfter := v.d) else s
    case 2 => if v.Duration? && v.d.Some? then s.(linger := v.d.value) else s
    case 3 => if v.Bool? then s.(splash := v.b) else s
    case 4 => if v.Duration? && v.d.Some? then s.(silentAfter := v.d.value) else s
    case 5 => if v.Duration? && v.d.Some? then s.(rebuildAfter := v.d.value) else s
    case 6 => if v.Duration? && v.d.Some? then s.(connectTimeout := v.d.value) else s
    case 7 => if v.Bool? then s.(standby := v.b) else s
    case 8 => if v.List? then s.(stunServers := v.l) else s
    case 9 => if v.Bool? then s.(portMapping := v.b) else s
    case 10 => if v.Bool? then s.(birthday := v.b) else s
    case 11 => if v.Bool? then s.(clipboard := v.b) else s
    case _ => if v.Bool? then s.(hyperlinks := v.b) else s
  }

  /** `v` is of row `i`'s kind, as every parser of a row's values makes sure. */
  predicate Fits(i: nat, v: Value)
    requires i < ROWS
  {
    match i
    case 0 => v.Key?
    case 1 => v.Duration?
    case 2 => v.Duration? && v.d.Some?
    case 4 => v.Duration? && v.d.Some?
    case 5 => v.Duration? && v.d.Some?
    case 6 => v.Duration? && v.d.Some?
    case 8 => v.List?
    case _ => v.Bool?
  }

  lemma PutGetSame(i: nat, s: Settings, v: Value)
    requires i < ROWS
    ensures Get(i, Put(i, s, v)) == if Fits(i, v) then v else Get(i, s)
    ensures !Fits(i, v) ==> Put(i, s, v) == s
    ensures Fits(i, Get(i, s))
  {
  }

  /** Nothing but row `i`'s own field changes. */
  ghost predicate OthersKept(i: nat, s: Settings, s': Settings) {
    && (i != 0 ==> s'.popupKey == s.popupKey)
    && (i != 1 ==> s'.autoOpenAfter == s.autoOpenAfter)
    && (i != 2 ==> s'.linger == s.linger)
    && (i != 3 ==> s'.splash == s.splash)
    && (i != 4 ==> s'.silentAfter == s.silentAfter)
    && (i != 5 ==> s'.rebuildAfter == s.rebuildAfter)
    && (i != 6 ==> s'.connectTimeout == s.connectTimeout)
    && (i != 7 ==> s'.standby == s.standby)
    && (i != 8 ==> s'.stunServers == s.stunServers)
    && (i != 9 ==> s'.portMapping == s.portMapping)
    && (i != 10 ==> s'.birthday == s.birthday)
    && (i != 11 ==> s'.clipboard == s.clipboard)
    && (i != 12 ==> s'.hyperlinks == s.hyperlinks)
  }

  lemma PutKeepsOthersLow(i: nat, s: Settings, v: Value)
    requires i < 4 && Fits(i, v)
    ensures OthersKept(i, s, Put(i, s, v))
  {
    match i
    case 0 => assert Put(i, s, v) == s.(popupKey := v.k);
    case 1 => assert Put(i, s, v) == s.(autoOpenAfter := v.d);
    case 2 => assert Put(i, s, v) == s.(linger := v.d.value);
    case 3 => assert Put(i, s, v) == s.(splash := v.b);
  }

  lemma PutKeepsOthersMid(i: nat, s: Settings, v: Value)
    requires 4 <= i < 8 && Fits(i, v)
    ensures OthersKept(i, s, Put(i, s, v))
  {
    match i
    case 4 => assert Put(i, s, v) == s.(silentAfter := v.d.value);
    case 5 => assert Put(i, s, v) == s.(rebuildAfter := v.d.value);
    case 6 => assert Put(i, s, v) == s.(connectTimeout := v.d.value);
    case 7 => assert Put(i, s, v) == s.(standby := v.b);
  }

  lemma PutKeepsOthersHigh(i: nat, s: Settings, v: Value)
    requires 8 <= i < ROWS && Fits(i, v)
    ensures OthersKept(i, s, Put(i, s, v))
  {
    match i
    case 8 => assert Put(i, s, v) == s.(stunServers := v.l);
    case 9 => assert Put(i, s, v) == s.(portMapping := v.b);
    case 10 => assert Put(i, s, v) == s.(birthday := v.b);
    case 11 => assert Put(i, s, v) == s.(clipboard := v.b);
    case 12 => assert Put(i, s, v) == s.(hyperlinks := v.b);
  }

  lemma PutKeepsOthers(i: nat, s: Settings, v: Value)
    requires i < ROWS
    ensures OthersKept(i, s, Put(i, s, v))
  {
    if !Fits(i, v) {
      PutGetSame(i, s, v);
    } else if i < 4 {
      PutKeepsOthersLow(i, s, v);
    } else if i < 8 {
      PutKeepsOthersMid(i, s, v);
    } else {
      PutKeepsOthersHigh(i, s, v);
    }
  }

  lemma GetOfOthers(i: nat, j: nat, s: Settings, s': Settings)
    requires i < ROWS && j < ROWS && i != j && OthersKept(i, s, s')
    ensures Get(j, s') == Get(j, s)
  {
  }

  /** A row takes any value that fits it, and only that row changes. */
  lemma PutGet(i: nat, j: nat, s: Settings, v: Value)
    requires i < ROWS && j < ROWS
    ensures Get(j, Put(i, s, v)) == if i == j && Fits(i, v) then v else Get(j, s)
  {
    if i == j {
      PutGetSame(i, s, v);
    } else {
      PutKeepsOthers(i, s, v);
      GetOfOthers(i, j, s, Put(i, s, v));
    }
  }

  // ---------------------------------------------------------------- layers

  datatype Level = Global | Host

  datatype Origin = FromDefault | FromGlobal | FromHost
  {
    function AsLevel(): Option<Level> {
      match this
      case FromDefault => None
      case FromGlobal => Some(Global)
      case FromHost => Some(Host)
    }
  }

  datatype KeyLayers = KeyLayers(default: Value, global: Option<Value>, host: Option<Value>)
  {
    function Winner(): (Origin, Value) {
      if host.Some? then (FromHost, host.value)
      else if global.Some? then (FromGlobal, global.value)
      else (FromDefault, default)
    }

    function Without(level: Level): (Origin, Value) {
      if level.Global? && host.Some? then (FromHost, host.value)
      else if level.Host? && global.Some? then (FromGlobal, global.value)
      else (FromDefault, default)
    }

    function Clear(level: Level): KeyLayers {
      match level
      case Global => this.(global := None)
      case Host => this.(host := None)
    }

    function Written(): nat {
      (if global.Some? then 1 else 0) + (if host.Some? then 1 else 0)
    }
  }

  type Layers = l: seq<KeyLayers> | |l| == ROWS witness seq(ROWS, _ => KeyLayers(Bool(false), None, None))

  datatype Edit = Set(v: Value) | Remove(level: Level)

  type Pending = map<nat, Edit>

  function ShownWith(l: KeyLayers, edit: Option<Edit>): Value {
    match edit
    case Some(Set(v)) => v
    case Some(Remove(level)) => l.Without(level).1
    case None => l.Winner().1
  }

  function EditOf(pending: Pending, i: nat): Option<Edit> {
    if i in pending then Some(pending[i]) else None
  }

  /** The settings after the first `n` rows are in effect. */
  function InEffectTo(layers: Layers, pending: Pending, n: nat): Settings
    requires n <= ROWS
  {
    if n == 0 then DEFAULTS
    else Put(n - 1, InEffectTo(layers, pending, n - 1), ShownWith(layers[n - 1], EditOf(pending, n - 1)))
  }

  function InEffect(layers: Layers, pending: Pending): Settings {
    InEffectTo(layers, pending, ROWS)
  }

  method InEffectNow(layers: Layers, pending: Pending) returns (s: Settings)
    ensures s == InEffect(layers, pending)
  {
    s := DEFAULTS;
    for i := 0 to ROWS
      invariant s == InEffectTo(layers, pending, i)
    {
      s := Put(i, s, ShownWith(layers[i], EditOf(pending, i)));
    }
  }

  lemma {:induction false} InEffectToRow(layers: Layers, pending: Pending, n: nat, i: nat)
    requires n <= ROWS && i < ROWS
    ensures var v := ShownWith(layers[i], EditOf(pending, i));
      Get(i, InEffectTo(layers, pending, n)) == if i < n && Fits(i, v) then v else Get(i, DEFAULTS)
  {
    if n > 0 {
      InEffectToRow(layers, pending, n - 1, i);
      PutGet(n - 1, i, InEffectTo(layers, pending, n - 1), ShownWith(layers[n - 1], EditOf(pending, n - 1)));
    }
  }

  /** Every row is in effect as it is shown, and by itself: no row depends on another. */
  lemma InEffectRow(layers: Layers, pending: Pending, i: nat)
    requires i < ROWS
    ensures var v := ShownWith(layers[i], EditOf(pending, i));
      Get(i, InEffect(layers, pending)) == if Fits(i, v) then v else Get(i, DEFAULTS)
  {
    InEffectToRow(layers, pending, ROWS, i);
  }

  // ---------------------------------------------------------------- the fallback

  /** auto_open_after falls back a layer until the popup can be reached. */
  function Fallback(layers: Layers): (r: Layers)
    decreases layers[AUTO_OPEN].Written()
  {
    var level := layers[AUTO_OPEN].Winner().0.AsLevel();
    if InEffect(layers, map[]).Unreachable() && level.Some?
    then Fallback(layers[AUTO_OPEN := layers[AUTO_OPEN].Clear(level.value)])
    else layers
  }

  method KeepReachable(layers: Layers) returns (kept: Layers, warnings: nat)
    ensures kept == Fallback(layers)
    ensures warnings == layers[AUTO_OPEN].Written() - kept[AUTO_OPEN].Written()
  {
    kept, warnings := layers, 0;
    while true
      invariant Fallback(kept) == Fallback(layers)
      invariant warnings == layers[AUTO_OPEN].Written() - kept[AUTO_OPEN].Written()
      decreases kept[AUTO_OPEN].Written()
    {
      var s := InEffectNow(kept, map[]);
      if !s.Unreachable() {
        return;
      }
      var level := kept[AUTO_OPEN].Winner().0.AsLevel();
      if level.None? {
        return;
      }
      kept := kept[AUTO_OPEN := kept[AUTO_OPEN].Clear(level.value)];
      warnings := warnings + 1;
    }
  }

  lemma {:induction false} FallbackFrame(layers: Layers)
    ensures var r := Fallback(layers);
      && (forall i :: 0 <= i < ROWS && i != AUTO_OPEN ==> r[i] == layers[i])
      && r[AUTO_OPEN].default == layers[AUTO_OPEN].default
      && (r[AUTO_OPEN].global.Some? ==> r[AUTO_OPEN].global == layers[AUTO_OPEN].global)
      && (r[AUTO_OPEN].host.Some? ==> r[AUTO_OPEN].host == layers[AUTO_OPEN].host)
      && (InEffect(r, map[]).Unreachable() ==> r[AUTO_OPEN].Winner().0 == FromDefault)
    decreases layers[AUTO_OPEN].Written()
  {
    var level := layers[AUTO_OPEN].Winner().0.AsLevel();
    if InEffect(layers, map[]).Unreachable() && level.Some? {
      FallbackFrame(layers[AUTO_OPEN := layers[AUTO_OPEN].Clear(level.value)]);
    }
  }

  /** The default opens the popup, so the fallback always ends reachable; it drops no other key. */
  lemma FallbackIsReachable(layers: Layers)
    requires layers[AUTO_OPEN].default == Get(AUTO_OPEN, DEFAULTS)
    ensures !InEffect(Fallback(layers), map[]).Unreachable()
    ensures forall i :: 0 <= i < ROWS && i != AUTO_OPEN ==> Fallback(layers)[i] == layers[i]
    ensures !InEffect(layers, map[]).Unreachable() ==> Fallback(layers) == layers
  {
    FallbackFrame(layers);
    InEffectRow(Fallback(layers), map[], AUTO_OPEN);
  }

  /** What a file says for one row: its global and its host value. */
  type FileText = f: seq<(Option<Value>, Option<Value>)> | |f| == ROWS witness seq(ROWS, _ => (None, None))

  function Resolve(f: FileText): Layers {
    Fallback(seq(ROWS, i requires 0 <= i < ROWS => KeyLayers(Get(i, DEFAULTS), f[i].0, f[i].1)))
  }

  lemma ResolvedIsReachable(f: FileText)
    ensures !InEffect(Resolve(f), map[]).Unreachable()
    ensures forall i :: 0 <= i < ROWS ==> Resolve(f)[i].default == Get(i, DEFAULTS)
  {
    var l := seq(ROWS, i requires 0 <= i < ROWS => KeyLayers(Get(i, DEFAULTS), f[i].0, f[i].1));
    FallbackIsReachable(l);
    FallbackFrame(l);
  }

  // ---------------------------------------------------------------- the live configuration

  datatype State = State(layers: Layers, pending: Pending, applied: Settings)

  /** A refusal leaves everything as it was. */
  datatype Answer = Now(s: Settings) | Refused

  function Start(f: FileText): State {
    State(Resolve(f), map[], InEffect(Resolve(f), map[]))
  }

  function Commit(st: State, i: nat, next: Pending): (State, Answer)
    requires i < ROWS
  {
    var s := Put(i, st.applied, ShownWith(st.layers[i], EditOf(next, i)));
    if s.Unreachable() || InEffect(st.layers, next).Unreachable() then (st, Refused)
    else (st.(pending := next, applied := s), Now(s))
  }

  function SetRow(st: State, i: nat, v: Value): (State, Answer)
    requires i < ROWS
  {
    Commit(st, i, if st.layers[i].Winner().1 == v then st.pending - {i} else st.pending[i := Set(v)])
  }

  function ResetRow(st: State, i: nat): (State, Answer)
    requires i < ROWS
  {
    if i in st.pending then Commit(st, i, st.pending - {i})
    else match st.layers[i].Winner().0.AsLevel()
      case None => (st, Refused)
      case Some(level) => Commit(st, i, st.pending[i := Remove(level)])
  }

  /** `written` is what the file says once the edits are in it, or `None` where the save failed. */
  function Save(st: State, written: Option<FileText>): State {
    if st.pending == map[] || written.None? then st
    else st.(layers := Resolve(written.value), pending := map[])
  }

  class ConfigState {
    var layers: Layers
    var pending: Pending
    var applied: Settings

    ghost function View(): State
      reads this
    {
      State(layers, pending, applied)
    }

    constructor (resolved: Layers)
      ensures View() == State(resolved, map[], InEffect(resolved, map[]))
    {
      layers, pending := resolved, map[];
      applied := InEffect(resolved, map[]);
    }

    method CommitRow(i: nat, next: Pending) returns (a: Answer)
      requires i < ROWS
      modifies this
      ensures (View(), a) == Commit(old(View()), i, next)
    {
      var s := Put(i, applied, ShownWith(layers[i], EditOf(next, i)));
      var shown := InEffectNow(layers, next);
      if s.Unreachable() || shown.Unreachable() {
        return Refused;
      }
      pending := next;
      applied := s;
      return Now(s);
    }

    method SetValue(i: nat, v: Value) returns (a: Answer)
      requires i < ROWS
      modifies this
      ensures (View(), a) == SetRow(old(View()), i, v)
    {
      var next := pending;
      if layers[i].Winner().1 == v {
        next := next - {i};
      } else {
        next := next[i := Set(v)];
      }
      a := CommitRow(i, next);
    }

    method Reset(i: nat) returns (a: Answer)
      requires i < ROWS
      modifies this
      ensures (View(), a) == ResetRow(old(View()), i)
    {
      var next := pending;
      if i in next {
        next := next - {i};
      } else {
        var level := layers[i].Winner().0.AsLevel();
        if level.None? {
          return Refused;
        }
        next := next[i := Remove(level.value)];
      }
      a := CommitRow(i, next);
    }

    method SaveEdits(written: Option<FileText>)
      modifies this
      ensures View() == Save(old(View()), written)
    {
      if pending == map[] || written.None? {
        return;
      }
      layers, pending := Resolve(written.value), map[];
    }
  }

  // ---------------------------------------------------------------- runs

  datatype Event = DoSet(i: nat, v: Value) | DoReset(i: nat) | DoSave(written: Option<FileText>)

  function Next(st: State, e: Event): State {
    match e
    case DoSet(i, v) => if i < ROWS then SetRow(st, i, v).0 else st
    case DoReset(i) => if i < ROWS then ResetRow(st, i).0 else st
    case DoSave(written) => Save(st, written)
  }

  ghost function Exec(f: FileText, es: seq<Event>): State {
    if es == [] then Start(f) else Next(Exec(f, es[..|es| - 1]), es[|es| - 1])
  }

  /** An edit changes something: a new value is not the one it overrides, a removal is of the winner. */
  ghost predicate Meant(l: KeyLayers, edit: Edit) {
    match edit
    case Set(v) => v != l.Winner().1
    case Remove(level) => l.Winner().0.AsLevel() == Some(level)
  }

  ghost predicate Inv(st: State) {
    && !st.applied.Unreachable()
    && !InEffect(st.layers, st.pending).Unreachable()
    && (forall i :: i in st.pending ==> i < ROWS && Meant(st.layers[i], st.pending[i]))
  }

  lemma NextKeepsInv(st: State, e: Event)
    requires Inv(st)
    ensures Inv(Next(st, e))
  {
    match e
    case DoSet(i, v) =>
    case DoReset(i) =>
    case DoSave(written) =>
      if written.Some? {
        ResolvedIsReachable(written.value);
      }
  }

  /**
   Whatever is edited, reset and saved, in any order, and whatever the file turns out to say: the
   popup can be opened both with the settings the session runs with and with the ones the screen
   shows and the next save writes; no unsaved value is the one it overrides, and every unsaved removal
   is of the layer in effect.
   */
  lemma {:induction false} AlwaysReachable(f: FileText, es: seq<Event>)
    ensures Inv(Exec(f, es))
    ensures var st := Exec(f, es); var shown := InEffect(st.layers, st.pending);
      && (st.applied.popupKey.Some? || st.applied.autoOpenAfter.Some?)
      && (shown.popupKey.Some? || shown.autoOpenAfter.Some?)
  {
    if es == [] {
      ResolvedIsReachable(f);
    } else {
      AlwaysReachable(f, es[..|es| - 1]);
      NextKeepsInv(Exec(f, es[..|es| - 1]), es[|es| - 1]);
    }
  }

  /**
   What an unsaved edit shows differs from what the file says if and only if it is a new value, or a
   removal that uncovers another one: the layer below may well say the same.
   */
  lemma EditShowsSomethingNewIff(f: FileText, es: seq<Event>, i: nat)
    requires i in Exec(f, es).pending
    ensures var st := Exec(f, es);
      && i < ROWS
      && var l := st.layers[i];
         ShownWith(l, Some(st.pending[i])) != l.Winner().1 <==>
           match st.pending[i]
           case Set(_) => true
           case Remove(Host) => l.host != Some(if l.global.Some? then l.global.value else l.default)
           case Remove(Global) => l.global != Some(l.default)
  {
    AlwaysReachable(f, es);
    assert Meant(Exec(f, es).layers[i], Exec(f, es).pending[i]);
  }

  /** Such a removal: of a value the layer below it has too. It is pending and shows what was shown. */
  lemma RemovalCanShowNothingNew(f: FileText, i: nat, v: Value)
    requires i < ROWS && i != POPUP_KEY && i != AUTO_OPEN && f[i] == (Some(v), Some(v))
    ensures var st := Exec(f, [DoReset(i)]);
      st.pending == map[i := Remove(Host)] && ShownWith(st.layers[i], Some(Remove(Host))) == st.layers[i].Winner().1
  {
    var st := Start(f);
    AlwaysReachable(f, []);
    ResolvedRow(f, i);
    assert [DoReset(i)][..0] == [];
    OnlyThePopupRowsAreRefused(st, i, map[i := Remove(Host)]);
  }

  /** The row an event is about. */
  function RowOf(e: Event): Option<nat> {
    match e
    case DoSet(i, _) => Some(i)
    case DoReset(i) => Some(i)
    case DoSave(_) => None
  }

  /** An edit changes at most its own row of what is applied, a refusal nothing, a save no row. */
  lemma OneRowAtATime(st: State, e: Event, j: nat)
    requires j < ROWS
    ensures RowOf(e) != Some(j) ==> Get(j, Next(st, e).applied) == Get(j, st.applied)
    ensures RowOf(e).None? ==> Next(st, e).applied == st.applied
    ensures RowOf(e) == Some(j) && e.DoReset? && ResetRow(st, j).1.Refused? ==> Next(st, e) == st
    ensures RowOf(e) == Some(j) && e.DoSet? && SetRow(st, j, e.v).1.Refused? ==> Next(st, e) == st
  {
    if RowOf(e).Some? && RowOf(e).value < ROWS && RowOf(e) != Some(j) {
      var i := RowOf(e).value;
      var next := Next(st, e).pending;
      PutGet(i, j, st.applied, ShownWith(st.layers[i], EditOf(next, i)));
    }
  }

  // ---------------------------------------------------------------- what is edited is what runs

  ghost predicate FileFits(f: FileText) {
    forall i :: 0 <= i < ROWS ==>
      (f[i].0.Some? ==> Fits(i, f[i].0.value)) && (f[i].1.Some? ==> Fits(i, f[i].1.value))
  }

  ghost predicate LayersFit(layers: Layers) {
    forall i :: 0 <= i < ROWS ==>
      && Fits(i, layers[i].default)
      && (layers[i].global.Some? ==> Fits(i, layers[i].global.value))
      && (layers[i].host.Some? ==> Fits(i, layers[i].host.value))
  }

  /** Values come from the parsers, so they are of their row's kind. */
  ghost predicate EventFits(e: Event) {
    match e
    case DoSet(i, v) => i < ROWS ==> Fits(i, v)
    case DoReset(_) => true
    case DoSave(written) => written.Some? ==> FileFits(written.value)
  }

  ghost predicate Applied(st: State) {
    && LayersFit(st.layers)
    && (forall i :: i in st.pending ==> i < ROWS && Get(i, st.applied) == ShownWith(st.layers[i], Some(st.pending[i])))
  }

  lemma ResolvedFits(f: FileText)
    requires FileFits(f)
    ensures LayersFit(Resolve(f))
  {
    var l := seq(ROWS, i requires 0 <= i < ROWS => KeyLayers(Get(i, DEFAULTS), f[i].0, f[i].1));
    forall i | 0 <= i < ROWS
      ensures Fits(i, l[i].default)
    {
      PutGetSame(i, DEFAULTS, Bool(true));
    }
    FallbackFrame(l);
  }

  lemma CommitKeepsApplied(st: State, i: nat, next: Pending)
    requires Applied(st) && i < ROWS
    requires forall j :: j in next && j != i ==> j in st.pending && next[j] == st.pending[j]
    requires i in next && next[i].Set? ==> Fits(i, next[i].v)
    ensures Applied(Commit(st, i, next).0)
  {
    var v := ShownWith(st.layers[i], EditOf(next, i));
    PutGetSame(i, st.applied, v);
    forall j | j in next && j != i
      ensures Get(j, Put(i, st.applied, v)) == Get(j, st.applied)
    {
      PutGet(i, j, st.applied, v);
    }
  }

  lemma NextKeepsApplied(st: State, e: Event)
    requires Applied(st) && EventFits(e)
    ensures Applied(Next(st, e))
  {
    match e
    case DoSet(i, v) =>
      if i < ROWS {
        CommitKeepsApplied(st, i, if st.layers[i].Winner().1 == v then st.pending - {i} else st.pending[i := Set(v)]);
      }
    case DoReset(i) =>
      if i < ROWS {
        if i in st.pending {
          CommitKeepsApplied(st, i, st.pending - {i});
        } else if st.layers[i].Winner().0.AsLevel().Some? {
          CommitKeepsApplied(st, i, st.pending[i := Remove(st.layers[i].Winner().0.AsLevel().value)]);
        }
      }
    case DoSave(written) =>
      if written.Some? {
        ResolvedFits(written.value);
      }
  }

  /** Every unsaved edit is in effect: the session runs with what the screen shows for its row. */
  lemma {:induction false} EditsAreApplied(f: FileText, es: seq<Event>)
    requires FileFits(f) && forall k :: 0 <= k < |es| ==> EventFits(es[k])
    ensures Applied(Exec(f, es))
  {
    if es == [] {
      ResolvedFits(f);
    } else {
      EditsAreApplied(f, es[..|es| - 1]);
      NextKeepsApplied(Exec(f, es[..|es| - 1]), es[|es| - 1]);
    }
  }

  // ---------------------------------------------------------------- what a reset undoes

  /** Every change to a row other than the popup's own two is taken. */
  lemma OnlyThePopupRowsAreRefused(st: State, i: nat, next: Pending)
    requires Inv(st) && i < ROWS && i != POPUP_KEY && i != AUTO_OPEN
    requires forall j :: 0 <= j < ROWS && j != i ==> EditOf(next, j) == EditOf(st.pending, j)
    ensures Commit(st, i, next).1.Now? && Commit(st, i, next).0.pending == next
  {
    PutKeepsOthers(i, st.applied, ShownWith(st.layers[i], EditOf(next, i)));
    InEffectRow(st.layers, next, POPUP_KEY);
    InEffectRow(st.layers, next, AUTO_OPEN);
    InEffectRow(st.layers, st.pending, POPUP_KEY);
    InEffectRow(st.layers, st.pending, AUTO_OPEN);
  }

  lemma SameSettings(i: nat, s: Settings, s': Settings)
    requires i < ROWS && OthersKept(i, s, s') && Get(i, s') == Get(i, s)
    ensures s' == s
  {
  }

  /** Putting a row's value back restores the settings. */
  lemma PutBack(i: nat, s: Settings, v: Value)
    requires i < ROWS
    ensures Put(i, Put(i, s, v), Get(i, s)) == s
  {
    var s1 := Put(i, s, v);
    PutKeepsOthers(i, s, v);
    PutKeepsOthers(i, s1, Get(i, s));
    PutGetSame(i, s1, Get(i, s));
    PutGetSame(i, s, v);
    SameSettings(i, s, Put(i, s1, Get(i, s)));
  }

  /** No key and no time: the popup does not open by this row. */
  predicate IsOff(v: Value) {
    v == Key(None) || v == Duration(None)
  }

  /** With `v` in row `i`, the popup would not open by either of its two rows, as applied or as shown. */
  predicate Locks(st: State, i: nat, v: Value) {
    (i == POPUP_KEY || i == AUTO_OPEN) && IsOff(v) &&
    var other := if i == POPUP_KEY then AUTO_OPEN else POPUP_KEY;
    IsOff(Get(other, st.applied)) || IsOff(ShownWith(st.layers[other], EditOf(st.pending, other)))
  }

  /** What a row shows once it is reset, and `None` where there is nothing to reset. */
  function Uncovers(st: State, i: nat): Option<Value>
    requires i < ROWS
  {
    var l := st.layers[i];
    if i in st.pending then Some(l.Winner().1)
    else match l.Winner().0.AsLevel()
      case None => None
      case Some(level) => Some(l.Without(level).1)
  }

  lemma ShownFits(st: State, i: nat)
    requires Applied(st) && i < ROWS
    ensures Fits(i, ShownWith(st.layers[i], EditOf(st.pending, i)))
  {
    PutGetSame(i, st.applied, Bool(true));
  }

  /** A change of row `i` is refused exactly where what the row would show locks the popup away. */
  lemma RefusedExactly(st: State, i: nat, next: Pending)
    requires Inv(st) && Applied(st) && i < ROWS && Fits(i, ShownWith(st.layers[i], EditOf(next, i)))
    requires forall j :: 0 <= j < ROWS && j != i ==> EditOf(next, j) == EditOf(st.pending, j)
    ensures Commit(st, i, next).1.Refused? <==> Locks(st, i, ShownWith(st.layers[i], EditOf(next, i)))
  {
    if i == POPUP_KEY || i == AUTO_OPEN {
      var v, other := ShownWith(st.layers[i], EditOf(next, i)), if i == POPUP_KEY then AUTO_OPEN else POPUP_KEY;
      ShownFits(st, other);
      PutGet(i, i, st.applied, v);
      PutGet(i, other, st.applied, v);
      InEffectRow(st.layers, next, i);
      InEffectRow(st.layers, next, other);
    } else {
      OnlyThePopupRowsAreRefused(st, i, next);
    }
  }

  /** So a reset is refused where there is nothing to reset, or what it uncovers locks the popup away. */
  lemma ResetRefusedExactly(st: State, i: nat)
    requires Inv(st) && Applied(st) && i < ROWS
    ensures ResetRow(st, i).1.Refused? <==> Uncovers(st, i).None? || Locks(st, i, Uncovers(st, i).value)
  {
    if i in st.pending {
      RefusedExactly(st, i, st.pending - {i});
    } else if Uncovers(st, i).Some? {
      RefusedExactly(st, i, st.pending[i := Remove(st.layers[i].Winner().0.AsLevel().value)]);
    }
  }

  /**
   When an accepted set and the reset after it bring `st` back. With no unsaved edit on the row: where
   the session ran with what the screen showed, and the value was new, or there was nothing to reset or
   resetting would lock the popup away. With one: where it was a removal and the set took it back; or
   where it was this very value and resetting would lock the popup away.
   */
  predicate RoundTrips(st: State, i: nat, v: Value)
    requires i < ROWS
  {
    var w, stuck := st.layers[i].Winner().1, Uncovers(st, i).None? || Locks(st, i, Uncovers(st, i).value);
    if i !in st.pending then Get(i, st.applied) == w && (v != w || stuck)
    else if v == w then st.pending[i].Remove?
    else st.pending[i] == Set(v) && stuck
  }

  /** A set to what the screen shows is no edit. */
  lemma ShownRoundTrips(st: State, i: nat)
    requires Inv(st) && Applied(st) && i < ROWS && i !in st.pending
    requires SetRow(st, i, st.layers[i].Winner().1).1.Now?
    ensures var w := st.layers[i].Winner().1;
      ResetRow(SetRow(st, i, w).0, i).0 == st <==> RoundTrips(st, i, w)
  {
    var w := st.layers[i].Winner().1;
    var st1 := SetRow(st, i, w).0;
    assert st.pending - {i} == st.pending;
    PutGetSame(i, st.applied, w);
    if Get(i, st.applied) == w {
      PutSame(i, st.applied);
      assert st1 == st;
      ResetRefusedExactly(st, i);
    } else {
      assert Get(i, st1.applied) == w;
      ResetChanges(st1, i);
    }
  }

  /** A reset of a row with no edit leaves one pending, or changes nothing. */
  lemma ResetChanges(st: State, i: nat)
    requires i < ROWS && i !in st.pending
    ensures i in ResetRow(st, i).0.pending || ResetRow(st, i).0 == st
  {
  }

  lemma NewRoundTrips(st: State, i: nat, v: Value)
    requires Inv(st) && Applied(st) && i < ROWS && i !in st.pending && SetRow(st, i, v).1.Now?
    requires v != st.layers[i].Winner().1
    ensures ResetRow(SetRow(st, i, v).0, i).0 == st <==> Get(i, st.applied) == st.layers[i].Winner().1
  {
    var w, st1 := st.layers[i].Winner().1, SetRow(st, i, v).0;
    assert st1.pending - {i} == st.pending;
    PutGetSame(i, st1.applied, w);
    if Get(i, st.applied) == w {
      PutBack(i, st.applied, v);
    }
  }

  lemma EditedRoundTrips(st: State, i: nat, v: Value)
    requires Inv(st) && Applied(st) && i < ROWS && i in st.pending && SetRow(st, i, v).1.Now?
    ensures ResetRow(SetRow(st, i, v).0, i).0 == st <==> RoundTrips(st, i, v)
  {
    var w, st1 := st.layers[i].Winner().1, SetRow(st, i, v).0;
    assert Meant(st.layers[i], st.pending[i]);
    if v == w {
      if st.pending[i].Remove? {
        assert st1.pending[i := st.pending[i]] == st.pending;
        PutBack(i, st.applied, w);
        assert Get(i, st.applied) == ShownWith(st.layers[i], Some(st.pending[i]));
      }
    } else {
      assert st1.pending - {i} == st.pending - {i};
      if st.pending[i] == Set(v) {
        PutBack(i, st.applied, v);
        PutSame(i, st.applied);
        assert st1.pending == st.pending;
        assert st1 == st;
        ResetRefusedExactly(st, i);
      }
    }
  }

  /** Putting a row's own value changes nothing. */
  lemma PutSame(i: nat, s: Settings)
    requires i < ROWS
    ensures Put(i, s, Get(i, s)) == s
  {
    PutKeepsOthers(i, s, Get(i, s));
    PutGetSame(i, s, Get(i, s));
    SameSettings(i, s, Put(i, s, Get(i, s)));
  }

  /**
   In every reachable state, an accepted set and the reset after it are a round trip exactly where
   `RoundTrips` says. With nothing unsaved on the row that asks that the session run with what the
   screen shows, which it need not: a save re-reads the file for the screen, and a hand edit found
   there waits for the next connect -- or for a reset, which applies it.
   */
  lemma ResetUndoesSet(f: FileText, es: seq<Event>, i: nat, v: Value)
    requires FileFits(f) && (forall k :: 0 <= k < |es| ==> EventFits(es[k])) && i < ROWS
    requires SetRow(Exec(f, es), i, v).1.Now?
    ensures ResetRow(SetRow(Exec(f, es), i, v).0, i).0 == Exec(f, es) <==> RoundTrips(Exec(f, es), i, v)
  {
    AlwaysReachable(f, es);
    EditsAreApplied(f, es);
    if i in Exec(f, es).pending {
      EditedRoundTrips(Exec(f, es), i, v);
    } else if v == Exec(f, es).layers[i].Winner().1 {
      ShownRoundTrips(Exec(f, es), i);
    } else {
      NewRoundTrips(Exec(f, es), i, v);
    }
  }

  const NOTHING_WRITTEN: FileText := seq(ROWS, _ => (None, None))
  const STANDBY := 7
  const SPLASH := 3
  const STANDBY_OFF: FileText := NOTHING_WRITTEN[STANDBY := (Some(Bool(false)), None)]

  /** Such a hand edit: written to the file by somebody else, and read back by a save of another row. */
  lemma HandEditWaits()
    ensures var st := Exec(NOTHING_WRITTEN, [DoSet(SPLASH, Bool(false))] + [DoSave(Some(STANDBY_OFF))]);
      && st.pending == map[] && Get(STANDBY, st.applied) == Bool(true)
      && st.layers[STANDBY].Winner().1 == Bool(false)
      && SetRow(st, STANDBY, Bool(true)).1.Now?
      && Get(STANDBY, ResetRow(SetRow(st, STANDBY, Bool(true)).0, STANDBY).0.applied) == Bool(false)
  {
    var e1, e2 := DoSet(SPLASH, Bool(false)), DoSave(Some(STANDBY_OFF));
    var st0 := Start(NOTHING_WRITTEN);
    assert ([e1] + [e2])[..1] == [e1] && [e1][..0] == [];
    AlwaysReachable(NOTHING_WRITTEN, []);
    ResolvedRow(NOTHING_WRITTEN, SPLASH);
    ResolvedRow(NOTHING_WRITTEN, STANDBY);
    ResolvedRow(STANDBY_OFF, STANDBY);
    OnlyThePopupRowsAreRefused(st0, SPLASH, map[SPLASH := Set(Bool(false))]);
    InEffectRow(st0.layers, map[], STANDBY);
    OneRowAtATime(st0, e1, STANDBY);
    AlwaysReachable(NOTHING_WRITTEN, [e1] + [e2]);
    ResetAppliesTheScreen(Exec(NOTHING_WRITTEN, [e1] + [e2]));
  }

  /** Where the screen says the standby is off and the session has it on: set and reset, and it is off. */
  lemma ResetAppliesTheScreen(st: State)
    requires Inv(st) && st.pending == map[] && st.layers[STANDBY].Winner().1 == Bool(false)
    ensures var (st1, a) := SetRow(st, STANDBY, Bool(true));
      a.Now? && Get(STANDBY, ResetRow(st1, STANDBY).0.applied) == Bool(false)
  {
    OnlyThePopupRowsAreRefused(st, STANDBY, map[STANDBY := Set(Bool(true))]);
    var st1 := SetRow(st, STANDBY, Bool(true)).0;
    NextKeepsInv(st, DoSet(STANDBY, Bool(true)));
    assert st1.pending - {STANDBY} == map[];
    OnlyThePopupRowsAreRefused(st1, STANDBY, map[]);
    PutGetSame(STANDBY, st1.applied, Bool(false));
  }

  /** A row but auto_open_after resolves to what the file says for it. */
  lemma ResolvedRow(f: FileText, i: nat)
    requires i < ROWS && i != AUTO_OPEN
    ensures Resolve(f)[i] == KeyLayers(Get(i, DEFAULTS), f[i].0, f[i].1)
  {
    FallbackFrame(seq(ROWS, i requires 0 <= i < ROWS => KeyLayers(Get(i, DEFAULTS), f[i].0, f[i].1)));
  }
}
