/**
  The modal keyboard controller (src/app/controls.rs): the held-key set and the one
  active mode, mode selection by fixed key priority, what each mode's handler does
  to the parameters in one tick, and the debug readback protocol over the
  CPU-readable shadow buffers.

  The handlers themselves change the application state, so they are methods of
  `AppState.State`; this module holds the keyboard state, the readback methods and
  the functions that specify one tick.
 */
module Controls {
  import opened Wrappers
  import opened Structs
  import opened Device

  // ---------------------------------------------------------------------------
  // Keys, modes and the keyboard state
  // ---------------------------------------------------------------------------

  /** The physical keys the controller looks at; every other key is `OtherKey`. */
  datatype KeyCode =
    | KeyD | KeyP | KeyS | KeyE | KeyW | KeyX | KeyZ
    | Digit1 | Digit2 | Digit3
    | ArrowUp | ArrowDown | ArrowLeft | ArrowRight | ShiftLeft
    | OtherKey(code: nat)

  datatype ElementState = Pressed | Released

  datatype KeyEvent = KeyEvent(physicalKey: KeyCode, state: ElementState)

  datatype KeyboardMode = DebugMode | ViewMode | TerrainMode | RayMode | PrintMode

  /** The held-key set after one keyboard event. */
  function ApplyKeyEvent(keys: set<KeyCode>, input: KeyEvent): (r: set<KeyCode>)
    ensures input.physicalKey in r <==> input.state == Pressed
    ensures forall k | k != input.physicalKey :: k in r <==> k in keys
  {
    if input.state == Pressed then keys + {input.physicalKey} else keys - {input.physicalKey}
  }

  /**
    Held keys behave as a set: a repeated press changes nothing, releasing a key
    that is not held changes nothing, and a press followed by a release of the
    same key forgets the key whatever the set held before.
   */
  lemma KeyEventsAreSetOperations(keys: set<KeyCode>, k: KeyCode)
    ensures k in keys ==> ApplyKeyEvent(keys, KeyEvent(k, Pressed)) == keys
    ensures k !in keys ==> ApplyKeyEvent(keys, KeyEvent(k, Released)) == keys
    ensures ApplyKeyEvent(ApplyKeyEvent(keys, KeyEvent(k, Pressed)), KeyEvent(k, Released)) == keys - {k}
  {
  }

  class KeyboardState {
    var keys: set<KeyCode>
    var mode: KeyboardMode

    /** `KeyboardState::new`: no key held, print mode. */
    constructor ()
      ensures keys == {} && mode == PrintMode
    {
      keys := {};
      mode := PrintMode;
    }

    /** `key_pressed`: whether the key is currently held. */
    function KeyPressed(key: KeyCode): (r: bool)
      reads this`keys
      ensures r <==> key in keys
    {
      key in keys
    }

    /** `handle_keyboard_input`: a press inserts the key, any other state removes it. */
    method HandleKeyboardInput(input: KeyEvent)
      modifies this`keys
      ensures keys == ApplyKeyEvent(old(keys), input)
    {
      var key := input.physicalKey;
      if input.state == Pressed {
        keys := keys + {key};
      } else {
        keys := keys - {key};
      }
    }

    /** `clear_keys`: forgets every held key, leaving the mode as it is. */
    method ClearKeys()
      modifies this`keys
      ensures keys == {}
    {
      keys := {};
    }

    /** `set_mode`. */
    method SetMode(newMode: KeyboardMode)
      modifies this`mode
      ensures mode == newMode
    {
      mode := newMode;
    }
  }

  // ---------------------------------------------------------------------------
  // Mode selection
  // ---------------------------------------------------------------------------

  /** The mode-select keys, highest priority first, each with the mode it selects. */
  const SELECT_KEYS: seq<(KeyCode, KeyboardMode)> :=
    [(KeyD, DebugMode), (Digit1, TerrainMode), (Digit2, ViewMode), (Digit3, RayMode), (KeyP, PrintMode)]

  /** The first line of `update_controls`: the mode the held keys select. */
  function SelectMode(keys: set<KeyCode>, mode: KeyboardMode): KeyboardMode {
    if KeyD in keys then DebugMode
    else if Digit1 in keys then TerrainMode
    else if Digit2 in keys then ViewMode
    else if Digit3 in keys then RayMode
    else if KeyP in keys then PrintMode
    else mode
  }

  /** Reference definition: the mode of the first held key of a priority table. */
  function FirstHeld(keys: set<KeyCode>, table: seq<(KeyCode, KeyboardMode)>, default: KeyboardMode): (m: KeyboardMode)
    ensures m == default || exists i :: 0 <= i < |table| && table[i].0 in keys && m == table[i].1
  {
    if table == [] then default
    else if table[0].0 in keys then table[0].1
    else FirstHeld(keys, table[1..], default)
  }

  /** A table whose keys before position `i` are not held selects what its suffix from `i` selects. */
  lemma {:induction false} FirstHeldSkips(keys: set<KeyCode>, table: seq<(KeyCode, KeyboardMode)>, default: KeyboardMode, i: nat)
    requires i <= |table| && forall j :: 0 <= j < i ==> table[j].0 !in keys
    ensures FirstHeld(keys, table, default) == FirstHeld(keys, table[i..], default)
  {
    if i > 0 {
      assert table[0].0 !in keys;
      assert table[1..][i - 1..] == table[i..];
      FirstHeldSkips(keys, table[1..], default, i - 1);
    }
  }

  /**
    Mode selection picks the highest-priority held select key's mode, and keeps the
    current mode when no select key is held.
   */
  lemma SelectModePriority(keys: set<KeyCode>, mode: KeyboardMode, i: nat)
    requires i < |SELECT_KEYS| && SELECT_KEYS[i].0 in keys
    requires forall j :: 0 <= j < i ==> SELECT_KEYS[j].0 !in keys
    ensures SelectMode(keys, mode) == SELECT_KEYS[i].1
  {
    if i > 0 { assert SELECT_KEYS[0].0 !in keys; }
    if i > 1 { assert SELECT_KEYS[1].0 !in keys; }
    if i > 2 { assert SELECT_KEYS[2].0 !in keys; }
    if i > 3 { assert SELECT_KEYS[3].0 !in keys; }
  }

  lemma SelectModeNoneHeld(keys: set<KeyCode>, mode: KeyboardMode)
    requires forall j :: 0 <= j < |SELECT_KEYS| ==> SELECT_KEYS[j].0 !in keys
    ensures SelectMode(keys, mode) == mode
  {
    assert SELECT_KEYS[0].0 !in keys && SELECT_KEYS[1].0 !in keys && SELECT_KEYS[2].0 !in keys;
    assert SELECT_KEYS[3].0 !in keys && SELECT_KEYS[4].0 !in keys;
  }

  /** The if-chain of `update_controls` is the priority-table lookup. */
  lemma SelectModeIsFirstHeld(keys: set<KeyCode>, mode: KeyboardMode)
    ensures SelectMode(keys, mode) == FirstHeld(keys, SELECT_KEYS, mode)
  {
    var t := SELECT_KEYS;
    var i: nat := if KeyD in keys then 0 else if Digit1 in keys then 1 else if Digit2 in keys then 2
      else if Digit3 in keys then 3 else if KeyP in keys then 4 else 5;
    FirstHeldSkips(keys, t, mode, i);
    assert i == 5 ==> t[i..] == [];
  }

  // ---------------------------------------------------------------------------
  // One tick of the handlers, as functions
  // ---------------------------------------------------------------------------

  /** The debug readbacks, each bound to its own key. */
  datatype Readback = ReadGeneric | ReadArray1 | ReadArray2 | ReadInterleaved

  /** `debug_controls`: the readback the held keys ask for, by priority S > 1 > 2 > 3. */
  function DebugChoice(keys: set<KeyCode>): Option<Readback> {
    if KeyS in keys then Some(ReadGeneric)
    else if Digit1 in keys then Some(ReadArray1)
    else if Digit2 in keys then Some(ReadArray2)
    else if Digit3 in keys then Some(ReadInterleaved)
    else None
  }

  /** `f32::max` over the reals. */
  function MaxReal(a: real, b: real): (r: real)
    ensures r >= a && r >= b && (r == a || r == b)
  {
    if a < b then b else a
  }

  /** The step of `ray_controls` and `terrain_controls`: +1 on ArrowUp, else -1 on ArrowDown, else 0. */
  function ArrowDelta(keys: set<KeyCode>): real {
    if ArrowUp in keys then 1.0 else if ArrowDown in keys then -1.0 else 0.0
  }

  /** Whether `ray_controls` writes the ray buffer: E, S or W is held, whether or not the step changes the field. */
  predicate RaySyncs(keys: set<KeyCode>) {
    KeyE in keys || KeyS in keys || KeyW in keys
  }

  /** `ray_controls`: epsilon, else max_steps, else max_dist moves by the delta, clamped at zero. */
  function RayStep(keys: set<KeyCode>, r: RayParams): RayParams {
    var d := ArrowDelta(keys);
    if KeyE in keys then r.(epsilon := MaxReal(0.0, r.epsilon + 1.0 * d))
    else if KeyS in keys then r.(maxSteps := MaxReal(0.0, r.maxSteps + 1.0 * d))
    else if KeyW in keys then r.(maxDist := MaxReal(0.0, r.maxDist + 1.0 * d))
    else r
  }

  /** Whether `view_controls` writes the view buffer: a view key is held, whether or not the step changes the field. */
  predicate ViewSyncs(keys: set<KeyCode>) {
    ArrowLeft in keys || ArrowRight in keys || ArrowUp in keys || ArrowDown in keys || KeyX in keys || KeyZ in keys
  }

  /**
    `view_controls`: Left > Right > Up > Down > X > Z. With ShiftLeft held the
    arrows rotate (Left and Up clamp at zero, Right and Down do not); without it
    they pan by 0.01 / zoom; X and Z scale the zoom by 0.9 and 1.1.
   */
  function ViewStep(keys: set<KeyCode>, v: ViewParams): ViewParams
    requires v.zoom != 0.0
  {
    var mz := v.zoom;
    var shift := ShiftLeft in keys;
    if ArrowLeft in keys then
      (if shift then v.(xRot := MaxReal(0.0, v.xRot + 0.1)) else v.(xShift := v.xShift - 0.01 / mz))
    else if ArrowRight in keys then
      (if shift then v.(xRot := v.xRot - 0.1) else v.(xShift := v.xShift + 0.01 / mz))
    else if ArrowUp in keys then
      (if shift then v.(yRot := MaxReal(0.0, v.yRot + 0.1)) else v.(yShift := v.yShift - 0.01 / mz))
    else if ArrowDown in keys then
      (if shift then v.(yRot := v.yRot - 0.1) else v.(yShift := v.yShift + 0.01 / mz))
    else if KeyX in keys then v.(zoom := v.zoom - 0.1 * mz)
    else if KeyZ in keys then v.(zoom := v.zoom + 0.1 * mz)
    else v
  }

  /** What the parameters must satisfy between ticks: the ray fields are clamped, the zoom positive. */
  predicate ParamsInvariant(p: Params) {
    && p.rayParams.epsilon >= 0.0 && p.rayParams.maxDist >= 0.0 && p.rayParams.maxSteps >= 0.0
    && p.viewParams.zoom > 0.0
  }

  /** The mode the handler of `mode` leaves. */
  function HandlerMode(keys: set<KeyCode>, mode: KeyboardMode): KeyboardMode {
    match mode
    case DebugMode => if DebugChoice(keys).Some? then ViewMode else DebugMode
    case ViewMode => ViewMode
    case TerrainMode => TerrainMode
    case RayMode => RayMode
    case PrintMode => ViewMode
  }

  /** The parameters the handler of `mode` leaves. */
  function HandlerParams(keys: set<KeyCode>, mode: KeyboardMode, p: Params): Params
    requires p.viewParams.zoom != 0.0
  {
    match mode
    case ViewMode => p.(viewParams := ViewStep(keys, p.viewParams))
    case RayMode => p.(rayParams := RayStep(keys, p.rayParams))
    case _ => p
  }

  /** The mode after one `update_controls`: selection, then the handler's own mode change. */
  function NextMode(keys: set<KeyCode>, mode: KeyboardMode): KeyboardMode {
    HandlerMode(keys, SelectMode(keys, mode))
  }

  /** The parameters after one `update_controls`. */
  function NextParams(keys: set<KeyCode>, mode: KeyboardMode, p: Params): Params
    requires p.viewParams.zoom != 0.0
  {
    HandlerParams(keys, SelectMode(keys, mode), p)
  }

  /** The readback one `update_controls` runs, if any. */
  function TickReadback(keys: set<KeyCode>, mode: KeyboardMode): Option<Readback> {
    HandlerReadback(keys, SelectMode(keys, mode))
  }

  /** The readback the handler of `mode` runs, if any: only the debug handler reads. */
  function HandlerReadback(keys: set<KeyCode>, mode: KeyboardMode): Option<Readback> {
    if mode == DebugMode then DebugChoice(keys) else None
  }

  // ---------------------------------------------------------------------------
  // Properties of one tick
  // ---------------------------------------------------------------------------

  /**
    The debug handler runs exactly one readback when S, 1, 2 or 3 is held (by
    priority S > 1 > 2 > 3) and then switches to view mode; with none of them held
    it reads nothing and stays in debug mode. It never changes a parameter.
   */
  lemma DebugHandler(keys: set<KeyCode>, mode: KeyboardMode, p: Params)
    requires SelectMode(keys, mode) == DebugMode && p.viewParams.zoom != 0.0
    ensures NextParams(keys, mode, p) == p
    ensures TickReadback(keys, mode).Some? <==> (KeyS in keys || Digit1 in keys || Digit2 in keys || Digit3 in keys)
    ensures NextMode(keys, mode) == (if TickReadback(keys, mode).Some? then ViewMode else DebugMode)
    ensures KeyS in keys ==> TickReadback(keys, mode) == Some(ReadGeneric)
    ensures KeyS !in keys && Digit1 in keys ==> TickReadback(keys, mode) == Some(ReadArray1)
    ensures KeyS !in keys && Digit1 !in keys && Digit2 in keys ==> TickReadback(keys, mode) == Some(ReadArray2)
    ensures KeyS !in keys && Digit1 !in keys && Digit2 !in keys && Digit3 in keys ==>
      TickReadback(keys, mode) == Some(ReadInterleaved)
  {
  }

  /**
    Because selection runs before the handler, the readbacks bound to the digit
    keys happen only when KeyD is held in the same tick: otherwise the digit itself
    selects terrain, view or ray mode first. The generic readback (S) also runs in a
    tick without KeyD once debug mode is active.
   */
  lemma DigitReadbacksNeedKeyD(keys: set<KeyCode>, mode: KeyboardMode)
    ensures TickReadback(keys, mode) in {Some(ReadArray1), Some(ReadArray2), Some(ReadInterleaved)} ==> KeyD in keys
    ensures KeyD in keys && KeyS !in keys && Digit1 in keys ==> TickReadback(keys, mode) == Some(ReadArray1)
    ensures mode == DebugMode && keys == {KeyS} ==> TickReadback(keys, mode) == Some(ReadGeneric)
    ensures TickReadback(keys, mode).Some? ==> SelectMode(keys, mode) == DebugMode
  {
    if TickReadback(keys, mode) in {Some(ReadArray1), Some(ReadArray2), Some(ReadInterleaved)} {
      assert SelectMode(keys, mode) == DebugMode;
    }
  }

  /** The print handler always hands over to view mode and changes no parameter. */
  lemma PrintHandler(keys: set<KeyCode>, mode: KeyboardMode, p: Params)
    requires p.viewParams.zoom != 0.0
    ensures SelectMode(keys, mode) == PrintMode ==>
      NextMode(keys, mode) == ViewMode && NextParams(keys, mode, p) == p && TickReadback(keys, mode).None?
  {
  }

  /** The terrain handler, a stub, changes neither the parameters nor the mode. */
  lemma TerrainHandler(keys: set<KeyCode>, mode: KeyboardMode, p: Params)
    requires p.viewParams.zoom != 0.0
    ensures SelectMode(keys, mode) == TerrainMode ==>
      NextMode(keys, mode) == TerrainMode && NextParams(keys, mode, p) == p && TickReadback(keys, mode).None?
  {
  }

  /**
    The ray handler moves at most one field, by priority E > S > W, to
    max(0, old + delta) with delta in {-1, 0, 1}; the other fields keep their values.
   */
  lemma RayHandler(keys: set<KeyCode>, r: RayParams)
    ensures ArrowDelta(keys) in {-1.0, 0.0, 1.0}
    ensures var n := RayStep(keys, r);
      && (KeyE in keys ==> n == r.(epsilon := MaxReal(0.0, r.epsilon + ArrowDelta(keys))))
      && (KeyE !in keys && KeyS in keys ==> n == r.(maxSteps := MaxReal(0.0, r.maxSteps + ArrowDelta(keys))))
      && (KeyE !in keys && KeyS !in keys && KeyW in keys ==> n == r.(maxDist := MaxReal(0.0, r.maxDist + ArrowDelta(keys))))
      && (!RaySyncs(keys) ==> n == r)
    ensures var n := RayStep(keys, r);
      (if n.epsilon != r.epsilon then 1 else 0) + (if n.maxSteps != r.maxSteps then 1 else 0)
        + (if n.maxDist != r.maxDist then 1 else 0) <= 1
  {
  }

  /** The ray fields never go negative once they are not negative. */
  lemma RayStepKeepsClamp(keys: set<KeyCode>, r: RayParams)
    requires r.epsilon >= 0.0 && r.maxDist >= 0.0 && r.maxSteps >= 0.0
    ensures var n := RayStep(keys, r); n.epsilon >= 0.0 && n.maxDist >= 0.0 && n.maxSteps >= 0.0
    ensures ArrowDelta(keys) == 0.0 ==> RayStep(keys, r) == r
  {
  }

  /** The number of view fields one step changes. */
  function ViewFieldsChanged(a: ViewParams, b: ViewParams): nat {
    (if a.xShift != b.xShift then 1 else 0) + (if a.yShift != b.yShift then 1 else 0)
      + (if a.zoom != b.zoom then 1 else 0) + (if a.xRot != b.xRot then 1 else 0)
      + (if a.yRot != b.yRot then 1 else 0) + (if a.timeModifier != b.timeModifier then 1 else 0)
      + (if a.fovDegrees != b.fovDegrees then 1 else 0)
  }

  /**
    The view handler changes at most one field per tick, never the time modifier or
    the field of view, and with none of its keys held changes nothing.
   */
  lemma ViewHandlerOneField(keys: set<KeyCode>, v: ViewParams)
    requires v.zoom != 0.0
    ensures ViewFieldsChanged(v, ViewStep(keys, v)) <= 1
    ensures ViewStep(keys, v).timeModifier == v.timeModifier && ViewStep(keys, v).fovDegrees == v.fovDegrees
    ensures !ViewSyncs(keys) ==> ViewStep(keys, v) == v
  {
  }

  /**
    Panning moves the shift by exactly 0.01 / zoom, so the pan speed on screen is
    the same at every zoom level; the zoom keys scale the zoom by 0.9 or 1.1 and
    keep it positive.
   */
  lemma ViewHandlerPanAndZoom(keys: set<KeyCode>, v: ViewParams)
    requires v.zoom > 0.0
    ensures var n := ViewStep(keys, v);
      && n.zoom > 0.0
      && (n.zoom == v.zoom || n.zoom == 0.9 * v.zoom || n.zoom == 1.1 * v.zoom)
      && (n.xShift == v.xShift || n.xShift == v.xShift - 0.01 / v.zoom || n.xShift == v.xShift + 0.01 / v.zoom)
      && (n.yShift == v.yShift || n.yShift == v.yShift - 0.01 / v.zoom || n.yShift == v.yShift + 0.01 / v.zoom)
    ensures ArrowLeft in keys && ShiftLeft !in keys ==> ViewStep(keys, v).xShift == v.xShift - 0.01 / v.zoom
    ensures !ViewSyncs(keys - {KeyX}) && KeyX in keys ==> ViewStep(keys, v).zoom == 0.9 * v.zoom
  {
  }

  /**
    Every branch of the view handler, for every held-key set: Left > Right > Up >
    Down > X > Z. With ShiftLeft held, Left and Up raise the rotation by 0.1 and
    clamp it at zero, while Right and Down lower it by 0.1 with no clamp; without
    ShiftLeft the arrows pan by 0.01 / zoom. With no arrow held, X scales the zoom
    by 0.9, else Z by 1.1. Each branch changes only its own field.
   */
  lemma ViewHandlerCases(keys: set<KeyCode>, v: ViewParams)
    requires v.zoom != 0.0
    ensures var n := ViewStep(keys, v); var shift := ShiftLeft in keys;
      && (ArrowLeft in keys && shift ==> n == v.(xRot := MaxReal(0.0, v.xRot + 0.1)))
      && (ArrowLeft in keys && !shift ==> n == v.(xShift := v.xShift - 0.01 / v.zoom))
      && (ArrowLeft !in keys && ArrowRight in keys && shift ==> n == v.(xRot := v.xRot - 0.1))
      && (ArrowLeft !in keys && ArrowRight in keys && !shift ==> n == v.(xShift := v.xShift + 0.01 / v.zoom))
    ensures var n := ViewStep(keys, v); var shift := ShiftLeft in keys;
      var noSideways := ArrowLeft !in keys && ArrowRight !in keys;
      && (noSideways && ArrowUp in keys && shift ==> n == v.(yRot := MaxReal(0.0, v.yRot + 0.1)))
      && (noSideways && ArrowUp in keys && !shift ==> n == v.(yShift := v.yShift - 0.01 / v.zoom))
      && (noSideways && ArrowUp !in keys && ArrowDown in keys && shift ==> n == v.(yRot := v.yRot - 0.1))
      && (noSideways && ArrowUp !in keys && ArrowDown in keys && !shift ==> n == v.(yShift := v.yShift + 0.01 / v.zoom))
    ensures var n := ViewStep(keys, v);
      var noArrow := ArrowLeft !in keys && ArrowRight !in keys && ArrowUp !in keys && ArrowDown !in keys;
      && (noArrow && KeyX in keys ==> n == v.(zoom := 0.9 * v.zoom))
      && (noArrow && KeyX !in keys && KeyZ in keys ==> n == v.(zoom := 1.1 * v.zoom))
      && (noArrow && KeyX !in keys && KeyZ !in keys ==> n == v)
  {
  }

  /**
    Rotation is not symmetric: Shift+Left and Shift+Up clamp the angle at zero,
    Shift+Right and Shift+Down do not, so the angle can go negative and one
    Shift+Left from -0.2 lands on 0, not -0.1. Zooming out then in does not return
    to the starting zoom.
   */
  lemma ViewHandlerAsymmetries(v: ViewParams)
    requires v.zoom > 0.0
    ensures var n := ViewStep({ArrowRight, ShiftLeft}, v.(xRot := 0.0)); n.xRot == -0.1
    ensures var n := ViewStep({ArrowDown, ShiftLeft}, v.(yRot := 0.0)); n.yRot == -0.1
    ensures ViewStep({ArrowUp, ShiftLeft}, v.(yRot := -0.2)).yRot == 0.0
    ensures ViewStep({ArrowLeft, ShiftLeft}, v.(xRot := -0.2)).xRot == 0.0
    ensures ViewStep({ArrowLeft, ShiftLeft}, v).xRot >= 0.0 && ViewStep({ArrowUp, ShiftLeft}, v).yRot >= 0.0
    ensures ViewStep({KeyZ}, ViewStep({KeyX}, v)).zoom == 0.99 * v.zoom != v.zoom
  {
  }

  /** One tick keeps the parameter invariant and never touches the terrain parameters. */
  lemma TickKeepsInvariant(keys: set<KeyCode>, mode: KeyboardMode, p: Params)
    requires ParamsInvariant(p)
    ensures ParamsInvariant(NextParams(keys, mode, p))
    ensures NextParams(keys, mode, p).terrainParams == p.terrainParams
  {
    match SelectMode(keys, mode)
    case ViewMode => ViewHandlerPanAndZoom(keys, p.viewParams);
    case RayMode => RayStepKeepsClamp(keys, p.rayParams);
    case _ =>
  }

  /** The mode and parameters after a sequence of ticks with the given held-key sets. */
  function Run(ticks: seq<set<KeyCode>>, mode: KeyboardMode, p: Params): (KeyboardMode, Params)
    requires ParamsInvariant(p)
    decreases |ticks|
  {
    if ticks == [] then (mode, p)
    else
      TickKeepsInvariant(ticks[0], mode, p);
      Run(ticks[1..], NextMode(ticks[0], mode), NextParams(ticks[0], mode, p))
  }

  /**
    However long the controller runs, the ray fields stay non-negative, the zoom
    positive and the terrain parameters as they started.
   */
  lemma {:induction false} RunKeepsInvariant(ticks: seq<set<KeyCode>>, mode: KeyboardMode, p: Params)
    requires ParamsInvariant(p)
    ensures ParamsInvariant(Run(ticks, mode, p).1)
    ensures Run(ticks, mode, p).1.terrainParams == p.terrainParams
    decreases |ticks|
  {
    if ticks != [] {
      TickKeepsInvariant(ticks[0], mode, p);
      RunKeepsInvariant(ticks[1..], NextMode(ticks[0], mode), NextParams(ticks[0], mode, p));
    }
  }

  // ---------------------------------------------------------------------------
  // Readback data: reinterpreting a buffer as records
  // ---------------------------------------------------------------------------

  /** The words of a record sequence laid end to end. */
  function Concat(rs: seq<seq<Word>>): seq<Word> {
    if rs == [] then [] else rs[0] + Concat(rs[1..])
  }

  /**
    `bytemuck::cast_slice` to records of `n` words: the buffer cut into consecutive
    records of exactly `n` words that, laid end to end, are the buffer again.
   */
  function Chunks(s: seq<Word>, n: nat): (r: seq<seq<Word>>)
    requires n > 0 && |s| % n == 0
    ensures |r| == |s| / n
    ensures forall i | 0 <= i < |r| :: |r[i]| == n
    ensures Concat(r) == s
    decreases |s|
  {
    if s == [] then []
    else
      DivisibleStep(|s|, n);
      var rest := Chunks(s[n..], n);
      assert ([s[..n]] + rest)[1..] == rest;
      assert s == s[..n] + s[n..];
      [s[..n]] + rest
  }

  // Euclidean division facts, each from the uniqueness of quotient and remainder.

  lemma MulSign(d: int, n: int)
    requires n >= 0
    ensures d >= 1 ==> d * n >= n
    ensures d <= -1 ==> d * n <= -n
  {
    assert d * n - n == (d - 1) * n;
    assert d * n + n == (d + 1) * n;
  }

  lemma DivModUnique(x: int, n: int, q: int, r: int)
    requires n > 0 && x == q * n + r && 0 <= r < n
    ensures x / n == q && x % n == r
  {
    var q', r' := x / n, x % n;
    assert x == q' * n + r';
    assert (q - q') * n == r' - r;
    MulSign(q - q', n);
  }

  lemma DivisibleStep(len: nat, n: nat)
    requires n > 0 && len % n == 0 && len > 0
    ensures len >= n && (len - n) % n == 0 && (len - n) / n == len / n - 1
  {
    var k := len / n;
    assert len == k * n;
    MulSign(k, n);
    assert len - n == (k - 1) * n;
    DivModUnique(len - n, n, k - 1, 0);
  }

  lemma SumDivisible(x: nat, y: nat, n: nat)
    requires n > 0 && x % n == 0 && y % n == 0
    ensures (x + y) % n == 0 && (x + y) / n == x / n + y / n
  {
    var i, j := x / n, y / n;
    assert x == i * n && y == j * n;
    assert x + y == (i + j) * n;
    DivModUnique(x + y, n, i + j, 0);
  }

  lemma {:induction false} ConcatAppend(a: seq<seq<Word>>, b: seq<seq<Word>>)
    ensures Concat(a + b) == Concat(a) + Concat(b)
    decreases |a|
  {
    if a == [] {
      assert a + b == b;
    } else {
      assert (a + b)[0] == a[0] && (a + b)[1..] == a[1..] + b;
      ConcatAppend(a[1..], b);
      assert Concat(a + b) == a[0] + (Concat(a[1..]) + Concat(b));
    }
  }

  /** Records of `n` words are the only cut of their concatenation into `n`-word pieces. */
  lemma {:induction false} ChunksUnique(r: seq<seq<Word>>, n: nat)
    requires n > 0 && forall i | 0 <= i < |r| :: |r[i]| == n
    ensures |Concat(r)| % n == 0
    ensures Chunks(Concat(r), n) == r
    decreases |r|
  {
    if r == [] {
      DivModUnique(0, n, 0, 0);
    } else {
      var tail := Concat(r[1..]);
      ChunksUnique(r[1..], n);
      var c := Concat(r);
      assert c == r[0] + tail;
      assert |c| == n + |tail|;
      DivModUnique(n, n, 1, 0);
      SumDivisible(n, |tail|, n);
      assert c != [] && c[..n] == r[0] && c[n..] == tail;
      assert Chunks(c, n) == [c[..n]] + Chunks(c[n..], n);
      assert r == [r[0]] + r[1..];
    }
  }

  /** Record i of a buffer cut into `n`-word records is words i * n .. i * n + n. */
  lemma {:induction false} ChunkAt(s: seq<Word>, n: nat, i: nat)
    requires n > 0 && |s| % n == 0 && i < |s| / n
    ensures i * n + n <= |s| && Chunks(s, n)[i] == s[i * n .. i * n + n]
    decreases i
  {
    DivisibleStep(|s|, n);
    if i > 0 {
      ChunkAt(s[n..], n, i - 1);
      assert (i - 1) * n + n == i * n;
      assert s[n..][(i - 1) * n .. (i - 1) * n + n] == s[i * n .. i * n + n];
    }
  }

  /** Chunking distributes over concatenation at a record boundary. */
  lemma ChunksAppend(a: seq<Word>, b: seq<Word>, n: nat)
    requires n > 0 && |a| % n == 0 && |b| % n == 0
    ensures |a + b| % n == 0
    ensures Chunks(a + b, n) == Chunks(a, n) + Chunks(b, n)
  {
    SumDivisible(|a|, |b|, n);
    var r := Chunks(a, n) + Chunks(b, n);
    ConcatAppend(Chunks(a, n), Chunks(b, n));
    ChunksUnique(r, n);
  }

  /** The flattening loop of the interleaved readback: every record split into items of `n` words. */
  function ItemsOf(rs: seq<seq<Word>>, n: nat): seq<seq<Word>>
    requires n > 0 && forall i | 0 <= i < |rs| :: |rs[i]| % n == 0
  {
    if rs == [] then [] else ItemsOf(rs[..|rs| - 1], n) + Chunks(rs[|rs| - 1], n)
  }

  lemma {:induction false} ItemsOfShape(rs: seq<seq<Word>>, n: nat)
    requires n > 0 && forall i | 0 <= i < |rs| :: |rs[i]| % n == 0
    ensures forall i | 0 <= i < |ItemsOf(rs, n)| :: |ItemsOf(rs, n)[i]| == n
    ensures Concat(ItemsOf(rs, n)) == Concat(rs)
    decreases |rs|
  {
    if rs != [] {
      var front, last := rs[..|rs| - 1], rs[|rs| - 1];
      ItemsOfShape(front, n);
      ConcatAppend(ItemsOf(front, n), Chunks(last, n));
      assert rs == front + [last];
      ConcatAppend(front, [last]);
      assert Concat([last]) == last;
    }
  }

  /**
    Flattening records of `m` words into items of `n` words gives the same items as
    reading the buffer as `n`-word items in the first place.
   */
  lemma ItemsOfChunks(s: seq<Word>, m: nat, n: nat)
    requires n > 0 && m > 0 && m % n == 0 && |s| % m == 0
    ensures |s| % n == 0
    ensures forall i | 0 <= i < |Chunks(s, m)| :: |Chunks(s, m)[i]| % n == 0
    ensures ItemsOf(Chunks(s, m), n) == Chunks(s, n)
  {
    var rs := Chunks(s, m);
    ItemsOfShape(rs, n);
    ChunksUnique(ItemsOf(rs, n), n);
  }

  // ---------------------------------------------------------------------------
  // The readback protocol
  // ---------------------------------------------------------------------------

  /** The mapping of a buffer succeeds when the device reports success and the buffer is not already mapped. */
  predicate MapSucceeds(outcome: MapOutcome, isMapped: bool) {
    outcome == MapOk && !isMapped
  }

  /** One printed line per record, numbered from 0. */
  function RecordLines(objLabel: string, records: seq<seq<Word>>): (t: seq<Effect>)
    ensures |t| == |records|
  {
    seq(|records|, i requires 0 <= i < |records| => Output(RecordLine(objLabel, i, records[i])))
  }

  /** The output of `print_gpu_data`: the size line, then every record, or the error line. */
  function PrintGpuDataTrace(contents: seq<Word>, objLabel: string, recordWords: nat, ok: bool): seq<Effect>
    requires recordWords > 0 && |contents| % recordWords == 0
  {
    [Output(BufferSizeLine(WORD_BYTES * |contents|))]
      + (if ok then RecordLines(objLabel, Chunks(contents, recordWords)) else [Output(MapErrorLine(0))])
  }

  /**
    A successful single readback prints every record of the buffer in order, where
    record i is words i * n .. i * n + n, and the printed records laid end to end
    are the whole buffer; a failed one prints no record at all.
   */
  lemma PrintGpuDataShowsBuffer(contents: seq<Word>, objLabel: string, n: nat, ok: bool)
    requires n > 0 && |contents| % n == 0
    ensures var t := PrintGpuDataTrace(contents, objLabel, n, ok);
      && t[0] == Output(BufferSizeLine(WORD_BYTES * |contents|))
      && (ok ==> |t| == 1 + |contents| / n
                 && forall i | 0 <= i < |contents| / n ::
                      i * n + n <= |contents| && t[1 + i] == Output(RecordLine(objLabel, i, contents[i * n .. i * n + n])))
      && (!ok ==> t == [t[0], Output(MapErrorLine(0))])
  {
    forall i | 0 <= i < |contents| / n
      ensures i * n + n <= |contents| && Chunks(contents, n)[i] == contents[i * n .. i * n + n]
    {
      ChunkAt(contents, n, i);
    }
  }

  /**
    `print_gpu_data` as evidently intended: prints the buffer size, maps the
    buffer, and on success reads the whole mapped range as records, prints each,
    drops the view and unmaps; on a failed mapping prints the error and reads
    nothing. The map state ends as it began. As written, a failed mapping still
    takes the read arm (`PrintGpuDataAsWritten`).
   */
  method PrintGpuData(gpu: Gpu, id: BufferId, objLabel: string, recordWords: nat, outcome: MapOutcome)
    requires gpu.Valid() && recordWords > 0 && gpu.mem[id].Length % recordWords == 0
    modifies gpu`trace, gpu`mapped, gpu`liveViews
    ensures gpu.Valid()
    ensures gpu.trace == old(gpu.trace)
      + PrintGpuDataTrace(old(gpu.mem[id][..]), objLabel, recordWords, MapSucceeds(outcome, id in old(gpu.mapped)))
    ensures gpu.mapped == old(gpu.mapped) && gpu.liveViews == old(gpu.liveViews)
  {
    gpu.Record(Output(BufferSizeLine(WORD_BYTES * gpu.mem[id].Length)));
    var r := gpu.MapRead(id, outcome);
    if r == MapOk {
      var view := gpu.GetMappedRange(id);
      var data := Chunks(view, recordWords);
      PrintRecords(gpu, objLabel, data);
      gpu.DropView(id);
      gpu.Unmap(id);
    } else {
      gpu.Record(Output(MapErrorLine(0)));
    }
  }

  /** The printing loop of `print_gpu_data`: one line per record, with its index. */
  method PrintRecords(gpu: Gpu, objLabel: string, data: seq<seq<Word>>)
    modifies gpu`trace
    ensures gpu.trace == old(gpu.trace) + RecordLines(objLabel, data)
  {
    for i := 0 to |data|
      invariant gpu.trace == old(gpu.trace) + RecordLines(objLabel, data[..i])
    {
      assert RecordLines(objLabel, data[..i + 1]) == RecordLines(objLabel, data[..i]) + [Output(RecordLine(objLabel, i, data[i]))];
      gpu.Record(Output(RecordLine(objLabel, i, data[i])));
    }
    assert data[..|data|] == data;
  }

  /** One pair of printed lines per index, up to `count`. */
  function PairLines(a: seq<seq<Word>>, b: seq<seq<Word>>, count: nat): (t: seq<Effect>)
    requires count <= |a| && count <= |b|
    ensures |t| == count
  {
    seq(count, i requires 0 <= i < count => Output(PairLine(i, a[i], b[i])))
  }

  function Min(a: nat, b: nat): nat {
    if a < b then a else b
  }

  /**
    The output of `print_gpu_interleave_two_buffers`: with both mappings
    successful, the 4-word items of the two buffers side by side, index by index,
    as far as the shorter one reaches; otherwise an error line for each buffer that
    failed to map.
   */
  function InterleaveTrace(c1: seq<Word>, c2: seq<Word>, ok1: bool, ok2: bool): seq<Effect>
    requires |c1| % DEBUG_RECORD_WORDS == 0 && |c2| % DEBUG_RECORD_WORDS == 0
  {
    if ok1 && ok2 then
      var a, b := Chunks(c1, DEBUG_RECORD_WORDS), Chunks(c2, DEBUG_RECORD_WORDS);
      PairLines(a, b, Min(|a|, |b|))
    else
      (if ok1 then [] else [Output(MapErrorLine(1))]) + (if ok2 then [] else [Output(MapErrorLine(2))])
  }

  /** Whether each of the two mappings succeeds; the second sees the state the first left. */
  function InterleaveMapped(mapped: set<BufferId>, id1: BufferId, id2: BufferId, o1: MapOutcome, o2: MapOutcome): (bool, bool) {
    var ok1 := MapSucceeds(o1, id1 in mapped);
    var after1 := if ok1 then mapped + {id1} else mapped;
    (ok1, MapSucceeds(o2, id2 in after1))
  }

  /** The mapped buffers `print_gpu_interleave_two_buffers` leaves: restored only when both mappings succeeded. */
  function InterleaveMapState(mapped: set<BufferId>, id1: BufferId, id2: BufferId, o1: MapOutcome, o2: MapOutcome)
    : set<BufferId>
  {
    var (ok1, ok2) := InterleaveMapped(mapped, id1, id2, o1, o2);
    if ok1 && ok2 then mapped
    else (if ok1 then mapped + {id1} else mapped) + (if ok2 then {id2} else {})
  }

  /**
    When only one of two distinct buffers maps, it stays mapped: it is never
    unmapped, so every later readback of it fails whatever the device reports.
    When both map, or neither, the mapped buffers end as they began.
   */
  lemma InterleaveMixedFailureLeavesMapped(mapped: set<BufferId>, id1: BufferId, id2: BufferId, o1: MapOutcome, o2: MapOutcome, later: MapOutcome)
    requires id1 != id2
    ensures var (ok1, ok2) := InterleaveMapped(mapped, id1, id2, o1, o2);
      var after := InterleaveMapState(mapped, id1, id2, o1, o2);
      && (ok1 == ok2 ==> after == mapped)
      && (ok1 && !ok2 ==> after == mapped + {id1} && id1 !in mapped && !MapSucceeds(later, id1 in after))
      && (!ok1 && ok2 ==> after == mapped + {id2} && id2 !in mapped && !MapSucceeds(later, id2 in after))
  {
    var ok1 := MapSucceeds(o1, id1 in mapped);
    var ok2 := MapSucceeds(o2, id2 in (if ok1 then mapped + {id1} else mapped));
    assert InterleaveMapped(mapped, id1, id2, o1, o2) == (ok1, ok2);
    if ok1 && !ok2 {
      assert InterleaveMapState(mapped, id1, id2, o1, o2) == mapped + {id1};
    } else if !ok1 && ok2 {
      assert InterleaveMapState(mapped, id1, id2, o1, o2) == mapped + {id2};
    } else if !ok1 && !ok2 {
      assert InterleaveMapState(mapped, id1, id2, o1, o2) == mapped;
    }
  }

  /**
    The interleaved readback pairs item i of the first buffer (words 4i .. 4i + 4)
    with item i of the second, for every i below the shorter item count.
   */
  lemma InterleavePairsItems(c1: seq<Word>, c2: seq<Word>)
    requires |c1| % DEBUG_RECORD_WORDS == 0 && |c2| % DEBUG_RECORD_WORDS == 0
    ensures var t := InterleaveTrace(c1, c2, true, true);
      var n := Min(|c1|, |c2|) / DEBUG_RECORD_WORDS;
      && |t| == n
      && forall i | 0 <= i < n :: t[i] == Output(PairLine(i, c1[4 * i .. 4 * i + 4], c2[4 * i .. 4 * i + 4]))
    ensures InterleaveTrace(c1, c2, false, false) == [Output(MapErrorLine(1)), Output(MapErrorLine(2))]
  {
    var a, b := Chunks(c1, DEBUG_RECORD_WORDS), Chunks(c2, DEBUG_RECORD_WORDS);
    var n := Min(|c1|, |c2|) / DEBUG_RECORD_WORDS;
    assert Min(|a|, |b|) == n;
    forall i | 0 <= i < n ensures a[i] == c1[4 * i .. 4 * i + 4] && b[i] == c2[4 * i .. 4 * i + 4] {
      ChunkAt(c1, DEBUG_RECORD_WORDS, i);
      ChunkAt(c2, DEBUG_RECORD_WORDS, i);
    }
  }

  /**
    `print_gpu_interleave_two_buffers`: maps both buffers; only if both mappings
    succeed reads both mapped ranges as arrays of 512 four-word items, flattens each,
    prints the items pairwise, drops both views and unmaps both buffers. If either
    mapping fails it prints the errors and unmaps neither. This is the evidently
    intended dispatch; as written, failed mappings still take the read arm
    (`InterleaveAsWritten`).
   */
  method PrintGpuInterleaveTwoBuffers(gpu: Gpu, id1: BufferId, id2: BufferId, o1: MapOutcome, o2: MapOutcome)
    requires gpu.Valid()
    requires gpu.mem[id1].Length % DEBUG_ARRAY_WORDS == 0 && gpu.mem[id2].Length % DEBUG_ARRAY_WORDS == 0
    modifies gpu`trace, gpu`mapped, gpu`liveViews
    ensures gpu.Valid()
    ensures |old(gpu.mem[id1][..])| % DEBUG_RECORD_WORDS == 0 && |old(gpu.mem[id2][..])| % DEBUG_RECORD_WORDS == 0
    ensures var (ok1, ok2) := InterleaveMapped(old(gpu.mapped), id1, id2, o1, o2);
      gpu.trace == old(gpu.trace) + InterleaveTrace(old(gpu.mem[id1][..]), old(gpu.mem[id2][..]), ok1, ok2)
    ensures gpu.mapped == InterleaveMapState(old(gpu.mapped), id1, id2, o1, o2)
    ensures gpu.liveViews == old(gpu.liveViews)
  {
    ArrayItems(gpu.mem[id1].Length);
    ArrayItems(gpu.mem[id2].Length);
    var r1 := gpu.MapRead(id1, o1);
    var r2 := gpu.MapRead(id2, o2);
    if r1 == MapOk && r2 == MapOk {
      PrintMappedPair(gpu, id1, id2);
    } else if r2 == MapOk {
      gpu.Record(Output(MapErrorLine(1)));
    } else if r1 == MapOk {
      gpu.Record(Output(MapErrorLine(2)));
    } else {
      gpu.Record(Output(MapErrorLine(1)));
      gpu.Record(Output(MapErrorLine(2)));
    }
  }

  /**
    The both-mapped branch: reads both mapped ranges, flattens them into items,
    prints the pairs, drops both views and unmaps both buffers.
   */
  method PrintMappedPair(gpu: Gpu, id1: BufferId, id2: BufferId)
    requires gpu.Valid() && id1 != id2
    requires id1 in gpu.mapped && id2 in gpu.mapped
    requires id1 !in gpu.liveViews && id2 !in gpu.liveViews
    requires gpu.mem[id1].Length % DEBUG_ARRAY_WORDS == 0 && gpu.mem[id2].Length % DEBUG_ARRAY_WORDS == 0
    requires gpu.mem[id1].Length % DEBUG_RECORD_WORDS == 0 && gpu.mem[id2].Length % DEBUG_RECORD_WORDS == 0
    modifies gpu`trace, gpu`mapped, gpu`liveViews
    ensures gpu.Valid()
    ensures gpu.trace == old(gpu.trace) + InterleaveTrace(gpu.mem[id1][..], gpu.mem[id2][..], true, true)
    ensures gpu.mapped == old(gpu.mapped) - {id1, id2}
    ensures gpu.liveViews == old(gpu.liveViews)
  {
    var view1 := gpu.GetMappedRange(id1);
    var view2 := gpu.GetMappedRange(id2);
    var flat1 := FlattenView(view1);
    var flat2 := FlattenView(view2);
    PrintPairs(gpu, flat1, flat2);
    gpu.DropView(id1);
    gpu.DropView(id2);
    gpu.Unmap(id1);
    gpu.Unmap(id2);
  }

  /** A mapped view cast to 512-item records, each flattened into its 4-word items. */
  method FlattenView(view: seq<Word>) returns (flat: seq<seq<Word>>)
    requires |view| % DEBUG_ARRAY_WORDS == 0
    ensures |view| % DEBUG_RECORD_WORDS == 0
    ensures flat == Chunks(view, DEBUG_RECORD_WORDS)
  {
    ItemsOfChunks(view, DEBUG_ARRAY_WORDS, DEBUG_RECORD_WORDS);
    flat := FlattenRecords(Chunks(view, DEBUG_ARRAY_WORDS));
  }

  /** The zip-and-enumerate loop: item i of each sequence printed together, up to the shorter length. */
  method PrintPairs(gpu: Gpu, flat1: seq<seq<Word>>, flat2: seq<seq<Word>>)
    modifies gpu`trace
    ensures gpu.trace == old(gpu.trace) + PairLines(flat1, flat2, Min(|flat1|, |flat2|))
  {
    var count := Min(|flat1|, |flat2|);
    for idx := 0 to count
      invariant gpu.trace == old(gpu.trace) + PairLines(flat1, flat2, idx)
    {
      assert PairLines(flat1, flat2, idx + 1) == PairLines(flat1, flat2, idx) + [Output(PairLine(idx, flat1[idx], flat2[idx]))];
      gpu.Record(Output(PairLine(idx, flat1[idx], flat2[idx])));
    }
  }

  lemma ArrayItems(len: nat)
    requires len % DEBUG_ARRAY_WORDS == 0
    ensures len % DEBUG_RECORD_WORDS == 0
  {
    var k := len / DEBUG_ARRAY_WORDS;
    assert len == (k * 512) * 4;
  }

  /** The `extend` loop: each 512-item record's items appended in turn. */
  method FlattenRecords(data: seq<seq<Word>>) returns (flat: seq<seq<Word>>)
    requires forall i | 0 <= i < |data| :: |data[i]| % DEBUG_RECORD_WORDS == 0
    ensures flat == ItemsOf(data, DEBUG_RECORD_WORDS)
  {
    flat := [];
    for i := 0 to |data|
      invariant flat == ItemsOf(data[..i], DEBUG_RECORD_WORDS)
    {
      assert data[..i + 1][..i] == data[..i];
      flat := flat + Chunks(data[i], DEBUG_RECORD_WORDS);
    }
    assert data[..|data|] == data;
  }

  // ---------------------------------------------------------------------------
  // The readback dispatch as written
  // ---------------------------------------------------------------------------

  /**
    What `futures::executor::block_on(rx)` yields in the two readbacks. The map
    callback sends its own result, success or failure, through a oneshot channel,
    so the receiver gets `Ok(result)` whenever the callback ran, and
    `Err(Canceled)` only when the sender was dropped without sending.
   */
  datatype Received = Delivered(result: MapOutcome) | Canceled

  /**
    How a readback as written ends: it completes having printed `printed`, or it
    calls `get_mapped_range` on buffer `buffer` (0 for the single readback, 1 or 2
    for the interleaved one) after its mapping failed, which wgpu refuses with a
    panic, having printed `printed` before that.
   */
  datatype ReadbackEnd =
    | Completed(printed: seq<Effect>)
    | MappedRangeRefused(printed: seq<Effect>, buffer: nat)

  /**
    `print_gpu_data` as written: `match result { Ok(_) => .. }` takes the read arm
    for every delivered callback result, failures included; only a cancelled
    channel reaches the error arm.
   */
  function PrintGpuDataAsWritten(contents: seq<Word>, objLabel: string, recordWords: nat,
                                 received: Received, isMapped: bool): ReadbackEnd
    requires recordWords > 0 && |contents| % recordWords == 0
  {
    match received
    case Canceled => Completed(PrintGpuDataTrace(contents, objLabel, recordWords, false))
    case Delivered(o) =>
      if MapSucceeds(o, isMapped) then Completed(PrintGpuDataTrace(contents, objLabel, recordWords, true))
      else MappedRangeRefused([Output(BufferSizeLine(WORD_BYTES * |contents|))], 0)
  }

  /**
    As written, the single readback prints its error line exactly when the channel
    was cancelled; a failure the device reports never reaches it and ends in a
    refused `get_mapped_range` instead. The modelled readback (`PrintGpuData`)
    prints the error line for that same input.
   */
  lemma ReportedFailureSkipsErrorArm(contents: seq<Word>, objLabel: string, n: nat, received: Received, isMapped: bool)
    requires n > 0 && |contents| % n == 0
    ensures var e := PrintGpuDataAsWritten(contents, objLabel, n, received, isMapped);
      && (Output(MapErrorLine(0)) in e.printed <==> received.Canceled?)
      && (received.Delivered? && !MapSucceeds(received.result, isMapped) ==>
            e == MappedRangeRefused([Output(BufferSizeLine(WORD_BYTES * |contents|))], 0)
            && Output(MapErrorLine(0)) in PrintGpuDataTrace(contents, objLabel, n, MapSucceeds(received.result, isMapped)))
      && (received.Delivered? && MapSucceeds(received.result, isMapped) ==>
            e == Completed(PrintGpuDataTrace(contents, objLabel, n, MapSucceeds(received.result, isMapped))))
  {
    var e := PrintGpuDataAsWritten(contents, objLabel, n, received, isMapped);
    if received.Delivered? && MapSucceeds(received.result, isMapped) {
      var t := PrintGpuDataTrace(contents, objLabel, n, true);
      var lines := RecordLines(objLabel, Chunks(contents, n));
      assert t == [Output(BufferSizeLine(WORD_BYTES * |contents|))] + lines;
      forall x | x in lines ensures x.Output? && x.line.RecordLine? {
        var i :| 0 <= i < |lines| && lines[i] == x;
      }
      assert Output(MapErrorLine(0)) !in t;
    }
  }

  /**
    `print_gpu_interleave_two_buffers` as written: the `(Ok(_), Ok(_))` arm is
    taken whenever both callbacks delivered a result, and it reads buffer 1's
    mapped range before buffer 2's; an error line is printed only for a
    cancelled channel.
   */
  function InterleaveAsWritten(c1: seq<Word>, c2: seq<Word>, mapped: set<BufferId>, id1: BufferId, id2: BufferId,
                               r1: Received, r2: Received): ReadbackEnd
    requires |c1| % DEBUG_RECORD_WORDS == 0 && |c2| % DEBUG_RECORD_WORDS == 0
  {
    match (r1, r2)
    case (Delivered(o1), Delivered(o2)) =>
      var (ok1, ok2) := InterleaveMapped(mapped, id1, id2, o1, o2);
      if !ok1 then MappedRangeRefused([], 1)
      else if !ok2 then MappedRangeRefused([], 2)
      else Completed(InterleaveTrace(c1, c2, true, true))
    case (Canceled, Delivered(_)) => Completed([Output(MapErrorLine(1))])
    case (Delivered(_), Canceled) => Completed([Output(MapErrorLine(2))])
    case (Canceled, Canceled) => Completed([Output(MapErrorLine(1)), Output(MapErrorLine(2))])
  }

  /**
    As written, the interleaved readback prints an error line for a buffer exactly
    when that buffer's channel was cancelled. With both results delivered and
    either mapping failed, it ends in a refused `get_mapped_range` on the first
    buffer that did not map, where the modelled readback
    (`PrintGpuInterleaveTwoBuffers`) prints that buffer's error line; with both
    mapped the two agree.
   */
  lemma InterleaveReportedFailureSkipsErrorArms(c1: seq<Word>, c2: seq<Word>, mapped: set<BufferId>,
                                                id1: BufferId, id2: BufferId, r1: Received, r2: Received)
    requires |c1| % DEBUG_RECORD_WORDS == 0 && |c2| % DEBUG_RECORD_WORDS == 0
    ensures var e := InterleaveAsWritten(c1, c2, mapped, id1, id2, r1, r2);
      && (Output(MapErrorLine(1)) in e.printed <==> r1.Canceled?)
      && (Output(MapErrorLine(2)) in e.printed <==> r2.Canceled?)
      && (r1.Delivered? && r2.Delivered? ==>
            var (ok1, ok2) := InterleaveMapped(mapped, id1, id2, r1.result, r2.result);
            var modelled := InterleaveTrace(c1, c2, ok1, ok2);
            && (!ok1 ==> e == MappedRangeRefused([], 1) && Output(MapErrorLine(1)) in modelled)
            && (ok1 && !ok2 ==> e == MappedRangeRefused([], 2) && Output(MapErrorLine(2)) in modelled)
            && (ok1 && ok2 ==> e == Completed(modelled)))
  {
    var e := InterleaveAsWritten(c1, c2, mapped, id1, id2, r1, r2);
    if r1.Delivered? && r2.Delivered? {
      var (ok1, ok2) := InterleaveMapped(mapped, id1, id2, r1.result, r2.result);
      if ok1 && ok2 {
        var a, b := Chunks(c1, DEBUG_RECORD_WORDS), Chunks(c2, DEBUG_RECORD_WORDS);
        var lines := PairLines(a, b, Min(|a|, |b|));
        assert e.printed == lines;
        forall x | x in lines ensures x.Output? && x.line.PairLine? {
          var i :| 0 <= i < |lines| && lines[i] == x;
        }
      }
    }
  }
}
