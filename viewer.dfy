/**
 * The discrete input-state machine of `SceneViewer::handle_event` in
 * src/lib.rs: the key-status map, the pointer grab, the absolute-mouse seed
 * buffer, the pose print on the Period key, and the start-up pose read
 * from `--camera`.
 *
 * Floats are the abstract type `F`. What is computed on them (the mouse-look
 * angle update, the movement integration, the text rendering of a float)
 * and the platform's scancodes are supplied as a `Platform` value.
 */
module Viewer {
  import opened Wrappers
  import opened Text
  import opened FixedArity

  newtype u32 = x: int | 0 <= x < 0x1_0000_0000
  newtype u16 = x: int | 0 <= x < 0x1_0000

  /** winit's `ElementState` of a key or a mouse button. */
  datatype ElementState = Pressed | Released

  /** winit's `MouseButton`. */
  datatype MouseButton = Left | Right | Middle | Back | Forward | Other(id: u16)

  /** A raw mouse-motion sample, glam's `DVec2` of two f64 values. */
  datatype Vec2 = Vec2(x: real, y: real)

  /** The camera's pitch and yaw. */
  datatype Orientation<F> = Orientation(pitch: F, yaw: F)

  /**
   * The events whose branches of `handle_event` touch the modelled state.
   * `OtherEvent` stands for every other event (redraw, close, resize, ...),
   * none of which changes it.
   */
  datatype Event =
    | AboutToWait(dt: real)
    | Focused(focus: bool)
    | KeyboardInput(scancode: u32, state: ElementState)
    | MouseInput(button: MouseButton, state: ElementState)
    | MouseMotion(delta: Vec2)
    | OtherEvent

  /**
   * The collaborators the model leaves abstract: the ESCAPE and PERIOD
   * scancodes of the platform, the mouse-look update of pitch and yaw by an
   * effective delta, the frame's movement integration (held keys, angles,
   * location and elapsed seconds to a new location), and the `Display`
   * rendering of a float.
   */
  datatype Platform<!F> = Platform(
    escape: u32,
    period: u32,
    look: (Orientation<F>, Vec2) -> Orientation<F>,
    travel: (map<u32, bool>, Orientation<F>, Vec3<F>, real) -> Vec3<F>,
    show: F -> string)

  /** The call an event makes on the pointer grabber, if any. */
  datatype GrabRequest = NoRequest | RequestGrab | RequestUngrab

  /** The fields of `SceneViewer` that event handling reads and writes. */
  datatype ViewerState<F> = ViewerState(
    absoluteMouse: bool,
    scancodeStatus: map<u32, bool>,
    grabbed: bool,
    lastMouseDelta: Option<Vec2>,
    cameraPitch: F,
    cameraYaw: F,
    cameraLocation: Vec3<F>)

  /** The new state, the grab request made and the pose line printed, if any. */
  datatype Reaction<F> = Reaction(state: ViewerState<F>, request: GrabRequest, printed: Option<string>)

  /** `button_pressed`: the recorded state of `key`, false if it was never seen. */
  function ButtonPressed(m: map<u32, bool>, key: u32): bool {
    key in m && m[key]
  }

  /** The line the Period key prints: "{x},{y},{z},{pitch},{yaw}". */
  function PoseLine<F>(show: F -> string, loc: Vec3<F>, pitch: F, yaw: F): string {
    show(loc.x) + "," + show(loc.y) + "," + show(loc.z) + "," + show(pitch) + "," + show(yaw)
  }

  /**
   * The state `SceneViewer::new` leaves: nothing pressed, not grabbed, no
   * mouse sample, and the pose from `camera_info` (0-2 the location, 3 the
   * pitch, 4 the yaw).
   */
  function Initial<F>(absoluteMouse: bool, cameraInfo: seq<F>): ViewerState<F>
    requires |cameraInfo| == 5
  {
    ViewerState(absoluteMouse, map[], false, None, cameraInfo[3], cameraInfo[4],
                Vec3(cameraInfo[0], cameraInfo[1], cameraInfo[2]))
  }

  /**
   * `camera_info` at start-up: the default pose without `--camera`, else
   * `extract_array` of its value; an `Err` here is the `unwrap` panic.
   */
  function CameraInfo<F>(camera: Option<string>, parse: string -> Option<F>, default: seq<F>): Result<seq<F>, string>
    requires |default| == 5
  {
    match camera
    case None => Ok(default)
    case Some(text) => ArrayValue(parse, text, 5)
  }

  /** One step of `handle_event`, as a function of the state before it. */
  function Handle<F>(s: ViewerState<F>, e: Event, p: Platform<F>): Reaction<F> {
    match e
    case AboutToWait(dt) =>
      var loc := p.travel(s.scancodeStatus, Orientation(s.cameraPitch, s.cameraYaw), s.cameraLocation, dt);
      var printed := if ButtonPressed(s.scancodeStatus, p.period)
                     then Some(PoseLine(p.show, loc, s.cameraPitch, s.cameraYaw)) else None;
      if ButtonPressed(s.scancodeStatus, p.escape)
      then Reaction(s.(cameraLocation := loc, grabbed := false), RequestUngrab, printed)
      else Reaction(s.(cameraLocation := loc), NoRequest, printed)
    case Focused(focus) =>
      if focus then Reaction(s, NoRequest, None)
      else Reaction(s.(grabbed := false), RequestUngrab, None)
    case KeyboardInput(code, state) =>
      Reaction(s.(scancodeStatus := s.scancodeStatus[code := state == Pressed]), NoRequest, None)
    case MouseInput(button, state) =>
      if button == Left && state == Pressed && !s.grabbed
      then Reaction(s.(grabbed := true), RequestGrab, None)
      else Reaction(s, NoRequest, None)
    case MouseMotion(d) =>
      if !s.grabbed then Reaction(s, NoRequest, None)
      else if s.absoluteMouse then
        match s.lastMouseDelta
        case None => Reaction(s.(lastMouseDelta := Some(d)), NoRequest, None)
        case Some(prev) =>
          var o := p.look(Orientation(s.cameraPitch, s.cameraYaw), Vec2((d.x - prev.x) / 4.0, (d.y - prev.y) / 4.0));
          Reaction(s.(lastMouseDelta := Some(d), cameraPitch := o.pitch, cameraYaw := o.yaw), NoRequest, None)
      else
        var o := p.look(Orientation(s.cameraPitch, s.cameraYaw), d);
        Reaction(s.(cameraPitch := o.pitch, cameraYaw := o.yaw), NoRequest, None)
    case OtherEvent => Reaction(s, NoRequest, None)
  }

  /** The state after handling the events in order. */
  function Run<F>(s: ViewerState<F>, es: seq<Event>, p: Platform<F>): ViewerState<F>
    decreases |es|
  {
    if es == [] then s else Handle(Run(s, es[..|es| - 1], p), es[|es| - 1], p).state
  }

  /** The state carried by the latest key event for `key` among `es`, if there is one. */
  function LastKeyEvent(es: seq<Event>, key: u32): Option<ElementState>
    decreases |es|
  {
    if es == [] then None
    else if es[|es| - 1].KeyboardInput? && es[|es| - 1].scancode == key then Some(es[|es| - 1].state)
    else LastKeyEvent(es[..|es| - 1], key)
  }

  /** A key event records only its own key: Pressed as true, Released as false. */
  lemma KeyEventSetsOnlyItsKey<F>(s: ViewerState<F>, code: u32, state: ElementState, p: Platform<F>, key: u32)
    ensures ButtonPressed(Handle(s, KeyboardInput(code, state), p).state.scancodeStatus, key)
            == if key == code then state == Pressed else ButtonPressed(s.scancodeStatus, key)
    ensures Handle(s, KeyboardInput(code, state), p).state.scancodeStatus.Keys == s.scancodeStatus.Keys + {code}
    ensures Handle(s, KeyboardInput(code, state), p).state
            == s.(scancodeStatus := Handle(s, KeyboardInput(code, state), p).state.scancodeStatus)
    ensures Handle(s, KeyboardInput(code, state), p).request == NoRequest
  {
  }

  /**
   * `button_pressed` after any events is the state of the latest key event
   * for that key, or what it was before if there was none.
   */
  lemma {:induction false} ButtonPressedIsLastRecorded<F>(s: ViewerState<F>, es: seq<Event>, p: Platform<F>, key: u32)
    ensures ButtonPressed(Run(s, es, p).scancodeStatus, key)
            == match LastKeyEvent(es, key)
               case None => ButtonPressed(s.scancodeStatus, key)
               case Some(state) => state == Pressed
    decreases |es|
  {
    if es != [] {
      ButtonPressedIsLastRecorded(s, es[..|es| - 1], p, key);
    }
  }

  /** A key no event has mentioned since start-up reads as not pressed. */
  lemma NeverSeenKeyNotPressed<F>(absoluteMouse: bool, cameraInfo: seq<F>, es: seq<Event>, p: Platform<F>, key: u32)
    requires |cameraInfo| == 5
    requires LastKeyEvent(es, key).None?
    ensures !ButtonPressed(Run(Initial(absoluteMouse, cameraInfo), es, p).scancodeStatus, key)
  {
    ButtonPressedIsLastRecorded(Initial(absoluteMouse, cameraInfo), es, p, key);
  }

  /**
   * Grab gating: only a left press while not grabbed requests a grab; focus
   * loss, or Escape held at a tick, requests an ungrab (grabbed or not); the
   * grab flag follows the request and is otherwise kept.
   */
  lemma GrabGating<F>(s: ViewerState<F>, e: Event, p: Platform<F>)
    ensures Handle(s, e, p).request == RequestGrab <==> e == MouseInput(Left, Pressed) && !s.grabbed
    ensures Handle(s, e, p).request == RequestUngrab <==>
              e == Focused(false) || (e.AboutToWait? && ButtonPressed(s.scancodeStatus, p.escape))
    ensures Handle(s, e, p).state.grabbed == match Handle(s, e, p).request
                                             case RequestGrab => true
                                             case RequestUngrab => false
                                             case NoRequest => s.grabbed
  {
  }

  /** Mouse motion while not grabbed changes nothing, however many samples arrive. */
  lemma {:induction false} UngrabbedMotionIgnored<F>(s: ViewerState<F>, es: seq<Event>, p: Platform<F>)
    requires !s.grabbed
    requires forall i :: 0 <= i < |es| ==> es[i].MouseMotion?
    ensures Run(s, es, p) == s
    decreases |es|
  {
    if es != [] {
      UngrabbedMotionIgnored(s, es[..|es| - 1], p);
    }
  }

  /**
   * The absolute-mouse seed is never cleared: once a sample is stored, every
   * later state holds one, across ungrabs and re-grabs alike.
   */
  lemma {:induction false} SeedPersists<F>(s: ViewerState<F>, es: seq<Event>, p: Platform<F>)
    requires s.lastMouseDelta.Some?
    ensures Run(s, es, p).lastMouseDelta.Some?
    decreases |es|
  {
    if es != [] {
      SeedPersists(s, es[..|es| - 1], p);
    }
  }

  /**
   * The mouse mode never changes, and in relative mode the seed buffer is
   * never touched.
   */
  lemma {:induction false} RelativeModeKeepsSeed<F>(s: ViewerState<F>, es: seq<Event>, p: Platform<F>)
    ensures Run(s, es, p).absoluteMouse == s.absoluteMouse
    ensures !s.absoluteMouse ==> Run(s, es, p).lastMouseDelta == s.lastMouseDelta
    decreases |es|
  {
    if es != [] {
      RelativeModeKeepsSeed(s, es[..|es| - 1], p);
    }
  }

  /**
   * In absolute mode only the very first grabbed sample is swallowed: after
   * an ungrab and a re-grab the next sample is differenced against the one
   * stored before the ungrab, divided by 4.
   */
  lemma RegrabDoesNotReseed<F>(s: ViewerState<F>, a: Vec2, b: Vec2, p: Platform<F>)
    requires s.absoluteMouse && s.grabbed && s.lastMouseDelta.None?
    ensures Handle(s, MouseMotion(a), p).state == s.(lastMouseDelta := Some(a))
    ensures var r := Run(s, [MouseMotion(a), Focused(false), MouseInput(Left, Pressed), MouseMotion(b)], p);
            var o := p.look(Orientation(s.cameraPitch, s.cameraYaw), Vec2((b.x - a.x) / 4.0, (b.y - a.y) / 4.0));
            r == s.(lastMouseDelta := Some(b), cameraPitch := o.pitch, cameraYaw := o.yaw)
  {
    var es := [MouseMotion(a), Focused(false), MouseInput(Left, Pressed), MouseMotion(b)];
    var s1 := s.(lastMouseDelta := Some(a));
    var s2 := s1.(grabbed := false);
    var s3 := s1;
    assert Run(s, es[..0], p) == s;
    assert es[..1][..0] == es[..0];
    assert Run(s, es[..1], p) == s1;
    assert es[..2][..1] == es[..1];
    assert Run(s, es[..2], p) == s2;
    assert es[..3][..2] == es[..2];
    assert Run(s, es[..3], p) == s3;
    assert es[..4] == es;
  }

  /** A float rendering with no ',' and no edge white space that parses back to the float. */
  ghost predicate RendersExactly<F>(show: F -> string, parse: string -> Option<F>, v: F) {
    && ',' !in show(v)
    && (show(v) == [] || (!IsWhitespace(show(v)[0]) && !IsWhitespace(show(v)[|show(v)| - 1])))
    && parse(show(v)) == Some(v)
  }

  /** The pose line is the five renderings joined with ','. */
  lemma PoseLineIsJoin<F>(show: F -> string, loc: Vec3<F>, pitch: F, yaw: F)
    ensures PoseLine(show, loc, pitch, yaw) == Join([show(loc.x), show(loc.y), show(loc.z), show(pitch), show(yaw)], ',')
  {
    var texts := [show(loc.x), show(loc.y), show(loc.z), show(pitch), show(yaw)];
    var j4 := Join(texts[4..], ',');
    assert texts[4..] == [show(yaw)];
    assert j4 == show(yaw);
    var j3 := Join(texts[3..], ',');
    assert texts[3..][1..] == texts[4..];
    assert j3 == show(pitch) + "," + show(yaw);
    var j2 := Join(texts[2..], ',');
    assert texts[2..][1..] == texts[3..];
    assert j2 == show(loc.z) + "," + j3;
    var j1 := Join(texts[1..], ',');
    assert texts[1..][1..] == texts[2..];
    assert j1 == show(loc.y) + "," + j2;
    assert Join(texts, ',') == show(loc.x) + "," + j1;
  }

  /**
   * The printed pose fed back as `--camera` gives the same five values, and
   * the state built from them has the printed location, pitch and yaw.
   */
  lemma PoseLineRoundTrip<F>(show: F -> string, parse: string -> Option<F>, loc: Vec3<F>, pitch: F, yaw: F,
                             default: seq<F>, absoluteMouse: bool)
    requires |default| == 5
    requires RendersExactly(show, parse, loc.x) && RendersExactly(show, parse, loc.y)
    requires RendersExactly(show, parse, loc.z)
    requires RendersExactly(show, parse, pitch) && RendersExactly(show, parse, yaw)
    ensures CameraInfo(Some(PoseLine(show, loc, pitch, yaw)), parse, default) == Ok([loc.x, loc.y, loc.z, pitch, yaw])
    ensures var s := Initial(absoluteMouse, [loc.x, loc.y, loc.z, pitch, yaw]);
            s.cameraLocation == loc && s.cameraPitch == pitch && s.cameraYaw == yaw
  {
    var vs := [loc.x, loc.y, loc.z, pitch, yaw];
    var texts := [show(loc.x), show(loc.y), show(loc.z), show(pitch), show(yaw)];
    forall i | 0 <= i < |texts| ensures texts[i] == show(vs[i]) && RendersExactly(show, parse, vs[i]) {
    }
    PoseLineIsJoin(show, loc, pitch, yaw);
    JoinedValuesParseBack(parse, texts, vs);
  }

  /**
   * At a tick the pose line is printed exactly when Period is held, and it
   * shows the pose the tick leaves; fed back as `--camera` it restores it.
   */
  lemma PrintedPoseRestores<F>(s: ViewerState<F>, dt: real, p: Platform<F>, parse: string -> Option<F>,
                               default: seq<F>)
    requires |default| == 5
    ensures Handle(s, AboutToWait(dt), p).printed.Some? <==> ButtonPressed(s.scancodeStatus, p.period)
    ensures var t := Handle(s, AboutToWait(dt), p).state;
            && t.cameraPitch == s.cameraPitch && t.cameraYaw == s.cameraYaw
            && (Handle(s, AboutToWait(dt), p).printed.Some? ==>
                  Handle(s, AboutToWait(dt), p).printed.value == PoseLine(p.show, t.cameraLocation, t.cameraPitch, t.cameraYaw))
    ensures var t := Handle(s, AboutToWait(dt), p).state;
            var line := Handle(s, AboutToWait(dt), p).printed;
            line.Some? && RendersExactly(p.show, parse, t.cameraLocation.x)
            && RendersExactly(p.show, parse, t.cameraLocation.y) && RendersExactly(p.show, parse, t.cameraLocation.z)
            && RendersExactly(p.show, parse, t.cameraPitch) && RendersExactly(p.show, parse, t.cameraYaw)
            ==> CameraInfo(line, parse, default).Ok? &&
                var u := Initial(s.absoluteMouse, CameraInfo(line, parse, default).value);
                u.cameraLocation == t.cameraLocation && u.cameraPitch == t.cameraPitch && u.cameraYaw == t.cameraYaw
  {
    var r := Handle(s, AboutToWait(dt), p);
    var t := r.state;
    if r.printed.Some? && RendersExactly(p.show, parse, t.cameraLocation.x)
       && RendersExactly(p.show, parse, t.cameraLocation.y) && RendersExactly(p.show, parse, t.cameraLocation.z)
       && RendersExactly(p.show, parse, t.cameraPitch) && RendersExactly(p.show, parse, t.cameraYaw) {
      PoseLineRoundTrip(p.show, parse, t.cameraLocation, t.cameraPitch, t.cameraYaw, default, s.absoluteMouse);
    }
  }

  /**
   * `SceneViewer` as far as event handling goes: the fields the
   * key, mouse, focus and tick branches of `handle_event` update in place.
   * `grabbed` stands for the grabber's state, which `request_grab` sets and
   * `request_ungrab` clears.
   */
  class SceneViewer<F> {
    const absoluteMouse: bool
    var scancodeStatus: map<u32, bool>
    var grabbed: bool
    var lastMouseDelta: Option<Vec2>
    var cameraPitch: F
    var cameraYaw: F
    var cameraLocation: Vec3<F>

    /** The fields, as a value. */
    function State(): ViewerState<F>
      reads this
    {
      ViewerState(absoluteMouse, scancodeStatus, grabbed, lastMouseDelta, cameraPitch, cameraYaw, cameraLocation)
    }

    /** `SceneViewer::new`, from the mouse mode and the five `camera_info` values. */
    constructor (absoluteMouse: bool, cameraInfo: seq<F>)
      requires |cameraInfo| == 5
      ensures State() == Initial(absoluteMouse, cameraInfo)
    {
      this.absoluteMouse := absoluteMouse;
      scancodeStatus := map[];
      grabbed := false;
      lastMouseDelta := None;
      cameraPitch := cameraInfo[3];
      cameraYaw := cameraInfo[4];
      cameraLocation := Vec3(cameraInfo[0], cameraInfo[1], cameraInfo[2]);
    }

    /** The KeyboardInput branch: record the key's new state, and only that. */
    method HandleKey(scancode: u32, state: ElementState)
      modifies this
      ensures scancodeStatus == old(scancodeStatus)[scancode := state == Pressed]
      ensures State() == old(State()).(scancodeStatus := scancodeStatus)
    {
      scancodeStatus := scancodeStatus[scancode := match state case Pressed => true case Released => false];
    }

    /** The MouseInput branch: a left press grabs the pointer unless it is grabbed already. */
    method HandleMouseButton(button: MouseButton, state: ElementState) returns (request: GrabRequest)
      modifies this
      ensures request == if button == Left && state == Pressed && !old(grabbed) then RequestGrab else NoRequest
      ensures State() == if request == RequestGrab then old(State()).(grabbed := true) else old(State())
    {
      request := NoRequest;
      if button == Left && state == Pressed {
        if !grabbed {
          request := RequestGrab;
          grabbed := true;
        }
      }
    }

    /** The Focused branch: losing focus ungrabs the pointer. */
    method HandleFocus(focus: bool) returns (request: GrabRequest)
      modifies this
      ensures request == if focus then NoRequest else RequestUngrab
      ensures State() == if focus then old(State()) else old(State()).(grabbed := false)
    {
      request := NoRequest;
      if !focus {
        request := RequestUngrab;
        grabbed := false;
      }
    }

    /**
     * The MouseMotion branch: dropped unless grabbed; in absolute mode every
     * sample is stored, the first one ever is swallowed and later ones are
     * differenced against the stored one and divided by 4; in relative mode
     * the sample is the delta.
     */
    method HandleMouseMotion(delta: Vec2, look: (Orientation<F>, Vec2) -> Orientation<F>)
      modifies this
      ensures !old(grabbed) ==> State() == old(State())
      ensures old(grabbed) && absoluteMouse && old(lastMouseDelta).None? ==>
                State() == old(State()).(lastMouseDelta := Some(delta))
      ensures old(grabbed) && absoluteMouse && old(lastMouseDelta).Some? ==>
                var prev := old(lastMouseDelta).value;
                var o := look(Orientation(old(cameraPitch), old(cameraYaw)),
                              Vec2((delta.x - prev.x) / 4.0, (delta.y - prev.y) / 4.0));
                State() == old(State()).(lastMouseDelta := Some(delta), cameraPitch := o.pitch, cameraYaw := o.yaw)
      ensures old(grabbed) && !absoluteMouse ==>
                var o := look(Orientation(old(cameraPitch), old(cameraYaw)), delta);
                State() == old(State()).(cameraPitch := o.pitch, cameraYaw := o.yaw)
    {
      if !grabbed {
        return;
      }
      var mouseDelta: Vec2;
      if absoluteMouse {
        var prev := lastMouseDelta;
        lastMouseDelta := Some(delta);
        match prev {
          case None =>
            return;
          case Some(q) =>
            mouseDelta := Vec2((delta.x - q.x) / 4.0, (delta.y - q.y) / 4.0);
        }
      } else {
        mouseDelta := delta;
      }
      var o := look(Orientation(cameraPitch, cameraYaw), mouseDelta);
      cameraYaw := o.yaw;
      cameraPitch := o.pitch;
    }

    /**
     * The AboutToWait branch: move the camera, print the pose if Period is
     * held, and ungrab the pointer if Escape is held.
     */
    method HandleTick(dt: real, p: Platform<F>) returns (request: GrabRequest, printed: Option<string>)
      modifies this
      ensures cameraLocation == p.travel(old(scancodeStatus), Orientation(old(cameraPitch), old(cameraYaw)),
                                         old(cameraLocation), dt)
      ensures printed == if ButtonPressed(old(scancodeStatus), p.period)
                         then Some(PoseLine(p.show, cameraLocation, cameraPitch, cameraYaw)) else None
      ensures request == if ButtonPressed(old(scancodeStatus), p.escape) then RequestUngrab else NoRequest
      ensures State() == old(State()).(cameraLocation := cameraLocation, grabbed := old(grabbed) && request != RequestUngrab)
    {
      cameraLocation := p.travel(scancodeStatus, Orientation(cameraPitch, cameraYaw), cameraLocation, dt);
      printed := None;
      if ButtonPressed(scancodeStatus, p.period) {
        printed := Some(PoseLine(p.show, cameraLocation, cameraPitch, cameraYaw));
      }
      request := NoRequest;
      if ButtonPressed(scancodeStatus, p.escape) {
        request := RequestUngrab;
        grabbed := false;
      }
    }

    /** `handle_event`: dispatch on the event; the result is `Handle` of the state before. */
    method HandleEvent(e: Event, p: Platform<F>) returns (request: GrabRequest, printed: Option<string>)
      modifies this
      ensures State() == Handle(old(State()), e, p).state
      ensures request == Handle(old(State()), e, p).request
      ensures printed == Handle(old(State()), e, p).printed
    {
      request, printed := NoRequest, None;
      match e {
        case AboutToWait(dt) =>
          request, printed := HandleTick(dt, p);
        case Focused(focus) =>
          request := HandleFocus(focus);
        case KeyboardInput(code, state) =>
          HandleKey(code, state);
        case MouseInput(button, state) =>
          request := HandleMouseButton(button, state);
        case MouseMotion(d) =>
          HandleMouseMotion(d, p.look);
        case OtherEvent =>
      }
    }
  }
}
