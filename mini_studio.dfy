/**
 * The control-surface router: decodes controller messages from the US-428 into button,
 * slider and knob events by edge detection against stored control arrays, and turns those
 * events into transport actions (play, record, stop) and overlay commands for the live
 * compositor thread.
 *
 * The live thread is referred to only by the calls the router makes on it, kept as a log;
 * what each call does to the thread is the LiveThread model's business.
 */
module Router {
  import opened QtTypes

  /** The number of entries in each control array, and so one past the highest parameter. */
  const ControlCount: nat := 256

  /** The buttons that carry a name; Mute and Select cover channels 5 to 8. */
  datatype Button =
    | Rew | Fwd | Stop | Play | Record
    | Aux1 | Aux2 | Aux3 | Aux4
    | Asgn | F1 | F2 | F3
    | High | HiMid | LowMid | Low
    | InputCD
    | Mute(channel: nat) | Select(channel: nat)

  /** The faders Channel1 to Channel8. */
  datatype Slider = Channel(number: nat)

  datatype Knob = BigDial | Gain | Freq | Q | Pan

  /** The button name table: which controller parameter is which button. */
  function ButtonOf(p: nat): Option<Button>
  {
    if p == 19 then Some(Rew)
    else if p == 20 then Some(Fwd)
    else if p == 21 then Some(Stop)
    else if p == 22 then Some(Play)
    else if p == 23 then Some(Record)
    else if 48 <= p <= 51 then Some([Aux1, Aux2, Aux3, Aux4][p - 48])
    else if p == 52 then Some(Asgn)
    else if 53 <= p <= 55 then Some([F1, F2, F3][p - 53])
    else if 44 <= p <= 47 then Some([High, HiMid, LowMid, Low][p - 44])
    else if p == 255 then Some(InputCD)
    else if 4 <= p <= 7 then Some(Mute(p + 1))
    else if 36 <= p <= 39 then Some(Select(p - 31))
    else None
  }

  /** The slider name table: parameters 64 to 71 are Channel1 to Channel8. */
  function SliderOf(p: nat): Option<Slider>
  {
    if 64 <= p <= 71 then Some(Channel(p - 63)) else None
  }

  /** The knob name table. */
  function KnobOf(p: nat): Option<Knob>
  {
    if p == 96 then Some(BigDial)
    else if p == 72 then Some(Gain)
    else if p == 73 then Some(Freq)
    else if p == 74 then Some(Q)
    else if p == 77 then Some(Pan)
    else None
  }

  /** No parameter names two controls, so the order the tables are consulted in does not matter. */
  lemma NamesDisjoint(p: nat)
    ensures ButtonOf(p).Some? ==> SliderOf(p).None? && KnobOf(p).None?
    ensures SliderOf(p).Some? ==> KnobOf(p).None?
  {
  }

  /** A sequencer event: a controller change with its parameter and value, or any other kind. */
  datatype MidiEvent = Controller(param: nat, value: int) | OtherEvent

  /** The stored state of every control: pressed, fader position, knob value. */
  datatype Controls = Controls(buttons: seq<bool>, sliders: seq<real>, knobs: seq<int>)

  ghost predicate ControlsValid(c: Controls)
  {
    |c.buttons| == ControlCount && |c.sliders| == ControlCount && |c.knobs| == ControlCount
  }

  /** What onMIDIReceive does with an event after updating the arrays. */
  datatype Outcome =
    | Pressed(param: nat, button: Button, press: bool)
    | Moved(param: nat, slider: Slider, position: real)
    | Turned(param: nat, knob: Knob, up: bool)
    | Unchanged
    | Logged

  datatype Decoding = Decoding(controls: Controls, outcome: Outcome)

  /** Parameters past the end of the button array are read as its last index. */
  function Clamp(param: nat): (p: nat)
    ensures p < ControlCount
    ensures param < ControlCount ==> p == param
  {
    if param >= ControlCount then ControlCount - 1 else param
  }

  /** A fader position: the controller value over 127. */
  function Position(value: int): real
  {
    value as real / 127.0
  }

  /**
   * onMIDIReceive as a function of the stored controls: a named button is pressed exactly
   * at value 127, a slider sits at value/127, a knob stores the value; each reports an
   * event only when the stored state changes. Anything else goes to the logger.
   */
  function Decode(c: Controls, ev: MidiEvent): (d: Decoding)
    requires ControlsValid(c)
    ensures ControlsValid(d.controls)
    ensures d.outcome.Logged? || d.outcome.Unchanged? ==> d.controls == c
    ensures d.outcome.Pressed? ==>
              (d.outcome.param < ControlCount && d.controls.buttons[d.outcome.param] == d.outcome.press != c.buttons[d.outcome.param])
    ensures d.outcome.Moved? ==>
              (d.outcome.param < ControlCount && d.controls.sliders[d.outcome.param] == d.outcome.position != c.sliders[d.outcome.param])
  {
    match ev
    case OtherEvent => Decoding(c, Logged)
    case Controller(param, value) =>
      var p := Clamp(param);
      if ButtonOf(p).Some? then
        var press := value == 127;
        if c.buttons[p] != press then Decoding(c.(buttons := c.buttons[p := press]), Pressed(p, ButtonOf(p).value, press))
        else Decoding(c, Unchanged)
      else if SliderOf(p).Some? then
        var v := Position(value);
        if c.sliders[p] != v then Decoding(c.(sliders := c.sliders[p := v]), Moved(p, SliderOf(p).value, v))
        else Decoding(c, Unchanged)
      else if KnobOf(p).Some? then
        if c.knobs[p] != value then Decoding(c.(knobs := c.knobs[p := value]), Turned(p, KnobOf(p).value, value > c.knobs[p]))
        else Decoding(c, Unchanged)
      else Decoding(c, Logged)
  }

  /**
   * The clamp keeps every parameter inside the arrays and leaves in-range ones alone; every
   * parameter from 255 up therefore reads as the InputC+D button.
   */
  lemma ClampSpec(param: nat)
    ensures Clamp(param) < ControlCount
    ensures param < ControlCount ==> Clamp(param) == param
    ensures param >= ControlCount - 1 <==> ButtonOf(Clamp(param)) == Some(InputCD)
  {
  }

  /**
   * A named button: afterwards it is stored as pressed exactly when the value is 127, no
   * other control changes, and an event is reported exactly when the stored state changed.
   */
  lemma DecodeButton(c: Controls, param: nat, value: int)
    requires ControlsValid(c) && ButtonOf(Clamp(param)).Some?
    ensures var p := Clamp(param);
            var d := Decode(c, Controller(param, value));
            && ControlsValid(d.controls)
            && d.controls.buttons[p] == (value == 127)
            && (forall i :: 0 <= i < ControlCount && i != p ==> d.controls.buttons[i] == c.buttons[i])
            && d.controls.sliders == c.sliders && d.controls.knobs == c.knobs
            && (d.outcome != Unchanged <==> c.buttons[p] != (value == 127))
            && (d.outcome != Unchanged ==> d.outcome == Pressed(p, ButtonOf(p).value, value == 127))
  {
  }

  /** A named slider: stored at value/127, reported exactly when that differs from the stored position. */
  lemma DecodeSlider(c: Controls, param: nat, value: int)
    requires ControlsValid(c) && SliderOf(Clamp(param)).Some?
    ensures var p := Clamp(param);
            var d := Decode(c, Controller(param, value));
            && ControlsValid(d.controls)
            && d.controls.sliders[p] == value as real / 127.0
            && (forall i :: 0 <= i < ControlCount && i != p ==> d.controls.sliders[i] == c.sliders[i])
            && d.controls.buttons == c.buttons && d.controls.knobs == c.knobs
            && (d.outcome != Unchanged <==> c.sliders[p] != value as real / 127.0)
            && (d.outcome != Unchanged ==> d.outcome == Moved(p, SliderOf(p).value, value as real / 127.0))
  {
    NamesDisjoint(Clamp(param));
  }

  /** A named knob: the value is stored, and a change is reported as up exactly when the value grew. */
  lemma DecodeKnob(c: Controls, param: nat, value: int)
    requires ControlsValid(c) && KnobOf(Clamp(param)).Some?
    ensures var p := Clamp(param);
            var d := Decode(c, Controller(param, value));
            && ControlsValid(d.controls)
            && d.controls.knobs[p] == value
            && (forall i :: 0 <= i < ControlCount && i != p ==> d.controls.knobs[i] == c.knobs[i])
            && d.controls.buttons == c.buttons && d.controls.sliders == c.sliders
            && (d.outcome != Unchanged <==> c.knobs[p] != value)
            && (d.outcome != Unchanged ==> d.outcome == Turned(p, KnobOf(p).value, value > c.knobs[p]))
  {
    NamesDisjoint(Clamp(param));
  }

  /** Unnamed parameters and other event kinds change nothing and go to the logger. */
  lemma DecodeLogged(c: Controls, ev: MidiEvent)
    requires ControlsValid(c)
    ensures Decode(c, ev).outcome == Logged <==>
              ev.OtherEvent? || (ButtonOf(Clamp(ev.param)).None? && SliderOf(Clamp(ev.param)).None? && KnobOf(Clamp(ev.param)).None?)
    ensures Decode(c, ev).outcome.Logged? || Decode(c, ev).outcome.Unchanged? ==> Decode(c, ev).controls == c
  {
  }

  /** Edge detection: the same message a second time reports nothing and changes nothing. */
  lemma DecodeRepeat(c: Controls, ev: MidiEvent)
    requires ControlsValid(c)
    ensures var d := Decode(c, ev);
            && ControlsValid(d.controls)
            && Decode(d.controls, ev).controls == d.controls
            && (Decode(d.controls, ev).outcome == Unchanged || Decode(d.controls, ev).outcome == Logged)
  {
  }

  /** A call the router makes on the live thread; Spawn is the construction of a new one. */
  datatype LiveCall =
    | Spawn
    | SetProjectName(name: string)
    | SetTitle(title: string)
    | SetSubTitle(subTitle: string)
    | SetSaving(saving: bool)
    | OnCameraEnabled(cameraOn: bool)
    | OnLogoEnabled(logoOn: bool)
    | OnMagEnabled(magOn: bool)
    | OnMagLevelChange(level: real)
    | OnPipSizeChange(size: real)
    | OnTitleEnabled(titleOn: bool)
    | OnHoldEnabled(holdOn: bool)
    | OnCameraOpacityChange(opacity: real)
    | StartThread
    | StopThread
    | WaitThread

  /** The texts the configuration window holds when a thread is started. */
  datatype ConfText = ConfText(projectName: string, title: string, subTitle: string)

  /** The values loadSettings restores at construction. */
  datatype Settings = Settings(magLevel: real, pipSize: real, titleEnabled: bool, logoEnabled: bool, cameraEnabled: bool)

  /** Everything the router keeps besides the control arrays; `live` says whether a live thread exists. */
  datatype RouterState = RouterState(
    live: bool,
    configVisible: bool,
    presentationVisible: bool,
    magEnabled: bool,
    magLevel: real,
    pipSizeEnabled: bool,
    pipSize: real,
    titleEnabled: bool,
    logoEnabled: bool,
    cameraEnabled: bool,
    holdEnabled: bool,
    calls: seq<LiveCall>)

  /** The calls that set up a new thread: the texts, the saving flag, every overlay setting, then start. */
  function SpawnCalls(r: RouterState, rec: bool, conf: ConfText): seq<LiveCall>
  {
    [ Spawn, SetProjectName(conf.projectName), SetTitle(conf.title), SetSubTitle(conf.subTitle), SetSaving(rec),
      OnCameraEnabled(r.cameraEnabled), OnLogoEnabled(r.logoEnabled), OnMagEnabled(r.magEnabled),
      OnMagLevelChange(r.magLevel), OnPipSizeChange(r.pipSize), OnTitleEnabled(r.titleEnabled), StartThread ]
  }

  /**
   * setRecording(run, rec): start a thread if none runs, or stop, wait for and drop the
   * running one; then pass the saving flag to whatever thread there is.
   */
  function SetRecordingStep(r: RouterState, run: bool, rec: bool, conf: ConfText): RouterState
  {
    var r1 :=
      if run && !r.live then r.(live := true, calls := r.calls + SpawnCalls(r, rec, conf))
      else if !run && r.live then r.(live := false, calls := r.calls + [StopThread, WaitThread])
      else r;
    if r1.live then r1.(calls := r1.calls + [SetSaving(rec)]) else r1
  }

  /** showMagnifier: store the flag and pass it to a running thread. */
  function ShowMagnifierStep(r: RouterState, show: bool): RouterState
  {
    r.(magEnabled := show, calls := r.calls + (if r.live then [OnMagEnabled(show)] else []))
  }

  /** The transport half of onButtonEvent, taken on release only. */
  function ReleaseStep(r: RouterState, b: Button, conf: ConfText): (r2: RouterState)
    ensures b != Play && b != Record && b != Stop ==> r2.live == r.live
  {
    if b == Play then SetRecordingStep(r, true, false, conf)
    else if b == Record then SetRecordingStep(r, true, true, conf)
    else if b == Stop then SetRecordingStep(r, false, false, conf)
    else if b == InputCD then r.(configVisible := !r.configVisible)
    else r
  }

  /** The overlay half of onButtonEvent, taken on press and release. */
  function OverlayStep(r: RouterState, b: Button, pressed: bool): (r2: RouterState)
    ensures r2.live == r.live
  {
    if b == F1 || b == F2 || b == F3 then FunctionKeyStep(r, b, pressed)
    else if b == Aux1 || b == Aux2 || b == Aux3 || b == Aux4 then AuxStep(r, b, pressed)
    else r
  }

  /** F1 shows the magnifier while held, F2 holds the grab while held, F3 selects PIP sizing while held. */
  function FunctionKeyStep(r: RouterState, b: Button, pressed: bool): RouterState
  {
    if b == F1 then (if r.live then ShowMagnifierStep(r, pressed) else r)
    else if b == F2 then r.(holdEnabled := pressed, calls := r.calls + (if r.live then [OnHoldEnabled(pressed)] else []))
    else if b == F3 then (if r.live then r.(pipSizeEnabled := pressed) else r)
    else r
  }

  /** On press, Aux3 toggles the presentation window and, with a thread, Aux1, Aux2 and Aux4 toggle camera, title and logo. */
  function AuxStep(r: RouterState, b: Button, pressed: bool): RouterState
  {
    if !pressed then r
    else if b == Aux3 then r.(presentationVisible := !r.presentationVisible)
    else if !r.live then r
    else if b == Aux1 then r.(cameraEnabled := !r.cameraEnabled, calls := r.calls + [OnCameraEnabled(!r.cameraEnabled)])
    else if b == Aux2 then r.(titleEnabled := !r.titleEnabled, calls := r.calls + [OnTitleEnabled(!r.titleEnabled)])
    else if b == Aux4 then r.(logoEnabled := !r.logoEnabled, calls := r.calls + [OnLogoEnabled(!r.logoEnabled)])
    else r
  }

  /** onButtonEvent: the transport half first (on release), then the overlay half. */
  function ButtonStep(r: RouterState, b: Button, pressed: bool, conf: ConfText): (r2: RouterState)
    ensures pressed || (b != Play && b != Record && b != Stop) ==> r2.live == r.live
  {
    OverlayStep(if pressed then r else ReleaseStep(r, b, conf), b, pressed)
  }

  /** onSliderEvent: Channel1 sets the camera opacity of a running thread. */
  function SliderStep(r: RouterState, s: Slider, position: real): (r2: RouterState)
    ensures r2.(calls := r.calls) == r
    ensures r2 != r ==> s == Channel(1) && r.live && r2.calls == r.calls + [OnCameraOpacityChange(position)]
  {
    if s == Channel(1) && r.live then r.(calls := r.calls + [OnCameraOpacityChange(position)]) else r
  }

  /** One BigDial click: the level plus or minus 5% of itself. */
  function Nudged(x: real, up: bool): real
  {
    x + x * (if up then 1.0 else -1.0) * 0.05
  }

  /**
   * onKnobEvent: BigDial nudges the magnifier level while the magnifier is on, otherwise the
   * PIP size while PIP sizing is on, both only with a running thread and only to a positive value.
   */
  function KnobStep(r: RouterState, k: Knob, up: bool): (r2: RouterState)
    ensures r2.(magLevel := r.magLevel, pipSize := r.pipSize, calls := r.calls) == r
    ensures r2 != r ==> k == BigDial && r.live && |r2.calls| == |r.calls| + 1
    ensures r2.magLevel != r.magLevel ==> r2.magLevel > 0.0 && r2.pipSize == r.pipSize
    ensures r2.pipSize != r.pipSize ==> r2.pipSize > 0.0 && r2.magLevel == r.magLevel
  {
    if k != BigDial then r
    else if r.magEnabled && r.live then
      var level := Nudged(r.magLevel, up);
      if level > 0.0 then r.(magLevel := level, calls := r.calls + [OnMagLevelChange(level)]) else r
    else if r.pipSizeEnabled && r.live then
      var size := Nudged(r.pipSize, up);
      if size > 0.0 then r.(pipSize := size, calls := r.calls + [OnPipSizeChange(size)]) else r
    else r
  }

  /** What onMIDIReceive does after decoding: hand the event to its handler. */
  function Dispatch(r: RouterState, o: Outcome, conf: ConfText): (r2: RouterState)
    ensures o.Unchanged? || o.Logged? ==> r2 == r
    ensures !o.Pressed? ==> r2.live == r.live
  {
    match o
    case Pressed(_, b, press) => ButtonStep(r, b, press, conf)
    case Moved(_, s, v) => SliderStep(r, s, v)
    case Turned(_, k, up) => KnobStep(r, k, up)
    case _ => r
  }

  /** A state that differs from r at most in the thread, the visibility flags and the call log. */
  ghost predicate SameSettings(r: RouterState, r2: RouterState)
  {
    && r2.magEnabled == r.magEnabled && r2.magLevel == r.magLevel && r2.pipSizeEnabled == r.pipSizeEnabled
    && r2.pipSize == r.pipSize && r2.titleEnabled == r.titleEnabled && r2.logoEnabled == r.logoEnabled
    && r2.cameraEnabled == r.cameraEnabled && r2.holdEnabled == r.holdEnabled
    && r2.configVisible == r.configVisible && r2.presentationVisible == r.presentationVisible
  }

  /**
   * After setRecording a thread exists exactly when run asks for one. A running thread
   * is kept and only told the saving flag; a new one is set up from the current settings;
   * stopping asks the thread to stop and waits for it. No setting changes.
   */
  lemma SetRecordingSpec(r: RouterState, run: bool, rec: bool, conf: ConfText)
    ensures var r2 := SetRecordingStep(r, run, rec, conf);
            && r2.live == run
            && SameSettings(r, r2)
            && (run && r.live ==> r2.calls == r.calls + [SetSaving(rec)])
            && (run && !r.live ==> r2.calls == r.calls + SpawnCalls(r, rec, conf) + [SetSaving(rec)])
            && (!run && r.live ==> r2.calls == r.calls + [StopThread, WaitThread])
            && (!run && !r.live ==> r2.calls == r.calls)
  {
    var r2 := SetRecordingStep(r, run, rec, conf);
    if run && !r.live {
      var r1 := r.(live := true, calls := r.calls + SpawnCalls(r, rec, conf));
      assert r2 == r1.(calls := r1.calls + [SetSaving(rec)]);
    } else if !run && r.live {
      assert r2 == r.(live := false, calls := r.calls + [StopThread, WaitThread]);
    } else if run {
      assert r2 == r.(calls := r.calls + [SetSaving(rec)]);
    } else {
      assert r2 == r;
    }
  }

  /**
   * A new thread receives the project texts, the saving flag and the camera, logo,
   * magnifier, level, PIP size and title settings before it starts, but never the hold flag.
   */
  lemma SpawnForwardsSettings(r: RouterState, rec: bool, conf: ConfText)
    ensures var cs := SpawnCalls(r, rec, conf);
            && cs[0] == Spawn && cs[|cs| - 1] == StartThread
            && SetSaving(rec) in cs && OnCameraEnabled(r.cameraEnabled) in cs && OnLogoEnabled(r.logoEnabled) in cs
            && OnMagEnabled(r.magEnabled) in cs && OnMagLevelChange(r.magLevel) in cs
            && OnPipSizeChange(r.pipSize) in cs && OnTitleEnabled(r.titleEnabled) in cs
            && (forall i :: 0 <= i < |cs| ==> !cs[i].OnHoldEnabled?)
  {
    var cs := SpawnCalls(r, rec, conf);
    assert cs[4] == SetSaving(rec) && cs[5] == OnCameraEnabled(r.cameraEnabled) && cs[6] == OnLogoEnabled(r.logoEnabled);
    assert cs[7] == OnMagEnabled(r.magEnabled) && cs[8] == OnMagLevelChange(r.magLevel);
    assert cs[9] == OnPipSizeChange(r.pipSize) && cs[10] == OnTitleEnabled(r.titleEnabled);
  }

  /** Play, Record and Stop act on release only; pressing them changes nothing. */
  lemma TransportOnRelease(r: RouterState, conf: ConfText)
    ensures ButtonStep(r, Play, true, conf) == r && ButtonStep(r, Record, true, conf) == r && ButtonStep(r, Stop, true, conf) == r
    ensures ButtonStep(r, Play, false, conf) == SetRecordingStep(r, true, false, conf)
    ensures ButtonStep(r, Record, false, conf) == SetRecordingStep(r, true, true, conf)
    ensures ButtonStep(r, Stop, false, conf) == SetRecordingStep(r, false, false, conf)
  {
  }

  /**
   * Aux1, Aux2 and Aux4 flip the camera, title and logo settings on press with a running
   * thread and tell it the new value; a release or a missing thread changes nothing.
   */
  lemma AuxToggles(r: RouterState, conf: ConfText)
    ensures r.live ==> ButtonStep(r, Aux1, true, conf) == r.(cameraEnabled := !r.cameraEnabled, calls := r.calls + [OnCameraEnabled(!r.cameraEnabled)])
    ensures r.live ==> ButtonStep(r, Aux2, true, conf) == r.(titleEnabled := !r.titleEnabled, calls := r.calls + [OnTitleEnabled(!r.titleEnabled)])
    ensures r.live ==> ButtonStep(r, Aux4, true, conf) == r.(logoEnabled := !r.logoEnabled, calls := r.calls + [OnLogoEnabled(!r.logoEnabled)])
    ensures !r.live ==> ButtonStep(r, Aux1, true, conf) == r && ButtonStep(r, Aux2, true, conf) == r && ButtonStep(r, Aux4, true, conf) == r
    ensures ButtonStep(r, Aux1, false, conf) == r && ButtonStep(r, Aux2, false, conf) == r && ButtonStep(r, Aux4, false, conf) == r
  {
  }

  /** Two presses of Aux1 with a running thread bring the camera setting back to where it was. */
  lemma AuxTwiceRestores(r: RouterState, conf: ConfText)
    requires r.live
    ensures ButtonStep(ButtonStep(r, Aux1, true, conf), Aux1, true, conf).cameraEnabled == r.cameraEnabled
    ensures ButtonStep(ButtonStep(r, Aux1, true, conf), Aux1, true, conf).calls
         == r.calls + [OnCameraEnabled(!r.cameraEnabled), OnCameraEnabled(r.cameraEnabled)]
  {
  }

  /**
   * BigDial with a running thread scales the magnifier level by 1.05 (up) or 0.95 (down)
   * while the magnifier is on, else the PIP size while PIP sizing is on; a positive value
   * always passes the guard. Other knobs and a missing thread change nothing.
   */
  lemma BigDialScales(r: RouterState, up: bool)
    ensures var r2 := KnobStep(r, BigDial, up);
            var f := if up then 1.05 else 0.95;
            && (r.live && r.magEnabled && r.magLevel > 0.0 ==>
                  r2 == r.(magLevel := r.magLevel * f, calls := r.calls + [OnMagLevelChange(r.magLevel * f)]))
            && (r.live && !r.magEnabled && r.pipSizeEnabled && r.pipSize > 0.0 ==>
                  r2 == r.(pipSize := r.pipSize * f, calls := r.calls + [OnPipSizeChange(r.pipSize * f)]))
            && (!r.live ==> r2 == r)
    ensures forall k :: k != BigDial ==> KnobStep(r, k, up) == r
  {
  }

  /** A non-positive level is never replaced: the guard rejects every nudge of it. */
  lemma BigDialGuard(r: RouterState, up: bool)
    requires r.magLevel <= 0.0 && r.pipSize <= 0.0
    ensures KnobStep(r, BigDial, up) == r
  {
  }

  /** One click up and one down leave the level at 99.75% of where it was, not where it started. */
  lemma BigDialDrifts(r: RouterState)
    requires r.live && r.magEnabled && r.magLevel > 0.0
    ensures KnobStep(KnobStep(r, BigDial, true), BigDial, false).magLevel == r.magLevel * 0.9975
  {
  }

  /** Positive magnifier level and PIP size, the invariant the BigDial guard keeps. */
  ghost predicate Positive(r: RouterState)
  {
    r.magLevel > 0.0 && r.pipSize > 0.0
  }

  /** One input from the control surface, as the handlers receive it. */
  datatype Input = ButtonInput(b: Button, pressed: bool) | SliderInput(s: Slider, position: real) | KnobInput(k: Knob, up: bool)

  function Handle(r: RouterState, i: Input, conf: ConfText): RouterState
  {
    match i
    case ButtonInput(b, p) => ButtonStep(r, b, p, conf)
    case SliderInput(s, v) => SliderStep(r, s, v)
    case KnobInput(k, up) => KnobStep(r, k, up)
  }

  function HandleAll(r: RouterState, ins: seq<Input>, conf: ConfText): RouterState
    decreases |ins|
  {
    if ins == [] then r else HandleAll(Handle(r, ins[0], conf), ins[1..], conf)
  }

  /** b continues a: a's calls are the first calls of b. */
  ghost predicate Extends(a: seq<LiveCall>, b: seq<LiveCall>)
  {
    |b| >= |a| && b[..|a|] == a
  }

  lemma ExtendsAppend(a: seq<LiveCall>, x: seq<LiveCall>)
    ensures Extends(a, a + x)
  {
    assert (a + x)[..|a|] == a;
  }

  lemma ExtendsTrans(a: seq<LiveCall>, b: seq<LiveCall>, c: seq<LiveCall>)
    requires Extends(a, b) && Extends(b, c)
    ensures Extends(a, c)
  {
    assert c[..|a|] == c[..|b|][..|a|];
  }

  /** The transport half keeps the level and size and only appends calls. */
  lemma ReleaseKeeps(r: RouterState, b: Button, conf: ConfText)
    ensures var r2 := ReleaseStep(r, b, conf);
            r2.magLevel == r.magLevel && r2.pipSize == r.pipSize && Extends(r.calls, r2.calls)
  {
    if b == Play {
      SetRecordingSpec(r, true, false, conf);
      ExtendsAppend(r.calls, [SetSaving(false)]);
      ExtendsAppend(r.calls, SpawnCalls(r, false, conf) + [SetSaving(false)]);
      assert r.calls + SpawnCalls(r, false, conf) + [SetSaving(false)] == r.calls + (SpawnCalls(r, false, conf) + [SetSaving(false)]);
    } else if b == Record {
      SetRecordingSpec(r, true, true, conf);
      ExtendsAppend(r.calls, [SetSaving(true)]);
      ExtendsAppend(r.calls, SpawnCalls(r, true, conf) + [SetSaving(true)]);
      assert r.calls + SpawnCalls(r, true, conf) + [SetSaving(true)] == r.calls + (SpawnCalls(r, true, conf) + [SetSaving(true)]);
    } else if b == Stop {
      SetRecordingSpec(r, false, false, conf);
      ExtendsAppend(r.calls, [StopThread, WaitThread]);
      ExtendsAppend(r.calls, []);
    } else {
      ExtendsAppend(r.calls, []);
      assert r.calls + [] == r.calls;
    }
  }

  /** The overlay half keeps the level and size and only appends calls. */
  lemma OverlayKeeps(r: RouterState, b: Button, pressed: bool)
    ensures var r2 := OverlayStep(r, b, pressed);
            r2.magLevel == r.magLevel && r2.pipSize == r.pipSize && Extends(r.calls, r2.calls)
  {
    ExtendsAppend(r.calls, []);
    assert r.calls + [] == r.calls;
    if b == F1 || b == F2 || b == F3 {
      FunctionKeyKeeps(r, b, pressed);
    } else if b == Aux1 || b == Aux2 || b == Aux3 || b == Aux4 {
      AuxKeeps(r, b, pressed);
    }
  }

  lemma FunctionKeyKeeps(r: RouterState, b: Button, pressed: bool)
    ensures var r2 := FunctionKeyStep(r, b, pressed);
            r2.magLevel == r.magLevel && r2.pipSize == r.pipSize && Extends(r.calls, r2.calls)
  {
    var x := if b == F1 && r.live then [OnMagEnabled(pressed)] else if b == F2 && r.live then [OnHoldEnabled(pressed)] else [];
    assert FunctionKeyStep(r, b, pressed).calls == r.calls + x;
    ExtendsAppend(r.calls, x);
  }

  lemma AuxKeeps(r: RouterState, b: Button, pressed: bool)
    ensures var r2 := AuxStep(r, b, pressed);
            r2.magLevel == r.magLevel && r2.pipSize == r.pipSize && Extends(r.calls, r2.calls)
  {
    if !pressed || b == Aux3 || !r.live || !(b == Aux1 || b == Aux2 || b == Aux4) {
      ExtendsAppend(r.calls, []);
      assert r.calls + [] == r.calls;
    } else if b == Aux1 {
      ExtendsAppend(r.calls, [OnCameraEnabled(!r.cameraEnabled)]);
    } else if b == Aux2 {
      ExtendsAppend(r.calls, [OnTitleEnabled(!r.titleEnabled)]);
    } else {
      ExtendsAppend(r.calls, [OnLogoEnabled(!r.logoEnabled)]);
    }
  }

  /** Every handler keeps the level and size positive and only appends to the call log. */
  lemma HandleKeeps(r: RouterState, i: Input, conf: ConfText)
    ensures Positive(r) ==> Positive(Handle(r, i, conf))
    ensures Extends(r.calls, Handle(r, i, conf).calls)
  {
    match i
    case ButtonInput(b, pressed) =>
      var r1 := if pressed then r else ReleaseStep(r, b, conf);
      ReleaseKeeps(r, b, conf);
      OverlayKeeps(r1, b, pressed);
      ExtendsAppend(r.calls, []);
      assert r.calls + [] == r.calls;
      ExtendsTrans(r.calls, r1.calls, Handle(r, i, conf).calls);
    case SliderInput(s, v) =>
      ExtendsAppend(r.calls, Handle(r, i, conf).calls[|r.calls|..]);
      assert Handle(r, i, conf).calls == r.calls + Handle(r, i, conf).calls[|r.calls|..];
    case KnobInput(k, up) =>
      ExtendsAppend(r.calls, Handle(r, i, conf).calls[|r.calls|..]);
      assert Handle(r, i, conf).calls == r.calls + Handle(r, i, conf).calls[|r.calls|..];
  }

  /**
   * Over any run of inputs the magnifier level and PIP size stay positive when they start
   * positive, and the calls made on live threads only accumulate.
   */
  lemma {:induction false} HandleAllKeeps(r: RouterState, ins: seq<Input>, conf: ConfText)
    ensures Positive(r) ==> Positive(HandleAll(r, ins, conf))
    ensures Extends(r.calls, HandleAll(r, ins, conf).calls)
    decreases |ins|
  {
    if ins != [] {
      var r1 := Handle(r, ins[0], conf);
      HandleKeeps(r, ins[0], conf);
      HandleAllKeeps(r1, ins[1..], conf);
      ExtendsTrans(r.calls, r1.calls, HandleAll(r1, ins[1..], conf).calls);
    } else {
      ExtendsAppend(r.calls, []);
      assert r.calls + [] == r.calls;
    }
  }

  /** The router: three control arrays updated in place, and the fields the handlers change. */
  class MiniStudio {
    const buttons: array<bool>
    const sliders: array<real>
    const knobs: array<int>
    var live: bool
    var configVisible: bool
    var presentationVisible: bool
    var magEnabled: bool
    var magLevel: real
    var pipSizeEnabled: bool
    var pipSize: real
    var titleEnabled: bool
    var logoEnabled: bool
    var cameraEnabled: bool
    var holdEnabled: bool
    var liveCalls: seq<LiveCall>

    ghost predicate Valid()
      reads this
    {
      buttons.Length == ControlCount && sliders.Length == ControlCount && knobs.Length == ControlCount
    }

    function ControlState(): Controls
      reads this, buttons, sliders, knobs
    {
      Controls(buttons[..], sliders[..], knobs[..])
    }

    function State(): RouterState
      reads this
    {
      RouterState(live, configVisible, presentationVisible, magEnabled, magLevel, pipSizeEnabled, pipSize,
                  titleEnabled, logoEnabled, cameraEnabled, holdEnabled, liveCalls)
    }

    /**
     * The constructor: every button released, every slider and knob at 0, no thread, the
     * magnifier, PIP sizing and hold off, the restored settings applied and the
     * configuration window shown.
     */
    constructor (saved: Settings)
      ensures Valid()
      ensures ControlState() == Controls(seq(ControlCount, _ => false), seq(ControlCount, _ => 0.0), seq(ControlCount, _ => 0))
      ensures State() == RouterState(false, true, false, false, saved.magLevel, false, saved.pipSize,
                                     saved.titleEnabled, saved.logoEnabled, saved.cameraEnabled, false, [])
    {
      buttons := new bool[ControlCount](_ => false);
      sliders := new real[ControlCount](_ => 0.0);
      knobs := new int[ControlCount](_ => 0);
      live := false;
      presentationVisible := false;
      magEnabled := false;
      pipSizeEnabled := false;
      holdEnabled := false;
      liveCalls := [];
      magLevel := saved.magLevel;
      pipSize := saved.pipSize;
      titleEnabled := saved.titleEnabled;
      logoEnabled := saved.logoEnabled;
      cameraEnabled := saved.cameraEnabled;
      configVisible := true;
    }

    /** onMIDIReceive: decode against the arrays, store the change, and run the handler. */
    method OnMidiReceive(ev: MidiEvent, conf: ConfText) returns (outcome: Outcome)
      requires Valid()
      modifies this, buttons, sliders, knobs
      ensures Valid()
      ensures Decode(old(ControlState()), ev) == Decoding(ControlState(), outcome)
      ensures State() == Dispatch(old(State()), outcome, conf)
    {
      outcome := DecodeInto(ev);
      match outcome
      case Pressed(_, b, press) => OnButtonEvent(b, press, conf);
      case Moved(_, s, v) => OnSliderEvent(s, v);
      case Turned(_, k, up) => OnKnobEvent(k, up);
      case _ =>
    }

    /** The array half of onMIDIReceive. */
    method DecodeInto(ev: MidiEvent) returns (outcome: Outcome)
      requires Valid()
      modifies buttons, sliders, knobs
      ensures Decode(old(ControlState()), ev) == Decoding(ControlState(), outcome)
    {
      outcome := Logged;
      if ev.Controller? {
        var p := ev.param;
        if p >= buttons.Length {
          p := buttons.Length - 1;
        }
        if ButtonOf(p).Some? {
          var press := ev.value == 127;
          if buttons[p] != press {
            buttons[p] := press;
            outcome := Pressed(p, ButtonOf(p).value, press);
          } else {
            outcome := Unchanged;
          }
        } else if SliderOf(p).Some? {
          var v := ev.value as real / 127.0;
          if sliders[p] != v {
            sliders[p] := v;
            outcome := Moved(p, SliderOf(p).value, v);
          } else {
            outcome := Unchanged;
          }
        } else if KnobOf(p).Some? {
          var previous := knobs[p];
          if previous != ev.value {
            knobs[p] := ev.value;
            outcome := Turned(p, KnobOf(p).value, ev.value > previous);
          } else {
            outcome := Unchanged;
          }
        }
      }
    }

    /** showConfig: show or hide the configuration window. */
    method ShowConfig(show: bool)
      modifies this`configVisible
      ensures configVisible == show
    {
      configVisible := show;
    }

    /** setRecording: see SetRecordingStep. */
    method SetRecording(run: bool, rec: bool, conf: ConfText)
      modifies this`live, this`liveCalls
      ensures State() == SetRecordingStep(old(State()), run, rec, conf)
    {
      if run {
        if !live {
          liveCalls := liveCalls + SpawnCalls(State(), rec, conf);
          live := true;
        }
      } else {
        if live {
          liveCalls := liveCalls + [StopThread, WaitThread];
          live := false;
        }
      }
      if live {
        liveCalls := liveCalls + [SetSaving(rec)];
      }
    }

    /** showMagnifier: see ShowMagnifierStep. */
    method ShowMagnifier(show: bool)
      modifies this`magEnabled, this`liveCalls
      ensures State() == ShowMagnifierStep(old(State()), show)
    {
      magEnabled := show;
      if live {
        liveCalls := liveCalls + [OnMagEnabled(show)];
      }
    }

    /** onButtonEvent: see ButtonStep. */
    method OnButtonEvent(b: Button, pressed: bool, conf: ConfText)
      modifies this
      ensures State() == ButtonStep(old(State()), b, pressed, conf)
    {
      if !pressed {
        match b
        case Play => SetRecording(true, false, conf);
        case Record => SetRecording(true, true, conf);
        case Stop => SetRecording(false, false, conf);
        case InputCD => ShowConfig(!configVisible);
        case _ =>
      }
      OnOverlayButton(b, pressed);
    }

    /** The F1 to F3 and Aux branches of onButtonEvent. */
    method OnOverlayButton(b: Button, pressed: bool)
      modifies this
      ensures State() == OverlayStep(old(State()), b, pressed)
    {
      if b == F1 || b == F2 || b == F3 {
        OnFunctionKey(b, pressed);
      } else if b == Aux1 || b == Aux2 || b == Aux3 || b == Aux4 {
        OnAuxButton(b, pressed);
      }
    }

    method OnFunctionKey(b: Button, pressed: bool)
      modifies this
      ensures State() == FunctionKeyStep(old(State()), b, pressed)
    {
      if b == F1 {
        if live {
          ShowMagnifier(pressed);
        }
      } else if b == F2 {
        holdEnabled := pressed;
        if live {
          liveCalls := liveCalls + [OnHoldEnabled(holdEnabled)];
        }
      } else if b == F3 {
        if live {
          pipSizeEnabled := pressed;
        }
      }
    }

    method OnAuxButton(b: Button, pressed: bool)
      modifies this
      ensures State() == AuxStep(old(State()), b, pressed)
    {
      if b == Aux1 {
        if live && pressed {
          cameraEnabled := !cameraEnabled;
          liveCalls := liveCalls + [OnCameraEnabled(cameraEnabled)];
        }
      } else if b == Aux2 {
        if live && pressed {
          titleEnabled := !titleEnabled;
          liveCalls := liveCalls + [OnTitleEnabled(titleEnabled)];
        }
      } else if b == Aux3 {
        if pressed {
          presentationVisible := !presentationVisible;
        }
      } else if b == Aux4 {
        if live && pressed {
          logoEnabled := !logoEnabled;
          liveCalls := liveCalls + [OnLogoEnabled(logoEnabled)];
        }
      }
    }

    /** onSliderEvent: see SliderStep. */
    method OnSliderEvent(s: Slider, position: real)
      modifies this`liveCalls
      ensures State() == SliderStep(old(State()), s, position)
    {
      if s == Channel(1) && live {
        liveCalls := liveCalls + [OnCameraOpacityChange(position)];
      }
    }

    /** onKnobEvent: see KnobStep. */
    method OnKnobEvent(k: Knob, up: bool)
      modifies this`magLevel, this`pipSize, this`liveCalls
      ensures State() == KnobStep(old(State()), k, up)
    {
      if k == BigDial {
        if magEnabled && live {
          var newLevel := magLevel + magLevel * (if up then 1.0 else -1.0) * 0.05;
          if newLevel > 0.0 {
            magLevel := newLevel;
            liveCalls := liveCalls + [OnMagLevelChange(magLevel)];
          }
        } else if pipSizeEnabled && live {
          var newSize := pipSize + pipSize * (if up then 1.0 else -1.0) * 0.05;
          if newSize > 0.0 {
            pipSize := newSize;
            liveCalls := liveCalls + [OnPipSizeChange(pipSize)];
          }
        }
      }
    }
  }
}
