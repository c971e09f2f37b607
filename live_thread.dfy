/**
 * LiveThread: the compositor loop. Each tick grabs the screen (or keeps the held grab),
 * advances the overlay switches by the elapsed wall-clock time, builds a FrameScene with
 * the screen and the visible overlays in a fixed z-order, and submits it; completions come
 * back through a high-water-mark filter that drops stale frames.
 *
 * The clock, the cursor position, the screen grab and the camera are inputs; the thread
 * pool, the signals and the sleep are logs of what was submitted, emitted and slept.
 */
module Live {
  import opened QtTypes
  import opened Switches
  import opened Layers
  import opened Scenes
  import opened FrameNames

  /** The primary screen as run() sees it. */
  datatype Screen = Screen(size: Size, refreshRate: real)

  /** What one tick of the loop reads from outside: the clock, the cursor, and the result of grabbing the screen. */
  datatype TickInput = TickInput(now: nat, mouse: Point, grabbed: Option<Image>, stop: bool)

  /** A frameRendered signal: the frame id and the image delivered. */
  datatype Emitted = Emitted(id: nat, image: Canvas)

  /** One paint of the magnifier frame: the grab it sampled, the source rectangle, and the red wash opacity. */
  datatype MagPaint = MagPaint(grab: Image, source: Option<Rect>, washOpacity: real)

  /** A switch as a tick reads it after updating it: the raw value and the eased value update returned. */
  datatype Reading = Reading(value: real, eased: real)

  function ReadingOf(s: SwitchState, ease: Easing): Reading
  {
    Reading(s.value, Eased(s, ease))
  }

  /** The 200 x 200 canvas the magnifier is painted into, shared by every tick of a run. */
  const MagFrameSize: Size := Size(200, 200)
  const MagFrame: Image := Image(0, MagFrameSize)

  /** The values run() computes once before its loop. */
  datatype RunEnv = RunEnv(screen: Screen, logo: Image, logoTrans: Transform, pipTrans: Transform)

  /** The values run() computes before its loop: the logo and picture-in-picture transforms of SetupMapsPoint. */
  function Setup(screen: Screen, logo: Image): (e: RunEnv)
    ensures e.screen == screen && e.logo == logo
  {
    RunEnv(screen, logo,
      Translated(Identity, 0.9 * screen.size.width as real - logo.size.width as real, 0.1 * screen.size.height as real),
      Translated(Scaled(Identity, 0.4, 0.4), 0.1 * screen.size.width as real, 0.1 * screen.size.height as real))
  }

  /** run()'s logo transform moves a point by (0.9 w - lw, 0.1 h). */
  lemma MapLogo(w: real, h: real, lw: real, p: PointF)
    ensures Map(Translated(Identity, 0.9 * w - lw, 0.1 * h), p) == PointF(p.x + 0.9 * w - lw, p.y + 0.1 * h)
  {
    assert Map(Translated(Identity, 0.9 * w - lw, 0.1 * h), p) == Map(Identity, PointF(p.x + (0.9 * w - lw), p.y + 0.1 * h));
  }

  /** run()'s picture-in-picture transform translates a point by (0.1 w, 0.1 h), then scales it by 0.4. */
  lemma MapPip(w: real, h: real, p: PointF)
    ensures Map(Translated(Scaled(Identity, 0.4, 0.4), 0.1 * w, 0.1 * h), p) == PointF(0.4 * (p.x + 0.1 * w), 0.4 * (p.y + 0.1 * h))
  {
    var q := PointF(p.x + 0.1 * w, p.y + 0.1 * h);
    assert Map(Translated(Scaled(Identity, 0.4, 0.4), 0.1 * w, 0.1 * h), p) == Map(Scaled(Identity, 0.4, 0.4), q);
    assert Map(Scaled(Identity, 0.4, 0.4), q) == Map(Identity, PointF(Scale(0.4, q.x), Scale(0.4, q.y)));
  }

  /**
   * run()'s logo transform moves every point by (0.9 W - logo width, 0.1 H); the
   * picture-in-picture transform translates by (0.1 W, 0.1 H) and then scales by 0.4.
   */
  lemma SetupMapsPoint(screen: Screen, logo: Image, p: PointF)
    ensures var e, w, h := Setup(screen, logo), screen.size.width as real, screen.size.height as real;
            && Map(e.logoTrans, p) == PointF(p.x + 0.9 * w - logo.size.width as real, p.y + 0.1 * h)
            && Map(e.pipTrans, p) == PointF(0.4 * (p.x + 0.1 * w), 0.4 * (p.y + 0.1 * h))
  {
    var w, h := screen.size.width as real, screen.size.height as real;
    MapLogo(w, h, logo.size.width as real, p);
    MapPip(w, h, p);
  }

  /**
   * The camera layer's transform, the picture-in-picture transform scaled by the PIP size
   * s: a camera point p is scaled by s, then placed as the picture-in-picture transform places it.
   */
  lemma CameraLayerMaps(screen: Screen, logo: Image, s: real, p: PointF)
    ensures var w, h := screen.size.width as real, screen.size.height as real;
            Map(Scaled(Setup(screen, logo).pipTrans, s, s), p) == PointF(0.4 * (s * p.x + 0.1 * w), 0.4 * (s * p.y + 0.1 * h))
  {
    MapCamera(screen.size.width as real, screen.size.height as real, s, p);
  }

  lemma MapCamera(w: real, h: real, s: real, p: PointF)
    ensures Map(Scaled(Translated(Scaled(Identity, 0.4, 0.4), 0.1 * w, 0.1 * h), s, s), p)
         == PointF(0.4 * (s * p.x + 0.1 * w), 0.4 * (s * p.y + 0.1 * h))
  {
    var q := PointF(Scale(s, p.x), Scale(s, p.y));
    assert Map(Scaled(Translated(Scaled(Identity, 0.4, 0.4), 0.1 * w, 0.1 * h), s, s), p)
        == Map(Translated(Scaled(Identity, 0.4, 0.4), 0.1 * w, 0.1 * h), q);
    MapPip(w, h, q);
    assert Scale(s, p.x) == s * p.x && Scale(s, p.y) == s * p.y;
  }

  /** A w x h image under the picture-in-picture transform spans (0.04 w, 0.04 h) to (0.44 w, 0.44 h). */
  lemma PipCorners(w: real, h: real)
    ensures Map(Translated(Scaled(Identity, 0.4, 0.4), 0.1 * w, 0.1 * h), PointF(0.0, 0.0)) == PointF(0.04 * w, 0.04 * h)
    ensures Map(Translated(Scaled(Identity, 0.4, 0.4), 0.1 * w, 0.1 * h), PointF(w, h)) == PointF(0.44 * w, 0.44 * h)
  {
    MapPip(w, h, PointF(0.0, 0.0));
    MapPip(w, h, PointF(w, h));
  }

  /**
   * The logo's top-left corner lands at (0.9 W - logo width, 0.1 H), and a screen-sized
   * picture-in-picture image spans (0.04 W, 0.04 H) to (0.44 W, 0.44 H).
   */
  lemma SetupPlacement(screen: Screen, logo: Image)
    ensures var e, w, h := Setup(screen, logo), screen.size.width as real, screen.size.height as real;
            && Map(e.logoTrans, PointF(0.0, 0.0)) == PointF(0.9 * w - logo.size.width as real, 0.1 * h)
            && Map(e.pipTrans, PointF(0.0, 0.0)) == PointF(0.04 * w, 0.04 * h)
            && Map(e.pipTrans, PointF(w, h)) == PointF(0.44 * w, 0.44 * h)
  {
    var w, h := screen.size.width as real, screen.size.height as real;
    MapLogo(w, h, logo.size.width as real, PointF(0.0, 0.0));
    PipCorners(w, h);
  }

  /** The thread's parameters a tick reads, with the cursor position of that tick. */
  datatype Params = Params(
    cameraFrame: Option<Image>,
    cameraOpacity: real,
    magLevel: real,
    pipSize: real,
    caption: string,
    subCaption: string,
    mouse: Point)

  /** The camera layer: only with a stored camera frame and a positive raw value. */
  function CameraEntries(env: RunEnv, p: Params, cam: Reading): seq<Entry>
  {
    if p.cameraFrame.Some? && cam.value > 0.0 then
      [Entry("camera", ImageLayer(p.cameraOpacity * cam.eased, Scaled(env.pipTrans, p.pipSize, p.pipSize), p.cameraFrame))]
    else []
  }

  /** The magnifier layer: the magnifier frame placed with its centre on the cursor. */
  function MagEntries(p: Params, mag: Reading): seq<Entry>
  {
    if mag.value > 0.0 then
      [Entry("magnifier", ImageLayer(mag.eased,
         Translated(Identity, (p.mouse.x - MagFrameSize.width / 2) as real, (p.mouse.y - MagFrameSize.height / 2) as real),
         Some(MagFrame)))]
    else []
  }

  /** The title layer: full opacity, slid left by (1 - eased) frame widths. */
  function TitleEntries(width: int, p: Params, title: Reading): seq<Entry>
  {
    if title.value > 0.0 then
      [Entry("title", TitleLayer(1.0, Translated(Identity, (-1.0 + title.eased) * width as real, 0.0), p.caption, p.subCaption))]
    else []
  }

  /** The logo layer: opacity equal to the eased value, at the logo position. */
  function LogoEntries(env: RunEnv, logo: Reading): seq<Entry>
  {
    if logo.value > 0.0 then [Entry("logo", ImageLayer(logo.eased, env.logoTrans, Some(env.logo)))] else []
  }

  const ScreenLayerName: string := "screen"

  /** The layers one tick adds to its scene, in the order it adds them. */
  function TickPlan(grab: Image, env: RunEnv, p: Params, cam: Reading, mag: Reading, title: Reading, logo: Reading): (plan: seq<Entry>)
    ensures 1 <= |plan| <= 5
    ensures plan[0].name == ScreenLayerName && plan[0].layer.opacity == 1.0
  {
    [Entry(ScreenLayerName, ImageLayer(1.0, Identity, Some(grab)))]
      + CameraEntries(env, p, cam) + MagEntries(p, mag) + TitleEntries(grab.size.width, p, title) + LogoEntries(env, logo)
  }

  /** The z-order of the layer names a tick uses. */
  function Rank(name: string): nat
  {
    if name == "screen" then 0
    else if name == "camera" then 1
    else if name == "magnifier" then 2
    else if name == "title" then 3
    else 4
  }

  function EntryNames(es: seq<Entry>): seq<string>
  {
    seq(|es|, i requires 0 <= i < |es| => es[i].name)
  }

  /**
   * The plan starts with the screen grab at full opacity and without transform, and its
   * names rise strictly in z-order (so none repeats).
   */
  lemma TickPlanOrder(grab: Image, env: RunEnv, p: Params, cam: Reading, mag: Reading, title: Reading, logo: Reading)
    ensures var plan := TickPlan(grab, env, p, cam, mag, title, logo);
            && 1 <= |plan| <= 5
            && plan[0] == Entry("screen", ImageLayer(1.0, Identity, Some(grab)))
            && RankSorted(plan)
  {
    var plan := TickPlan(grab, env, p, cam, mag, title, logo);
    var c := CameraEntries(env, p, cam);
    var m := MagEntries(p, mag);
    var t := TitleEntries(grab.size.width, p, title);
    var l := LogoEntries(env, logo);
    var s0 := [Entry(ScreenLayerName, ImageLayer(1.0, Identity, Some(grab)))];
    NameRanks();
    RankedAppend(s0, c, 1);
    RankedAppend(s0 + c, m, 2);
    RankedAppend(s0 + c + m, t, 3);
    RankedAppend(s0 + c + m + t, l, 4);
  }

  /**
   * Each overlay is in the plan exactly when its raw value is positive, the camera also
   * needing a stored camera frame.
   */
  lemma TickPlanMembership(grab: Image, env: RunEnv, p: Params, cam: Reading, mag: Reading, title: Reading, logo: Reading)
    ensures var names := EntryNames(TickPlan(grab, env, p, cam, mag, title, logo));
            && names[0] == "screen"
            && ("camera" in names <==> p.cameraFrame.Some? && cam.value > 0.0)
            && ("magnifier" in names <==> mag.value > 0.0)
            && ("title" in names <==> title.value > 0.0)
            && ("logo" in names <==> logo.value > 0.0)
  {
    NameRanks();
    TickPlanNames(grab, env, p, cam, mag, title, logo);
  }

  /** The names of a plan, one optional name per overlay. */
  lemma TickPlanNames(grab: Image, env: RunEnv, p: Params, cam: Reading, mag: Reading, title: Reading, logo: Reading)
    ensures EntryNames(TickPlan(grab, env, p, cam, mag, title, logo))
         == ["screen"]
            + (if p.cameraFrame.Some? && cam.value > 0.0 then ["camera"] else [])
            + (if mag.value > 0.0 then ["magnifier"] else [])
            + (if title.value > 0.0 then ["title"] else [])
            + (if logo.value > 0.0 then ["logo"] else [])
  {
    var c := CameraEntries(env, p, cam);
    var m := MagEntries(p, mag);
    var t := TitleEntries(grab.size.width, p, title);
    var l := LogoEntries(env, logo);
    var s0 := [Entry(ScreenLayerName, ImageLayer(1.0, Identity, Some(grab)))];
    EntryNamesAppend(s0, c);
    EntryNamesAppend(s0 + c, m);
    EntryNamesAppend(s0 + c + m, t);
    EntryNamesAppend(s0 + c + m + t, l);
    assert EntryNames(s0) == ["screen"];
  }

  /** The layer names of a tick have the ranks 0 to 4, so they differ from each other. */
  lemma NameRanks()
    ensures Rank("screen") == 0 && Rank("camera") == 1 && Rank("magnifier") == 2 && Rank("title") == 3 && Rank("logo") == 4
  {
    assert "camera"[0] != "screen"[0];
    assert "magnifier"[0] != "screen"[0] && "magnifier"[0] != "camera"[0];
    assert "title"[0] != "screen"[0] && "title"[0] != "camera"[0] && "title"[0] != "magnifier"[0];
    assert "logo"[0] != "screen"[0] && "logo"[0] != "camera"[0] && "logo"[0] != "magnifier"[0] && "logo"[0] != "title"[0];
  }

  ghost predicate RankSorted(es: seq<Entry>)
  {
    forall i, j :: 0 <= i < j < |es| ==> Rank(es[i].name) < Rank(es[j].name)
  }

  /** Appending entries ranked at least r to sorted entries ranked below r keeps them sorted. */
  lemma RankedAppend(a: seq<Entry>, b: seq<Entry>, r: nat)
    requires RankSorted(a) && RankSorted(b)
    requires forall i :: 0 <= i < |a| ==> Rank(a[i].name) < r
    requires forall i :: 0 <= i < |b| ==> Rank(b[i].name) >= r
    ensures RankSorted(a + b)
  {
  }

  lemma EntryNamesAppend(a: seq<Entry>, b: seq<Entry>)
    ensures EntryNames(a + b) == EntryNames(a) + EntryNames(b)
  {
  }

  /** The z-order makes the names of a plan distinct. */
  lemma TickPlanDistinct(grab: Image, env: RunEnv, p: Params, cam: Reading, mag: Reading, title: Reading, logo: Reading)
    ensures DistinctNames(TickPlan(grab, env, p, cam, mag, title, logo))
  {
    TickPlanOrder(grab, env, p, cam, mag, title, logo);
  }

  /**
   * Running a tick's scene paints each of its layers that has a positive opacity exactly
   * once, in z-order; the screen grab is always painted first. No layer is lost to a
   * repeated name.
   */
  lemma TickScenePaintsInOrder(grab: Image, env: RunEnv, p: Params, cam: Reading, mag: Reading, title: Reading, logo: Reading)
    ensures var plan := TickPlan(grab, env, p, cam, mag, title, logo);
            && Painted(Build(plan), Build(plan).order) == VisibleIndices(plan)
            && |VisibleIndices(plan)| >= 1 && VisibleIndices(plan)[0] == 0
            && (forall h: nat :: h in Build(plan).layers.Values <==> h < |plan|)
  {
    var plan := TickPlan(grab, env, p, cam, mag, title, logo);
    TickPlanDistinct(grab, env, p, cam, mag, title, logo);
    DistinctNamesPaintVisibleInOrder(plan);
    VisibleIndicesStart(plan);
    BuildMapsEveryLayer(plan);
  }

  /** When the first entry is visible, it is the first one painted. */
  lemma {:induction false} VisibleIndicesStart(es: seq<Entry>)
    requires |es| >= 1 && es[0].layer.opacity > 0.0
    ensures |VisibleIndices(es)| >= 1 && VisibleIndices(es)[0] == 0
    decreases |es|
  {
    if |es| > 1 {
      VisibleIndicesStart(es[..|es| - 1]);
    }
  }

  /** With distinct names every allocated layer stays reachable from the map: nothing leaks. */
  lemma {:induction false} BuildMapsEveryLayer(es: seq<Entry>)
    requires DistinctNames(es)
    ensures forall h: nat :: h in Build(es).layers.Values <==> h < |es|
    decreases |es|
  {
    BuildShape(es);
    if es != [] {
      var init := es[..|es| - 1];
      var s := Build(init);
      BuildMapsEveryLayer(init);
      BuildShape(init);
      forall k | 0 <= k < |s.order|
        ensures s.order[k] != es[|es| - 1].name
      {
        assert init[k] == es[k];
      }
      var r := Build(es);
      assert r.layers == s.layers[es[|es| - 1].name := |init|];
      forall v | v in r.layers.Values
        ensures v < |es|
      {
        var n :| n in r.layers && r.layers[n] == v;
      }
      forall i | 0 <= i < |es|
        ensures i in r.layers.Values
      {
        if i < |init| {
          assert i in s.layers.Values;
          var n :| n in s.layers && s.layers[n] == i;
          assert n != es[|es| - 1].name;
          assert r.layers[n] == i;
        } else {
          assert r.layers[es[|es| - 1].name] == i;
        }
      }
    }
  }

  /**
   * The overlay parameters: the camera at the stored camera opacity times its eased value
   * under the picture-in-picture transform scaled by the PIP size; the title offset by
   * (eased - 1) widths, so not at all once fully on; the logo at its eased value.
   */
  lemma TickPlanParameters(grab: Image, env: RunEnv, p: Params, cam: Reading, mag: Reading, title: Reading, logo: Reading)
    ensures var c := CameraEntries(env, p, cam);
            c != [] ==> (&& c[0].layer.opacity == p.cameraOpacity * cam.eased
                         && c[0].layer.transform == Scaled(env.pipTrans, p.pipSize, p.pipSize)
                         && c[0].layer.image == p.cameraFrame)
    ensures var t := TitleEntries(grab.size.width, p, title);
            t != [] ==> (&& t[0].layer.opacity == 1.0
                         && t[0].layer.transform.Translated? && t[0].layer.transform.base == Identity
                         && t[0].layer.transform.dy == 0.0
                         && (title.eased == 1.0 ==> t[0].layer.transform.dx == 0.0)
                         && (title.eased == 0.0 ==> t[0].layer.transform.dx == -(grab.size.width as real)))
    ensures var l := LogoEntries(env, logo);
            l != [] ==> l[0].layer.opacity == logo.eased && l[0].layer.transform == env.logoTrans
    ensures var m := MagEntries(p, mag);
            m != [] ==> (&& m[0].layer.opacity == mag.eased
                         && m[0].layer.transform == Translated(Identity, (p.mouse.x - 100) as real, (p.mouse.y - 100) as real))
  {
  }

  /** The magnifier zoom: 1 + (magLevel - 1) * eased. */
  function MagZoom(magLevel: real, eased: real): real
  {
    1.0 + (magLevel - 1.0) * eased
  }

  /** The zoom is 1 with the switch off, the set level with it fully on, and between the two in between. */
  lemma MagZoomInterpolates(magLevel: real, eased: real)
    ensures eased == 0.0 ==> MagZoom(magLevel, eased) == 1.0
    ensures eased == 1.0 ==> MagZoom(magLevel, eased) == magLevel
    ensures 0.0 <= eased <= 1.0 && 1.0 <= magLevel ==> 1.0 <= MagZoom(magLevel, eased) <= magLevel
    ensures 0.0 <= eased <= 1.0 && magLevel <= 1.0 ==> magLevel <= MagZoom(magLevel, eased) <= 1.0
  {
    var a := magLevel - 1.0;
    assert MagZoom(magLevel, eased) == 1.0 + a * eased;
    if 0.0 <= eased <= 1.0 {
      ScaleBetween(a, eased);
    }
  }

  /** a * e lies between 0 and a when 0 <= e <= 1, whatever the sign of a. */
  lemma ScaleBetween(a: real, e: real)
    requires 0.0 <= e <= 1.0
    ensures a >= 0.0 ==> 0.0 <= a * e <= a
    ensures a <= 0.0 ==> a <= a * e <= 0.0
  {
    assert a - a * e == a * (1.0 - e);
    assert 0.0 <= 1.0 - e;
    if a >= 0.0 {
      assert a * (1.0 - e) >= 0.0;
    } else {
      assert a * (1.0 - e) <= 0.0;
    }
  }

  /**
   * The source rectangle the magnifier samples: centred on the cursor, reaching 200/zoom
   * in each direction, each coordinate truncated to int. A zero zoom divides by zero in the
   * source; the model samples nothing then.
   */
  function MagSource(mouse: Point, zoom: real): (r: Option<Rect>)
    ensures r.None? <==> zoom == 0.0
  {
    if zoom == 0.0 then None
    else
      var inv := 1.0 / zoom;
      Some(Rect(Trunc(mouse.x as real - MagFrameSize.width as real * inv),
                Trunc(mouse.y as real - MagFrameSize.height as real * inv),
                Trunc(MagFrameSize.width as real * (inv * 2.0)),
                Trunc(MagFrameSize.height as real * (inv * 2.0))))
  }

  /**
   * For a positive zoom the rectangle is square, 400/zoom wide up to truncation, and its
   * top-left corner lies 200/zoom up and left of the cursor up to truncation.
   */
  lemma MagSourceCentred(mouse: Point, zoom: real)
    requires zoom > 0.0
    ensures var r := MagSource(mouse, zoom).value;
            && r.width == r.height && r.width >= 0
            && r.width as real <= 400.0 / zoom < r.width as real + 1.0
            && -1.0 < r.x as real - (mouse.x as real - 200.0 / zoom) < 1.0
            && -1.0 < r.y as real - (mouse.y as real - 200.0 / zoom) < 1.0
  {
    var inv := 1.0 / zoom;
    assert 200.0 * inv == 200.0 / zoom;
    assert 200.0 * (inv * 2.0) == 400.0 / zoom;
  }

  /** The quint64 difference now - last, which wraps when the clock goes backwards. */
  function Elapsed(last: nat, now: nat): (r: nat)
    ensures r < U64
  {
    (now - last) % U64
  }

  /** A quint64 reinterpreted as qint64. */
  function Signed(u: nat): int
    requires u < U64
  {
    if u < U64 / 2 then u else u - U64
  }

  /** A clock that does not go backwards (by less than 2^63 ms) gives the plain difference on both readings. */
  lemma ElapsedSpec(last: nat, now: nat)
    requires last < U64 && now < U64
    ensures last <= now ==> Elapsed(last, now) == now - last
    ensures now - last < U64 / 2 && last - now <= U64 / 2 ==> Signed(Elapsed(last, now)) == now - last
  {
  }

  /** left = (qint64)(1000.0 / (refresh / 4) - interval): the milliseconds left in a quarter-refresh budget. */
  function SleepBudget(refreshRate: real, interval: int): (left: int)
    requires refreshRate != 0.0
    ensures left > 0 ==> left as real <= 1000.0 / (refreshRate / 4.0) - interval as real < left as real + 1.0
    ensures left <= 0 ==> 1000.0 / (refreshRate / 4.0) - interval as real < 1.0
  {
    Trunc(1000.0 / (refreshRate / 4.0) - interval as real)
  }

  /**
   * The budget is 4000/refresh minus the interval, truncated; the thread sleeps (the budget
   * is positive) exactly when at least one millisecond of it is left.
   */
  lemma SleepBudgetSpec(refreshRate: real, interval: int)
    requires refreshRate > 0.0
    ensures SleepBudget(refreshRate, interval) > 0 <==> interval as real + 1.0 <= 4000.0 / refreshRate
    ensures SleepBudget(refreshRate, interval) > 0 ==>
      SleepBudget(refreshRate, interval) as real <= 4000.0 / refreshRate - interval as real < SleepBudget(refreshRate, interval) as real + 1.0
  {
    assert 1000.0 / (refreshRate / 4.0) == 4000.0 / refreshRate;
  }

  /** The image clear() emits: opaque black over the whole screen. */
  function BlackFrame(size: Size): Canvas
  {
    Canvas(size, [DrawOp.FillRect(Rect(0, 0, size.width, size.height), Black, 1.0, Identity)])
  }

  /** The highest id among the mark and the completions. */
  function MaxId(mark: nat, cs: seq<Emitted>): (m: nat)
    ensures m >= mark
    ensures forall i :: 0 <= i < |cs| ==> cs[i].id <= m
    decreases |cs|
  {
    if cs == [] then mark
    else
      var m := MaxId(mark, cs[..|cs| - 1]);
      assert forall i :: 0 <= i < |cs| - 1 ==> cs[i] == cs[..|cs| - 1][i];
      if cs[|cs| - 1].id >= m then cs[|cs| - 1].id else m
  }

  /**
   * The completions the filter forwards from a starting mark: exactly those whose id is at
   * least the mark and every id before it (equal ids pass).
   */
  function Forwarded(mark: nat, cs: seq<Emitted>): (fs: seq<Emitted>)
    ensures |fs| <= |cs|
    ensures forall i :: 0 <= i < |fs| ==> fs[i].id >= mark
    decreases |cs|
  {
    if cs == [] then []
    else
      Forwarded(mark, cs[..|cs| - 1])
        + (if cs[|cs| - 1].id >= MaxId(mark, cs[..|cs| - 1]) then [cs[|cs| - 1]] else [])
  }

  /** Every forwarded completion is one of the completions delivered. */
  lemma {:induction false} ForwardedSubset(mark: nat, cs: seq<Emitted>)
    ensures forall i :: 0 <= i < |Forwarded(mark, cs)| ==> Forwarded(mark, cs)[i] in cs
    decreases |cs|
  {
    if cs != [] {
      var init := cs[..|cs| - 1];
      ForwardedSubset(mark, init);
      assert forall x :: x in init ==> x in cs;
    }
  }

  /** The last forwarded id is the running maximum, and no forwarded id exceeds it. */
  lemma {:induction false} ForwardedLast(mark: nat, cs: seq<Emitted>)
    ensures var f := Forwarded(mark, cs);
            && (forall i :: 0 <= i < |f| ==> mark <= f[i].id <= MaxId(mark, cs))
            && (f != [] ==> f[|f| - 1].id == MaxId(mark, cs))
    decreases |cs|
  {
    if cs != [] {
      var init := cs[..|cs| - 1];
      ForwardedLast(mark, init);
    }
  }

  /** Forwarded ids never decrease and none is below the starting mark. */
  lemma {:induction false} ForwardedMonotone(mark: nat, cs: seq<Emitted>)
    ensures var f := Forwarded(mark, cs);
            forall i, j :: 0 <= i <= j < |f| ==> mark <= f[i].id <= f[j].id
    decreases |cs|
  {
    if cs != [] {
      var init := cs[..|cs| - 1];
      ForwardedMonotone(mark, init);
      ForwardedLast(mark, init);
    }
  }

  /** Completions arriving out of order: ids 3, 1, 4, 2 from mark 0 forward 3 then 4. */
  lemma ForwardedExample(a: Canvas, b: Canvas, c: Canvas, d: Canvas)
    ensures Forwarded(0, [Emitted(3, a), Emitted(1, b), Emitted(4, c), Emitted(2, d)]) == [Emitted(3, a), Emitted(4, c)]
  {
    var c1 := [Emitted(3, a)];
    var c2 := c1 + [Emitted(1, b)];
    var c3 := c2 + [Emitted(4, c)];
    var c4 := c3 + [Emitted(2, d)];
    assert c1[..0] == [] && c2[..1] == c1 && c3[..2] == c2 && c4[..3] == c3;
    assert MaxId(0, c1) == 3 && Forwarded(0, c1) == [Emitted(3, a)];
    assert MaxId(0, c2) == 3 && Forwarded(0, c2) == [Emitted(3, a)];
    assert MaxId(0, c3) == 4 && Forwarded(0, c3) == [Emitted(3, a), Emitted(4, c)];
    assert Forwarded(0, c4) == [Emitted(3, a), Emitted(4, c)];
    assert c4 == [Emitted(3, a), Emitted(1, b), Emitted(4, c), Emitted(2, d)];
  }

  /** The saving flag and the base path together. */
  datatype SavingState = SavingState(isSaving: bool, basePath: string)

  /** The inputs setSaving reads from the environment: the Movies location, the working directory, and the formatted time. */
  datatype SaveEnv = SaveEnv(moviesLocation: string, currentPath: string, stamp: string)

  /** The recording directory: the Movies location (or the working directory), "/MiniStudio_", the time, and "_" + project when set. */
  function BasePath(env: SaveEnv, projectName: string): (b: string)
    ensures var root := if env.moviesLocation == "" then env.currentPath else env.moviesLocation;
            |b| == |root| + 12 + |env.stamp| + (if projectName == "" then 0 else 1 + |projectName|)
  {
    (if env.moviesLocation == "" then env.currentPath else env.moviesLocation)
      + "/MiniStudio_" + env.stamp + (if projectName == "" then "" else "_" + projectName)
  }

  /** setSaving on the pair: a new base path only on a false-to-true change; the flag always stored. */
  function SavingStep(s: SavingState, saving: bool, env: SaveEnv, projectName: string): (t: SavingState)
    ensures t.isSaving == saving
    ensures t.basePath != s.basePath ==> !s.isSaving && saving
  {
    SavingState(saving, if s.isSaving != saving && saving then BasePath(env, projectName) else s.basePath)
  }

  /**
   * setSaving stores the flag; the base path changes only on a false-to-true transition;
   * repeating the call with the same flag changes nothing, whatever the time or directories.
   */
  lemma SavingStepSpec(s: SavingState, saving: bool, env: SaveEnv, env2: SaveEnv, project: string, project2: string)
    ensures SavingStep(s, saving, env, project).isSaving == saving
    ensures SavingStep(s, saving, env, project).basePath != s.basePath ==> !s.isSaving && saving
    ensures !s.isSaving && saving ==> SavingStep(s, saving, env, project).basePath == BasePath(env, project)
    ensures SavingStep(SavingStep(s, saving, env, project), saving, env2, project2) == SavingStep(s, saving, env, project)
  {
  }

  /** The base path begins with the chosen root and "/MiniStudio_" and the time, and ends with the project name when there is one. */
  lemma BasePathShape(env: SaveEnv, projectName: string)
    ensures var root := if env.moviesLocation == "" then env.currentPath else env.moviesLocation;
            var b := BasePath(env, projectName);
            && b[..|root| + 12 + |env.stamp|] == root + "/MiniStudio_" + env.stamp
            && (projectName == "" ==> b == root + "/MiniStudio_" + env.stamp)
            && (projectName != "" ==> b[|b| - |projectName| - 1..] == "_" + projectName)
  {
  }

  /** The four overlay switches a tick updates. */
  datatype Overlays = Overlays(camera: SwitchState, mag: SwitchState, title: SwitchState, logo: SwitchState)

  ghost predicate OverlaysInv(o: Overlays)
  {
    Inv(o.camera) && Inv(o.mag) && Inv(o.title) && Inv(o.logo)
  }

  /**
   * The switch updates of one grabbed tick: the camera only with a stored camera frame,
   * the other three always, each by the same interval; all stay within their invariant.
   */
  function StepOverlays(o: Overlays, interval: nat, withCamera: bool): (r: Overlays)
    requires OverlaysInv(o)
    ensures OverlaysInv(r)
    ensures withCamera ==> r.camera == Step(o.camera, interval)
    ensures !withCamera ==> r.camera == o.camera
    ensures r.mag == Step(o.mag, interval) && r.title == Step(o.title, interval) && r.logo == Step(o.logo, interval)
  {
    StepInv(o.camera, interval);
    StepInv(o.mag, interval);
    StepInv(o.title, interval);
    StepInv(o.logo, interval);
    Overlays(if withCamera then Step(o.camera, interval) else o.camera,
             Step(o.mag, interval), Step(o.title, interval), Step(o.logo, interval))
  }

  /** The plan of a tick whose switches read as o. */
  /** Overlays whose every switch made the step StepOverlays prescribes are its result. */
  lemma StepOverlaysFrom(o: Overlays, interval: nat, withCamera: bool, r: Overlays)
    requires OverlaysInv(o)
    requires r.camera == (if withCamera then Step(o.camera, interval) else o.camera)
    requires r.mag == Step(o.mag, interval) && r.title == Step(o.title, interval) && r.logo == Step(o.logo, interval)
    ensures r == StepOverlays(o, interval, withCamera)
  {
  }

  function PlanOf(grab: Image, env: RunEnv, p: Params, o: Overlays, ease: Easing): seq<Entry>
  {
    TickPlan(grab, env, p, ReadingOf(o.camera, ease), ReadingOf(o.mag, ease), ReadingOf(o.title, ease), ReadingOf(o.logo, ease))
  }

  /** Readings that agree with o, the camera's only where a camera frame is stored, give the plan of o. */
  lemma PlanOfReadings(grab: Image, env: RunEnv, p: Params, o: Overlays, ease: Easing, cam: Reading, mag: Reading, title: Reading, logo: Reading)
    requires p.cameraFrame.Some? ==> cam == ReadingOf(o.camera, ease)
    requires cam.value == o.camera.value
    requires mag == ReadingOf(o.mag, ease) && title == ReadingOf(o.title, ease) && logo == ReadingOf(o.logo, ease)
    ensures TickPlan(grab, env, p, cam, mag, title, logo) == PlanOf(grab, env, p, o, ease)
  {
    assert CameraEntries(env, p, cam) == CameraEntries(env, p, ReadingOf(o.camera, ease));
  }

  /**
   * The magnifier paint of a tick whose magnifier switch reads r: one paint while the raw
   * value is positive, sampling the grab around the cursor at the zoom of the eased value.
   */
  function MagPaintsOf(grab: Image, mouse: Point, level: real, r: Reading): seq<MagPaint>
  {
    if r.value > 0.0 then [MagPaint(grab, MagSource(mouse, MagZoom(level, r.eased)), 0.2 * r.eased)] else []
  }

  /** The compositor thread. */
  class LiveThread {
    const screenSwitch: AnimatedSwitch
    const magSwitch: AnimatedSwitch
    const cameraSwitch: AnimatedSwitch
    const titleSwitch: AnimatedSwitch
    const logoSwitch: AnimatedSwitch

    var frameNumber: nat
    var done: bool
    var lastTime: nat
    var lastCompletedFrame: nat
    var isSaving: bool
    var basePath: string
    var projectName: string
    var caption: string
    var subCaption: string
    var lastCameraFrame: Option<Image>
    var lastCameraOpacity: real
    var magLevel: real
    var pipSize: real
    var hold: bool

    /** frameRendered signals, scenes handed to the pool, magnifier paints, sleeps, grab warnings, directories made. */
    var emitted: seq<Emitted>
    var submitted: seq<FrameScene>
    var magPaints: seq<MagPaint>
    var sleeps: seq<nat>
    var grabFailures: nat
    var madeDirs: seq<string>

    ghost predicate Valid()
      reads this, screenSwitch, magSwitch, cameraSwitch, titleSwitch, logoSwitch
    {
      && screenSwitch.Valid() && magSwitch.Valid() && cameraSwitch.Valid() && titleSwitch.Valid() && logoSwitch.Valid()
      && screenSwitch != magSwitch && screenSwitch != cameraSwitch && screenSwitch != titleSwitch && screenSwitch != logoSwitch
      && magSwitch != cameraSwitch && magSwitch != titleSwitch && magSwitch != logoSwitch
      && cameraSwitch != titleSwitch && cameraSwitch != logoSwitch && titleSwitch != logoSwitch
      && lastTime < U64
    }

    function OverlayStates(): Overlays
      reads cameraSwitch, magSwitch, titleSwitch, logoSwitch
    {
      Overlays(cameraSwitch.State(), magSwitch.State(), titleSwitch.State(), logoSwitch.State())
    }

    function CurrentParams(mouse: Point): Params
      reads this`lastCameraFrame, this`lastCameraOpacity, this`magLevel, this`pipSize, this`caption, this`subCaption
    {
      Params(lastCameraFrame, lastCameraOpacity, magLevel, pipSize, caption, subCaption, mouse)
    }

    /**
     * The constructor: frame number, clock and completion mark at 0, not done, not saving,
     * camera opacity, magnifier level and PIP size 1, hold off; default switches except the
     * magnifier (OutBack in, OutQuad out, 100 ms in, 500 ms out) and the title (OutBounce in,
     * OutCubic out).
     */
    constructor ()
      ensures Valid()
      ensures frameNumber == 0 && !done && lastTime == 0 && lastCompletedFrame == 0 && !isSaving
      ensures lastCameraFrame.None? && lastCameraOpacity == 1.0 && magLevel == 1.0 && pipSize == 1.0 && !hold
      ensures basePath == "" && projectName == "" && caption == "" && subCaption == ""
      ensures screenSwitch.State() == DefaultSwitch() && cameraSwitch.State() == DefaultSwitch() && logoSwitch.State() == DefaultSwitch()
      ensures magSwitch.State() == NewSwitch(OutBack, OutQuad, 100.0, 500.0)
      ensures titleSwitch.State() == NewSwitch(OutBounce, OutCubic, 1000.0, 500.0)
      ensures emitted == [] && submitted == [] && magPaints == [] && sleeps == [] && grabFailures == 0 && madeDirs == []
      ensures fresh(screenSwitch) && fresh(magSwitch) && fresh(cameraSwitch) && fresh(titleSwitch) && fresh(logoSwitch)
    {
      frameNumber := 0;
      done := false;
      lastTime := 0;
      lastCompletedFrame := 0;
      isSaving := false;
      basePath := "";
      projectName := "";
      caption := "";
      subCaption := "";
      lastCameraFrame := None;
      lastCameraOpacity := 1.0;
      magLevel := 1.0;
      pipSize := 1.0;
      screenSwitch := new AnimatedSwitch(InQuad, OutQuad, 1000.0, 500.0);
      magSwitch := new AnimatedSwitch(OutBack, OutQuad, 100.0, 500.0);
      cameraSwitch := new AnimatedSwitch(InQuad, OutQuad, 1000.0, 500.0);
      titleSwitch := new AnimatedSwitch(OutBounce, OutCubic, 1000.0, 500.0);
      logoSwitch := new AnimatedSwitch(InQuad, OutQuad, 1000.0, 500.0);
      hold := false;
      emitted := [];
      submitted := [];
      magPaints := [];
      sleeps := [];
      grabFailures := 0;
      madeDirs := [];
    }

    /** onFrameRenderComplete: forward the completion and raise the mark exactly when not done and id >= the mark. */
    method OnFrameRenderComplete(c: Emitted)
      modifies this`lastCompletedFrame, this`emitted
      ensures !old(done) && c.id >= old(lastCompletedFrame) ==> lastCompletedFrame == c.id && emitted == old(emitted) + [c]
      ensures !(!old(done) && c.id >= old(lastCompletedFrame)) ==> lastCompletedFrame == old(lastCompletedFrame) && emitted == old(emitted)
    {
      if !done && c.id >= lastCompletedFrame {
        lastCompletedFrame := c.id;
        emitted := emitted + [c];
      }
    }

    /**
     * A series of completions delivered before stop: exactly the forwarded ones are emitted
     * and the mark ends at the highest id seen; after stop none is emitted.
     */
    method DeliverAll(cs: seq<Emitted>)
      modifies this`lastCompletedFrame, this`emitted
      ensures !done ==> emitted == old(emitted) + Forwarded(old(lastCompletedFrame), cs)
      ensures !done ==> lastCompletedFrame == MaxId(old(lastCompletedFrame), cs)
      ensures done ==> emitted == old(emitted) && lastCompletedFrame == old(lastCompletedFrame)
    {
      var i := 0;
      while i < |cs|
        invariant 0 <= i <= |cs|
        invariant !done ==> emitted == old(emitted) + Forwarded(old(lastCompletedFrame), cs[..i])
        invariant !done ==> lastCompletedFrame == MaxId(old(lastCompletedFrame), cs[..i])
        invariant done ==> emitted == old(emitted) && lastCompletedFrame == old(lastCompletedFrame)
      {
        assert cs[..i + 1][..i] == cs[..i];
        OnFrameRenderComplete(cs[i]);
        i := i + 1;
      }
      assert cs[..|cs|] == cs;
    }

    /** clear(): emit an opaque black frame with the id after the mark, without raising the mark. */
    method Clear(screen: Screen)
      modifies this`emitted
      ensures emitted == old(emitted) + [Emitted(lastCompletedFrame + 1, BlackFrame(screen.size))]
    {
      emitted := emitted + [Emitted(lastCompletedFrame + 1, BlackFrame(screen.size))];
    }

    method Stop()
      modifies this`done
      ensures done
    {
      done := true;
    }

    /** setSaving: see SavingStep; a new base path is also created as a directory. */
    method SetSaving(saving: bool, env: SaveEnv)
      modifies this`isSaving, this`basePath, this`madeDirs
      ensures SavingState(isSaving, basePath) == SavingStep(SavingState(old(isSaving), old(basePath)), saving, env, projectName)
      ensures madeDirs == old(madeDirs) + (if old(isSaving) != saving && saving then [basePath] else [])
    {
      if isSaving != saving && saving {
        basePath := BasePath(env, projectName);
        madeDirs := madeDirs + [basePath];
      }
      isSaving := saving;
    }

    method SetProjectName(name: string)
      modifies this`projectName
      ensures projectName == name
    {
      projectName := name;
    }

    method SetTitle(name: string)
      modifies this`caption
      ensures caption == name
    {
      caption := name;
    }

    method SetSubTitle(name: string)
      modifies this`subCaption
      ensures subCaption == name
    {
      subCaption := name;
    }

    /** onCameraFrameReady stores a copy of the camera image. */
    method OnCameraFrameReady(im: Image)
      modifies this`lastCameraFrame
      ensures lastCameraFrame == Some(im)
    {
      lastCameraFrame := Some(im);
    }

    method OnCameraOpacityChange(opacity: real)
      modifies this`lastCameraOpacity
      ensures lastCameraOpacity == opacity
    {
      lastCameraOpacity := opacity;
    }

    method OnMagLevelChange(level: real)
      modifies this`magLevel
      ensures magLevel == level
    {
      magLevel := level;
    }

    method OnPipSizeChange(size: real)
      modifies this`pipSize
      ensures pipSize == size
    {
      pipSize := size;
    }

    method OnHoldEnabled(hold: bool)
      modifies this`hold
      ensures this.hold == hold
    {
      this.hold := hold;
    }

    /** onMagEnabled, onTitleEnabled, onLogoEnabled and onCameraEnabled: setEnabled on the one switch. */
    method OnMagEnabled(en: bool)
      requires Valid()
      modifies magSwitch
      ensures Valid()
      ensures magSwitch.State() == Toggle(old(magSwitch.State()), en)
    {
      magSwitch.SetEnabled(en);
    }

    method OnTitleEnabled(en: bool)
      requires Valid()
      modifies titleSwitch
      ensures Valid()
      ensures titleSwitch.State() == Toggle(old(titleSwitch.State()), en)
    {
      titleSwitch.SetEnabled(en);
    }

    method OnLogoEnabled(en: bool)
      requires Valid()
      modifies logoSwitch
      ensures Valid()
      ensures logoSwitch.State() == Toggle(old(logoSwitch.State()), en)
    {
      logoSwitch.SetEnabled(en);
    }

    method OnCameraEnabled(en: bool)
      requires Valid()
      modifies cameraSwitch
      ensures Valid()
      ensures cameraSwitch.State() == Toggle(old(cameraSwitch.State()), en)
    {
      cameraSwitch.SetEnabled(en);
    }

    /**
     * The scene of one successful grab: the screen first, then each overlay whose switch,
     * updated by the interval, has a positive raw value. The camera switch is updated only
     * with a stored camera frame; the magnifier paint is logged when the magnifier shows.
     */
    method ComposeScene(grab: Image, env: RunEnv, mouse: Point, path: string, interval: nat, ease: Easing) returns (scene: FrameScene)
      requires Valid()
      requires PaintableSize(grab.size)
      modifies magSwitch, cameraSwitch, titleSwitch, logoSwitch, this`magPaints
      ensures Valid()
      ensures fresh(scene) && scene.Valid()
      ensures scene.id == frameNumber && scene.outputFilename == path && scene.resolution == grab.size
      ensures OverlayStates() == StepOverlays(old(OverlayStates()), interval, lastCameraFrame.Some?)
      ensures scene.State() == Build(PlanOf(grab, env, CurrentParams(mouse), OverlayStates(), ease))
      ensures magPaints == old(magPaints) + MagPaintsOf(grab, mouse, magLevel, ReadingOf(magSwitch.State(), ease))
    {
      ghost var before := OverlayStates();
      var cam, mag, title, logo := UpdateOverlays(grab, mouse, interval, ease);
      StepOverlaysFrom(before, interval, lastCameraFrame.Some?, OverlayStates());
      PlanOfReadings(grab, env, CurrentParams(mouse), OverlayStates(), ease, cam, mag, title, logo);
      scene := NewTickScene(frameNumber, path, grab, env, CurrentParams(mouse), cam, mag, title, logo);
    }

    /**
     * The switch side of a tick: update the camera switch (only with a stored camera frame),
     * then the magnifier, title and logo switches, painting the magnifier frame when the
     * magnifier shows. The tick body interleaves these updates with adding the layers; the
     * two touch disjoint state, so they are modelled one after the other.
     */
    method UpdateOverlays(grab: Image, mouse: Point, interval: nat, ease: Easing) returns (cam: Reading, mag: Reading, title: Reading, logo: Reading)
      requires Valid()
      modifies magSwitch, cameraSwitch, titleSwitch, logoSwitch, this`magPaints
      ensures Valid()
      ensures lastCameraFrame.Some? ==> cameraSwitch.State() == Step(old(cameraSwitch.State()), interval)
      ensures lastCameraFrame.None? ==> cameraSwitch.State() == old(cameraSwitch.State())
      ensures magSwitch.State() == Step(old(magSwitch.State()), interval)
      ensures titleSwitch.State() == Step(old(titleSwitch.State()), interval)
      ensures logoSwitch.State() == Step(old(logoSwitch.State()), interval)
      ensures lastCameraFrame.Some? ==> cam == ReadingOf(cameraSwitch.State(), ease)
      ensures cam.value == cameraSwitch.value
      ensures mag == ReadingOf(magSwitch.State(), ease)
      ensures title == ReadingOf(titleSwitch.State(), ease)
      ensures logo == ReadingOf(logoSwitch.State(), ease)
      ensures magPaints == old(magPaints) + MagPaintsOf(grab, mouse, magLevel, mag)
    {
      var camVal := 0.0;
      if lastCameraFrame.Some? {
        camVal := cameraSwitch.Update(interval, ease);
      }
      cam := Reading(cameraSwitch.value, camVal);

      var magVal := magSwitch.Update(interval, ease);
      mag := Reading(magSwitch.value, magVal);
      if magSwitch.value > 0.0 {
        magPaints := magPaints + [MagPaint(grab, MagSource(mouse, MagZoom(magLevel, magVal)), 0.2 * magVal)];
      }

      var titleVal := titleSwitch.Update(interval, ease);
      title := Reading(titleSwitch.value, titleVal);

      var logoVal := logoSwitch.Update(interval, ease);
      logo := Reading(logoSwitch.value, logoVal);
    }

    /**
     * One pass of run's loop. The grab is refreshed unless hold is on; a null grab submits
     * nothing and only counts a failure; otherwise, when saving, the frame number advances
     * and names the file, and the scene is submitted. The clock is stored either way, and
     * the remaining budget is slept when positive.
     */
    method Tick(t: TickInput, env: RunEnv, grab: Option<Image>, ease: Easing) returns (grabOut: Option<Image>, scene: FrameScene?, left: int)
      requires Valid()
      requires t.now < U64 && env.screen.refreshRate > 0.0
      requires t.grabbed.Some? ==> PaintableSize(t.grabbed.value.size)
      requires grab.Some? ==> PaintableSize(grab.value.size)
      modifies this`frameNumber, this`submitted, this`grabFailures, this`lastTime, this`sleeps, this`magPaints
      modifies magSwitch, cameraSwitch, titleSwitch, logoSwitch
      ensures Valid()
      ensures grabOut == (if old(hold) then grab else t.grabbed)
      ensures (scene == null) <==> grabOut.None?
      ensures frameNumber == old(frameNumber) + (if grabOut.Some? && isSaving then 1 else 0)
      ensures grabOut.Some? ==> fresh(scene) && scene.Valid()
      ensures grabOut.Some? ==> scene.id == frameNumber && scene.resolution == grabOut.value.size
      ensures grabOut.Some? ==> scene.outputFilename == (if isSaving then FrameFileName(basePath, frameNumber) else "")
      ensures grabOut.Some? ==> scene.State() == Build(PlanOf(grabOut.value, env, CurrentParams(t.mouse), OverlayStates(), ease))
      ensures grabOut.Some? ==> OverlayStates() == StepOverlays(old(OverlayStates()), Elapsed(old(lastTime), t.now), lastCameraFrame.Some?)
      ensures grabOut.None? ==> OverlayStates() == old(OverlayStates())
      ensures grabOut.Some? ==> submitted == old(submitted) + [scene]
      ensures grabOut.None? ==> submitted == old(submitted)
      ensures grabFailures == old(grabFailures) + (if grabOut.None? then 1 else 0)
      ensures grabOut.None? ==> magPaints == old(magPaints)
      ensures lastTime == t.now
      ensures left == SleepBudget(env.screen.refreshRate, Signed(Elapsed(old(lastTime), t.now)))
      ensures sleeps == old(sleeps) + (if left > 0 then [left % U32] else [])
    {
      var interval := Elapsed(lastTime, t.now);
      grabOut := if hold then grab else t.grabbed;
      scene := SubmitGrab(grabOut, env, t.mouse, interval, ease);
      label submittedAt:
      left := FinishTick(t.now, env.screen.refreshRate, interval);
      assert OverlayStates() == old@submittedAt(OverlayStates());
      assert CurrentParams(t.mouse) == old@submittedAt(CurrentParams(t.mouse));
      assert scene != null ==> scene.State() == old@submittedAt(scene.State());
    }

    /** The end of a tick: store the clock, then sleep what is left of the budget. */
    method FinishTick(now: nat, refreshRate: real, interval: nat) returns (left: int)
      requires Valid()
      requires now < U64 && refreshRate > 0.0 && interval < U64
      modifies this`lastTime, this`sleeps
      ensures Valid()
      ensures lastTime == now
      ensures left == SleepBudget(refreshRate, Signed(interval))
      ensures sleeps == old(sleeps) + (if left > 0 then [left % U32] else [])
    {
      lastTime := now;
      left := SleepRest(refreshRate, interval);
    }

    /** A tick after the grab: submit a scene for a grabbed image, or count a failed grab. */
    method SubmitGrab(grab: Option<Image>, env: RunEnv, mouse: Point, interval: nat, ease: Easing) returns (scene: FrameScene?)
      requires Valid()
      requires grab.Some? ==> PaintableSize(grab.value.size)
      modifies this`frameNumber, this`submitted, this`grabFailures, this`magPaints
      modifies magSwitch, cameraSwitch, titleSwitch, logoSwitch
      ensures Valid()
      ensures (scene == null) <==> grab.None?
      ensures frameNumber == old(frameNumber) + (if grab.Some? && isSaving then 1 else 0)
      ensures grab.Some? ==> fresh(scene) && scene.Valid()
      ensures grab.Some? ==> scene.id == frameNumber && scene.resolution == grab.value.size
      ensures grab.Some? ==> scene.outputFilename == (if isSaving then FrameFileName(basePath, frameNumber) else "")
      ensures grab.Some? ==> scene.State() == Build(PlanOf(grab.value, env, CurrentParams(mouse), OverlayStates(), ease))
      ensures grab.Some? ==> OverlayStates() == StepOverlays(old(OverlayStates()), interval, lastCameraFrame.Some?)
      ensures grab.None? ==> OverlayStates() == old(OverlayStates())
      ensures grab.Some? ==> submitted == old(submitted) + [scene]
      ensures grab.None? ==> submitted == old(submitted)
      ensures grabFailures == old(grabFailures) + (if grab.None? then 1 else 0)
      ensures grab.None? ==> magPaints == old(magPaints)
    {
      if grab.Some? {
        scene := SubmitFrame(grab.value, env, mouse, interval, ease);
      } else {
        scene := null;
        grabFailures := grabFailures + 1;
      }
    }

    /**
     * The grabbed branch of a tick: when saving, advance the frame number and name the file
     * after it; compose the scene and hand it to the pool.
     */
    method SubmitFrame(grab: Image, env: RunEnv, mouse: Point, interval: nat, ease: Easing) returns (scene: FrameScene)
      requires Valid()
      requires PaintableSize(grab.size)
      modifies this`frameNumber, this`submitted, this`magPaints
      modifies magSwitch, cameraSwitch, titleSwitch, logoSwitch
      ensures Valid()
      ensures frameNumber == old(frameNumber) + (if isSaving then 1 else 0)
      ensures fresh(scene) && scene.Valid()
      ensures scene.id == frameNumber
      ensures scene.outputFilename == (if isSaving then FrameFileName(basePath, frameNumber) else "")
      ensures scene.resolution == grab.size
      ensures scene.State() == Build(PlanOf(grab, env, CurrentParams(mouse), OverlayStates(), ease))
      ensures OverlayStates() == StepOverlays(old(OverlayStates()), interval, lastCameraFrame.Some?)
      ensures submitted == old(submitted) + [scene]
    {
      var path := AdvanceFrame();
      scene := ComposeScene(grab, env, mouse, path, interval, ease);
      submitted := submitted + [scene];
    }

    /** When saving, the next frame number and the file it is saved to; otherwise no file. */
    method AdvanceFrame() returns (path: string)
      requires Valid()
      modifies this`frameNumber
      ensures Valid()
      ensures frameNumber == old(frameNumber) + (if isSaving then 1 else 0)
      ensures path == (if isSaving then FrameFileName(basePath, frameNumber) else "")
    {
      if isSaving {
        frameNumber := frameNumber + 1;
        path := FrameFileName(basePath, frameNumber);
      } else {
        path := "";
      }
    }

    /** The end of a tick: the budget left of a quarter refresh period, slept (as a quint32) when positive. */
    method SleepRest(refreshRate: real, interval: nat) returns (left: int)
      requires refreshRate > 0.0 && interval < U64
      modifies this`sleeps
      ensures left == SleepBudget(refreshRate, Signed(interval))
      ensures sleeps == old(sleeps) + (if left > 0 then [left % U32] else [])
    {
      left := SleepBudget(refreshRate, Signed(interval));
      if left > 0 {
        sleeps := sleeps + [left % U32];
      }
    }

    /**
     * run(): nothing at all without a screen; otherwise clear, tick until stop arrives (the
     * input marking the tick during which stop() is called) or the given ticks end, and clear
     * again once stopped. Saved frames are numbered consecutively from the current number and
     * never share a file name; without saving every scene repeats the current number.
     */
    method Run(screen: Option<Screen>, logo: Image, ticks: seq<TickInput>, ease: Easing)
      requires Valid()
      requires screen.Some? ==> screen.value.refreshRate > 0.0
      requires forall k :: 0 <= k < |ticks| ==> ticks[k].now < U64
      requires forall k :: 0 <= k < |ticks| ==> ticks[k].grabbed.Some? ==> PaintableSize(ticks[k].grabbed.value.size)
      modifies this`frameNumber, this`submitted, this`grabFailures, this`lastTime, this`sleeps, this`magPaints
      modifies this`done, this`emitted, magSwitch, cameraSwitch, titleSwitch, logoSwitch
      ensures Valid()
      ensures screen.None? ==> emitted == old(emitted) && submitted == old(submitted) && frameNumber == old(frameNumber)
      ensures screen.Some? ==> (&& |emitted| >= |old(emitted)| + 1
                                && emitted[|old(emitted)|] == Emitted(lastCompletedFrame + 1, BlackFrame(screen.value.size)))
      ensures screen.Some? && done ==> emitted[|emitted| - 1] == Emitted(lastCompletedFrame + 1, BlackFrame(screen.value.size))
      ensures |submitted| >= |old(submitted)|
      ensures forall k :: |old(submitted)| <= k < |submitted| ==>
                submitted[k].id == (if isSaving then old(frameNumber) + (k - |old(submitted)|) + 1 else old(frameNumber))
      ensures isSaving ==> forall k, l :: |old(submitted)| <= k < l < |submitted| ==>
                submitted[k].outputFilename != submitted[l].outputFilename
      ensures !isSaving ==> forall k :: |old(submitted)| <= k < |submitted| ==> submitted[k].outputFilename == ""
    {
      if screen.None? {
        return;
      }
      var sc := screen.value;
      Clear(sc);
      var env := Setup(sc, logo);
      TickLoop(env, ticks, ease);
      if done {
        Clear(sc);
      }
      ghost var n0 := |old(submitted)|;
      forall k, l | n0 <= k < l < |submitted| && isSaving
        ensures submitted[k].outputFilename != submitted[l].outputFilename
      {
        if submitted[k].outputFilename == submitted[l].outputFilename {
          FrameFileNameInjective(basePath, submitted[k].id, submitted[l].id);
        }
      }
    }

    /**
     * run's loop: tick until stop arrives (the input marking the tick during which stop()
     * is called) or the given ticks end. Each submitted scene carries the frame number after
     * its tick, and when saving the file named after it.
     */
    method TickLoop(env: RunEnv, ticks: seq<TickInput>, ease: Easing)
      requires Valid()
      requires env.screen.refreshRate > 0.0
      requires forall k :: 0 <= k < |ticks| ==> ticks[k].now < U64
      requires forall k :: 0 <= k < |ticks| ==> ticks[k].grabbed.Some? ==> PaintableSize(ticks[k].grabbed.value.size)
      modifies this`frameNumber, this`submitted, this`grabFailures, this`lastTime, this`sleeps, this`magPaints
      modifies this`done, magSwitch, cameraSwitch, titleSwitch, logoSwitch
      ensures Valid()
      ensures |submitted| >= |old(submitted)|
      ensures forall k :: |old(submitted)| <= k < |submitted| ==>
                submitted[k].id == (if isSaving then old(frameNumber) + (k - |old(submitted)|) + 1 else old(frameNumber))
      ensures forall k :: |old(submitted)| <= k < |submitted| ==>
                submitted[k].outputFilename == (if isSaving then FrameFileName(basePath, submitted[k].id) else "")
    {
      var grab: Option<Image> := None;
      var i := 0;
      ghost var n0 := |submitted|;
      ghost var f0 := frameNumber;
      while !done && i < |ticks|
        invariant 0 <= i <= |ticks|
        invariant Valid()
        invariant grab.Some? ==> PaintableSize(grab.value.size)
        invariant Numbered(submitted, n0, f0, isSaving, basePath)
        invariant frameNumber == (if isSaving then f0 + (|submitted| - n0) else f0)
        decreases |ticks| - i
      {
        ghost var before := submitted;
        grab := LoopPass(ticks[i], env, grab, ease);
        NumberedPass(before, submitted, n0, f0, isSaving, basePath);
        i := i + 1;
      }
    }

    /**
     * One pass of run's loop: a tick, then the stop request if it arrived during it. A
     * grabbed tick submits exactly one scene, numbered with the frame number after the
     * tick and, when saving, filed under that number; earlier scenes stay as they were.
     */
    method LoopPass(t: TickInput, env: RunEnv, grab: Option<Image>, ease: Easing) returns (grabOut: Option<Image>)
      requires Valid()
      requires t.now < U64 && env.screen.refreshRate > 0.0
      requires t.grabbed.Some? ==> PaintableSize(t.grabbed.value.size)
      requires grab.Some? ==> PaintableSize(grab.value.size)
      modifies this`frameNumber, this`submitted, this`grabFailures, this`lastTime, this`sleeps, this`magPaints
      modifies this`done, magSwitch, cameraSwitch, titleSwitch, logoSwitch
      ensures Valid()
      ensures grabOut.Some? ==> PaintableSize(grabOut.value.size)
      ensures done == (old(done) || t.stop)
      ensures frameNumber == old(frameNumber) + (if grabOut.Some? && isSaving then 1 else 0)
      ensures |submitted| == |old(submitted)| + (if grabOut.Some? then 1 else 0)
      ensures submitted[..|old(submitted)|] == old(submitted)
      ensures grabOut.Some? ==> submitted[|submitted| - 1].id == frameNumber
      ensures grabOut.Some? ==> submitted[|submitted| - 1].outputFilename == (if isSaving then FrameFileName(basePath, frameNumber) else "")
    {
      var scene: FrameScene?;
      var left: int;
      grabOut, scene, left := Tick(t, env, grab, ease);
      if t.stop {
        Stop();
      }
    }
  }

  /**
   * The scenes from position n0 on are numbered consecutively after f0 and filed under
   * their number when saving, and all carry f0 and no file name otherwise.
   */
  ghost predicate Numbered(ss: seq<FrameScene>, n0: nat, f0: nat, saving: bool, base: string)
  {
    && n0 <= |ss|
    && (forall k :: n0 <= k < |ss| ==> ss[k].id == (if saving then f0 + (k - n0) + 1 else f0))
    && (forall k :: n0 <= k < |ss| ==> ss[k].outputFilename == (if saving then FrameFileName(base, ss[k].id) else ""))
  }

  /** A scene carrying the next number keeps the numbering. */
  lemma NumberedSnoc(ss: seq<FrameScene>, s: FrameScene, n0: nat, f0: nat, saving: bool, base: string)
    requires Numbered(ss, n0, f0, saving, base)
    requires s.id == (if saving then f0 + (|ss| - n0) + 1 else f0)
    requires s.outputFilename == (if saving then FrameFileName(base, s.id) else "")
    ensures Numbered(ss + [s], n0, f0, saving, base)
  {
    var t := ss + [s];
    assert forall k :: n0 <= k < |ss| ==> t[k] == ss[k];
  }

  /** A pass that adds at most one scene, carrying the next number, keeps the numbering. */
  lemma NumberedPass(before: seq<FrameScene>, after: seq<FrameScene>, n0: nat, f0: nat, saving: bool, base: string)
    requires Numbered(before, n0, f0, saving, base)
    requires |before| <= |after| <= |before| + 1 && after[..|before|] == before
    requires |after| > |before| ==> after[|after| - 1].id == (if saving then f0 + (|before| - n0) + 1 else f0)
    requires |after| > |before| ==> after[|after| - 1].outputFilename == (if saving then FrameFileName(base, after[|after| - 1].id) else "")
    ensures Numbered(after, n0, f0, saving, base)
  {
    if |after| > |before| {
      assert after == before + [after[|after| - 1]];
      NumberedSnoc(before, after[|after| - 1], n0, f0, saving, base);
    } else {
      assert after == before;
    }
  }

  /**
   * The scene side of a tick: a new scene with the frame number, file name and grab size,
   * then the screen layer and each overlay's if-block in z-order.
   */
  method NewTickScene(id: nat, path: string, grab: Image, env: RunEnv, p: Params, cam: Reading, mag: Reading, title: Reading, logo: Reading)
    returns (scene: FrameScene)
    ensures fresh(scene) && scene.Valid()
    ensures scene.id == id && scene.outputFilename == path && scene.resolution == grab.size
    ensures scene.State() == Build(TickPlan(grab, env, p, cam, mag, title, logo))
  {
    scene := new FrameScene(id, path, grab.size);
    var screenEntry := [Entry(ScreenLayerName, ImageLayer(1.0, Identity, Some(grab)))];
    AddEntries(scene, [], screenEntry);
    var camEntries := CameraEntries(env, p, cam);
    AddEntries(scene, screenEntry, camEntries);
    var magEntries := MagEntries(p, mag);
    AddEntries(scene, screenEntry + camEntries, magEntries);
    var titleEntries := TitleEntries(scene.resolution.width, p, title);
    AddEntries(scene, screenEntry + camEntries + magEntries, titleEntries);
    var logoEntries := LogoEntries(env, logo);
    AddEntries(scene, screenEntry + camEntries + magEntries + titleEntries, logoEntries);
  }

  /**
   * One if-block of the tick body: add the overlay's layer to the scene when the plan has
   * one, through addImageLayer or addTitleLayer by its kind.
   */
  method AddEntries(scene: FrameScene, ghost prefix: seq<Entry>, es: seq<Entry>)
    requires scene.Valid() && scene.State() == Build(prefix) && |es| <= 1
    modifies scene
    ensures scene.Valid() && scene.State() == Build(prefix + es)
  {
    if es != [] {
      var e := es[0];
      BuildSnoc(prefix, e);
      assert es == [e];
      match e.layer
      case ImageLayer(o, t, img) => scene.AddImageLayer(e.name, img, o, t);
      case TitleLayer(o, t, title, sub) => scene.AddTitleLayer(e.name, title, sub, o, t);
    } else {
      assert prefix + es == prefix;
    }
  }

  /** Adding one more entry to a built scene is building the longer sequence. */
  lemma BuildSnoc(es: seq<Entry>, e: Entry)
    ensures Build(es + [e]) == AddLayer(Build(es), e.name, e.layer)
  {
    assert (es + [e])[..|es|] == es;
  }
}
