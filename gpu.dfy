/**
 * The graphics and compute drivers as the video filters see them: OpenGL texture
 * names and OpenCL object handles are naturals (0 meaning "none"), and every call
 * that creates, releases or uses one is appended to an event log. Replaying the log
 * gives the set of live handles; a log is legal when it never releases a handle
 * that is not live and never hands out one that is.
 */
module Gpu {
  import opened QtTypes

  /** QAbstractVideoBuffer::HandleType, reduced to the two kinds the filters accept. */
  datatype HandleType = NoHandle | GLTextureHandle | OtherHandle

  /** QVideoFrame::PixelFormat, reduced to the two planar formats the filters single out. */
  datatype PixelFormat = YUV420P | YV12 | Packed

  /** A camera frame: whether it is valid, where its pixels live, their layout, its size and, for a GL frame, its texture. */
  datatype VideoFrame = VideoFrame(valid: bool, handleType: HandleType, format: PixelFormat, size: Size, texture: nat)

  /** Both filters accept valid frames held in system memory or in a GL texture. */
  predicate Supported(f: VideoFrame)
  {
    f.valid && (f.handleType == NoHandle || f.handleType == GLTextureHandle)
  }

  predicate Planar(f: VideoFrame)
  {
    f.format == YUV420P || f.format == YV12
  }

  /** How an interop image may be used by the kernel. */
  datatype Access = ReadOnly | WriteOnly

  /** What a compute handle created during set-up stands for. */
  datatype Kind = Context | Queue | Program | Kernel

  /** A kernel argument: an image object or the float emboss factor. */
  datatype Arg = Mem(handle: nat) | Factor(value: real)

  /** One driver call with an effect the filters depend on. */
  datatype Event =
    | GenTexture(texture: nat, size: Size)          // glGenTextures, then storage allocated at the filter's size
    | DeleteTexture(texture: nat)                   // glDeleteTextures
    | BindTexture(texture: nat)
    | Upload(texture: nat, size: Size)              // glTexSubImage2D of the frame's pixels
    | Create(kind: Kind, handle: nat)               // a successful clCreate* of a set-up object
    | CreateImage(handle: nat, texture: nat, access: Access)  // clCreateFromGLTexture2D
    | Release(handle: nat)                          // clRelease*
    | GlFinish
    | Acquire(handles: seq<nat>)                    // clEnqueueAcquireGLObjects
    | SetArg(kernel: nat, index: nat, arg: Arg)
    | Enqueue(kernel: nat, width: int, height: int) // clEnqueueNDRangeKernel over the whole image
    | ReleaseGl(handles: seq<nat>)                  // clEnqueueReleaseGLObjects
    | ClFinish(queue: nat)
    | GetTexImage(target: nat)                      // glGetTexImage, given this number as its texture target

  /** The live GL textures and CL objects. */
  datatype Pool = Pool(textures: set<nat>, objects: set<nat>)

  /** The two name spaces a handle lives in. */
  datatype Space = Textures | Objects

  function Live(p: Pool, s: Space): set<nat>
  {
    if s == Textures then p.textures else p.objects
  }

  /** Whether e brings handle h of space s to life. */
  predicate Makes(e: Event, s: Space, h: nat)
  {
    if s == Textures then e.GenTexture? && e.texture == h
    else (e.Create? && e.handle == h) || (e.CreateImage? && e.handle == h)
  }

  /** Whether e ends the life of handle h of space s. */
  predicate Frees(e: Event, s: Space, h: nat)
  {
    if s == Textures then e.DeleteTexture? && e.texture == h
    else e.Release? && e.handle == h
  }

  /** The live handles after e. */
  function Effect(p: Pool, e: Event): (r: Pool)
    ensures !e.GenTexture? && !e.DeleteTexture? ==> r.textures == p.textures
    ensures !e.Create? && !e.CreateImage? && !e.Release? ==> r.objects == p.objects
  {
    match e
    case GenTexture(t, _) => p.(textures := p.textures + {t})
    case DeleteTexture(t) => p.(textures := p.textures - {t})
    case Create(_, h) => p.(objects := p.objects + {h})
    case CreateImage(h, _, _) => p.(objects := p.objects + {h})
    case Release(h) => p.(objects := p.objects - {h})
    case _ => p
  }

  /** An event makes live what it creates, ends what it frees, and leaves every other handle as it was. */
  lemma EffectSpec(p: Pool, e: Event, s: Space, h: nat)
    ensures Makes(e, s, h) ==> h in Live(Effect(p, e), s)
    ensures Frees(e, s, h) ==> h !in Live(Effect(p, e), s)
    ensures !Makes(e, s, h) && !Frees(e, s, h) ==> (h in Live(Effect(p, e), s) <==> h in Live(p, s))
  {
  }

  /** e is legal on pool p: a new handle is non-zero and not live, a released or used handle is live. */
  predicate Allowed(p: Pool, e: Event)
  {
    match e
    case GenTexture(t, _) => t != 0 && t !in p.textures
    case DeleteTexture(t) => t in p.textures
    case Create(_, h) => h != 0 && h !in p.objects
    case CreateImage(h, _, _) => h != 0 && h !in p.objects
    case Release(h) => h in p.objects
    case Acquire(hs) => forall i :: 0 <= i < |hs| ==> hs[i] in p.objects
    case ReleaseGl(hs) => forall i :: 0 <= i < |hs| ==> hs[i] in p.objects
    case _ => true
  }

  /** The live handles after a log, starting from none. */
  function Replay(es: seq<Event>): Pool
    decreases |es|
  {
    if es == [] then Pool({}, {}) else Effect(Replay(es[..|es| - 1]), es[|es| - 1])
  }

  /** Every handle live after a log was brought to life by one of its events. */
  lemma {:induction false} ReplayMade(es: seq<Event>, s: Space, h: nat)
    requires h in Live(Replay(es), s)
    ensures exists i :: 0 <= i < |es| && Makes(es[i], s, h)
    decreases |es|
  {
    var init := es[..|es| - 1];
    var last := |es| - 1;
    if !Makes(es[last], s, h) {
      EffectSpec(Replay(init), es[last], s, h);
      ReplayMade(init, s, h);
      var i :| 0 <= i < |init| && Makes(init[i], s, h);
      assert es[i] == init[i];
    }
  }

  /** Every event of the log is allowed on the pool its predecessors leave. */
  predicate Legal(es: seq<Event>)
    decreases |es|
  {
    es == [] || (Legal(es[..|es| - 1]) && Allowed(Replay(es[..|es| - 1]), es[|es| - 1]))
  }

  /** Appending an allowed event keeps a log legal and applies its effect. */
  lemma LegalSnoc(es: seq<Event>, e: Event)
    requires Legal(es) && Allowed(Replay(es), e)
    ensures Legal(es + [e]) && Replay(es + [e]) == Effect(Replay(es), e)
  {
    assert (es + [e])[..|es|] == es;
  }

  /**
   * pools witnesses the log es: it starts with nothing live, and each event is allowed on
   * the pool before it and leads to the pool after it.
   */
  ghost predicate Witnesses(es: seq<Event>, pools: seq<Pool>)
  {
    && |pools| == |es| + 1
    && pools[0] == Pool({}, {})
    && (forall i :: 0 <= i < |es| ==> Allowed(pools[i], es[i]) && pools[i + 1] == Effect(pools[i], es[i]))
  }

  /** A witnessed log is legal, and its last pool is what replaying it gives. */
  lemma {:induction false} WitnessedLegal(es: seq<Event>, pools: seq<Pool>)
    requires Witnesses(es, pools)
    ensures Legal(es) && Replay(es) == pools[|es|]
    decreases |es|
  {
    if es != [] {
      var n := |es| - 1;
      assert Witnesses(es[..n], pools[..n + 1]);
      WitnessedLegal(es[..n], pools[..n + 1]);
    }
  }

  /** Appending an allowed event and its effect keeps the witness. */
  lemma WitnessSnoc(es: seq<Event>, pools: seq<Pool>, e: Event)
    requires Witnesses(es, pools) && Allowed(pools[|es|], e)
    ensures Witnesses(es + [e], pools + [Effect(pools[|es|], e)])
  {
    var es2, pools2 := es + [e], pools + [Effect(pools[|es|], e)];
    forall i | 0 <= i < |es2|
      ensures Allowed(pools2[i], es2[i]) && pools2[i + 1] == Effect(pools2[i], es2[i])
    {
      if i < |es| {
        assert es2[i] == es[i] && pools2[i] == pools[i] && pools2[i + 1] == pools[i + 1];
      }
    }
  }

  /** After a log that ends by freeing h and never makes it again, h is not live. */
  lemma {:induction false} DeadAfterFree(es: seq<Event>, s: Space, h: nat, i: nat)
    requires i < |es| && Frees(es[i], s, h)
    requires forall k :: i < k < |es| ==> !Makes(es[k], s, h)
    ensures h !in Live(Replay(es), s)
    decreases |es|
  {
    var last := es[|es| - 1];
    var prefix := es[..|es| - 1];
    EffectSpec(Replay(prefix), last, s, h);
    if i < |es| - 1 {
      DeadAfterFree(prefix, s, h, i);
      assert !Makes(last, s, h);
    }
  }

  /**
   * No handle is released twice: in a legal log, between two releases (or two
   * deletions) of the same handle there is an event that created it again.
   */
  lemma {:induction false} NoDoubleRelease(es: seq<Event>, s: Space, h: nat, i: nat, j: nat)
    requires Legal(es)
    requires i < j < |es| && Frees(es[i], s, h) && Frees(es[j], s, h)
    ensures exists k :: i < k < j && Makes(es[k], s, h)
    decreases |es|
  {
    var prefix := es[..|es| - 1];
    if j < |es| - 1 {
      NoDoubleRelease(prefix, s, h, i, j);
      var k :| i < k < j && Makes(prefix[k], s, h);
      assert Makes(es[k], s, h);
    } else {
      assert Allowed(Replay(prefix), es[j]);
      assert h in Live(Replay(prefix), s);
      if forall k :: i < k < j ==> !Makes(es[k], s, h) {
        DeadAfterFree(prefix, s, h, i);
        assert false;
      }
    }
  }

  /** A legal log creates a handle only while it is not live: two creations are separated by a release. */
  lemma {:induction false} NoDoubleCreate(es: seq<Event>, s: Space, h: nat, i: nat, j: nat)
    requires Legal(es)
    requires i < j < |es| && Makes(es[i], s, h) && Makes(es[j], s, h)
    ensures exists k :: i < k < j && Frees(es[k], s, h)
    decreases |es|
  {
    var prefix := es[..|es| - 1];
    if j < |es| - 1 {
      NoDoubleCreate(prefix, s, h, i, j);
      var k :| i < k < j && Frees(prefix[k], s, h);
      assert Frees(es[k], s, h);
    } else {
      assert Allowed(Replay(prefix), es[j]);
      assert h !in Live(Replay(prefix), s);
      if forall k :: i < k < j ==> !Frees(es[k], s, h) {
        LiveAfterMake(prefix, s, h, i);
        assert false;
      }
    }
  }

  /** After a log that makes h and never frees it again, h is live. */
  lemma {:induction false} LiveAfterMake(es: seq<Event>, s: Space, h: nat, i: nat)
    requires i < |es| && Makes(es[i], s, h)
    requires forall k :: i < k < |es| ==> !Frees(es[k], s, h)
    ensures h in Live(Replay(es), s)
    decreases |es|
  {
    var last := es[|es| - 1];
    var prefix := es[..|es| - 1];
    EffectSpec(Replay(prefix), last, s, h);
    if i < |es| - 1 {
      LiveAfterMake(prefix, s, h, i);
      assert !Frees(last, s, h);
    }
  }

  /** A device's log is legal, and replaying it gives exactly the device's live handles. */
  lemma DeviceLogLegal(d: Device)
    requires d.Valid()
    ensures Legal(d.events) && Replay(d.events) == Pool(d.textures, d.objects)
  {
    WitnessedLegal(d.events, d.pools);
  }

  /** The releases of the objects that exist among hs, in the order given: a 0 handle is skipped. */
  function Releases(hs: seq<nat>): (es: seq<Event>)
    ensures |es| <= |hs|
    ensures forall e :: e in es ==> e.Release?
    ensures forall h :: Release(h) in es <==> h != 0 && h in hs
  {
    if hs == [] then []
    else (if hs[0] != 0 then [Release(hs[0])] else []) + Releases(hs[1..])
  }

  /** The first handle, when it exists, is released first, and the last one last. */
  lemma {:induction false} ReleasesEnds(hs: seq<nat>)
    ensures hs != [] && hs[0] != 0 ==> |Releases(hs)| >= 1 && Releases(hs)[0] == Release(hs[0])
    ensures hs != [] && hs[|hs| - 1] != 0 ==> |Releases(hs)| >= 1 && Releases(hs)[|Releases(hs)| - 1] == Release(hs[|hs| - 1])
    decreases |hs|
  {
    if |hs| > 1 {
      ReleasesEnds(hs[1..]);
    }
  }

  /**
   * The drivers of one GL context and its CL context: the live textures and objects,
   * which texture each interop image wraps, the next unused name, and the log.
   */
  class Device {
    var textures: set<nat>
    var objects: set<nat>
    var wraps: map<nat, nat>
    var next: nat
    var events: seq<Event>
    ghost var pools: seq<Pool>

    ghost predicate Valid()
      reads this
    {
      && Witnesses(events, pools)
      && pools[|events|] == Pool(textures, objects)
      && 1 <= next
      && (forall t :: t in textures ==> t < next)
      && (forall h :: h in objects ==> h < next)
    }

    constructor ()
      ensures Valid()
      ensures textures == {} && objects == {} && wraps == map[] && events == []
    {
      textures := {};
      objects := {};
      wraps := map[];
      next := 1;
      events := [];
      pools := [Pool({}, {})];
    }

    /** glGenTextures followed by storage allocation: a name that is not in use. */
    method GenTexture(size: Size) returns (t: nat)
      requires Valid()
      modifies this`textures, this`next, this`events, this`pools
      ensures Valid()
      ensures t != 0 && t !in old(textures)
      ensures textures == old(textures) + {t}
      ensures events == old(events) + [Event.GenTexture(t, size)]
    {
      t := next;
      WitnessSnoc(events, pools, Event.GenTexture(t, size));
      pools := pools + [Effect(pools[|events|], Event.GenTexture(t, size))];
      events := events + [Event.GenTexture(t, size)];
      textures := textures + {t};
      next := next + 1;
    }

    /** glDeleteTextures of a texture this device knows to be live. */
    method DeleteTexture(t: nat)
      requires Valid() && t in textures
      modifies this`textures, this`events, this`pools
      ensures Valid()
      ensures textures == old(textures) - {t}
      ensures events == old(events) + [Event.DeleteTexture(t)]
    {
      WitnessSnoc(events, pools, Event.DeleteTexture(t));
      pools := pools + [Effect(pools[|events|], Event.DeleteTexture(t))];
      events := events + [Event.DeleteTexture(t)];
      textures := textures - {t};
    }

    /** A clCreate* call whose success is decided by the driver (ok); 0 on failure. */
    method Create(kind: Kind, ok: bool) returns (h: nat)
      requires Valid()
      modifies this`objects, this`next, this`events, this`pools
      ensures Valid()
      ensures ok ==> h != 0 && h !in old(objects) && objects == old(objects) + {h}
                     && events == old(events) + [Event.Create(kind, h)]
      ensures !ok ==> h == 0 && objects == old(objects) && events == old(events)
    {
      h := 0;
      if ok {
        h := next;
        WitnessSnoc(events, pools, Event.Create(kind, h));
        pools := pools + [Effect(pools[|events|], Event.Create(kind, h))];
        events := events + [Event.Create(kind, h)];
        objects := objects + {h};
        next := next + 1;
      }
    }

    /** clCreateFromGLTexture2D: an image object over a GL texture, or 0 when the driver refuses. */
    method CreateImage(texture: nat, access: Access, ok: bool) returns (h: nat)
      requires Valid()
      modifies this`objects, this`next, this`events, this`wraps, this`pools
      ensures Valid()
      ensures ok ==> h != 0 && h !in old(objects) && objects == old(objects) + {h}
                     && events == old(events) + [Event.CreateImage(h, texture, access)]
                     && wraps == old(wraps)[h := texture]
      ensures !ok ==> h == 0 && objects == old(objects) && events == old(events) && wraps == old(wraps)
    {
      h := 0;
      if ok {
        h := next;
        WitnessSnoc(events, pools, Event.CreateImage(h, texture, access));
        pools := pools + [Effect(pools[|events|], Event.CreateImage(h, texture, access))];
        events := events + [Event.CreateImage(h, texture, access)];
        objects := objects + {h};
        wraps := wraps[h := texture];
        next := next + 1;
      }
    }

    /** clRelease* of an object this device knows to be live. */
    method Release(h: nat)
      requires Valid() && h in objects
      modifies this`objects, this`events, this`pools
      ensures Valid()
      ensures objects == old(objects) - {h}
      ensures events == old(events) + [Event.Release(h)]
    {
      WitnessSnoc(events, pools, Event.Release(h));
      pools := pools + [Effect(pools[|events|], Event.Release(h))];
      events := events + [Event.Release(h)];
      objects := objects - {h};
    }

    /** Releases the non-zero handles of hs, which are live and pairwise different, in order. */
    method ReleaseEach(hs: seq<nat>)
      requires Valid()
      requires forall i :: 0 <= i < |hs| && hs[i] != 0 ==> hs[i] in objects
      requires forall i, j :: 0 <= i < j < |hs| && hs[i] != 0 ==> hs[i] != hs[j]
      modifies this`objects, this`events, this`pools
      ensures Valid()
      ensures events == old(events) + Releases(hs)
      ensures forall h :: h in objects <==> h in old(objects) && (h == 0 || h !in hs)
      decreases |hs|
    {
      if hs != [] {
        ghost var first := if hs[0] != 0 then [Event.Release(hs[0])] else [];
        if hs[0] != 0 {
          Release(hs[0]);
        }
        ReleaseEach(hs[1..]);
        assert events == old(events) + (first + Releases(hs[1..]));
        forall h | h in hs
          ensures h == hs[0] || h in hs[1..]
        {
        }
      }
    }

    /** Any other call: it creates and frees nothing, and may only use live objects. */
    method Call(e: Event)
      requires Valid() && Allowed(Pool(textures, objects), e)
      requires Effect(Pool(textures, objects), e) == Pool(textures, objects)
      modifies this`events, this`pools
      ensures Valid()
      ensures events == old(events) + [e]
    {
      WitnessSnoc(events, pools, e);
      pools := pools + [Effect(pools[|events|], e)];
      events := events + [e];
    }

    /** A run of calls that create and free nothing, each using only live objects. */
    method Calls(es: seq<Event>)
      requires Valid()
      requires forall i :: 0 <= i < |es| ==> Allowed(Pool(textures, objects), es[i])
      requires forall i :: 0 <= i < |es| ==> Effect(Pool(textures, objects), es[i]) == Pool(textures, objects)
      modifies this`events, this`pools
      ensures Valid()
      ensures events == old(events) + es
    {
      var i := 0;
      while i < |es|
        invariant 0 <= i <= |es|
        invariant Valid()
        invariant events == old(events) + es[..i]
      {
        WitnessSnoc(events, pools, es[i]);
        pools := pools + [Effect(pools[|events|], es[i])];
        events := events + [es[i]];
        assert es[..i + 1] == es[..i] + [es[i]];
        i := i + 1;
      }
      assert es[..|es|] == es;
    }
  }
}
