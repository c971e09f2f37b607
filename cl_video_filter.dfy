/**
 * The OpenCL emboss filter the camera grabber runs on every frame: a one-time
 * set-up of the compute context, queue, program and kernel; GL textures for
 * uploaded input and for the output, sized to the frame; two interop image objects
 * over them; and per frame the acquire / kernel / release / finish sequence.
 * Driver calls that can fail are decided by the environment parameters.
 */
module OpenClFilter {
  import opened QtTypes
  import opened Gpu

  /** The driver outcomes of the fallible steps of init(), in the order init() meets them. */
  datatype InitEnv = InitEnv(
    platformCountOk: bool,   // clGetPlatformIDs(0, 0, &n) succeeds
    platforms: nat,          // n
    platformIdsOk: bool,     // clGetPlatformIDs(n, ids, 0) succeeds
    contextOk: bool,         // clCreateContextFromType
    deviceOk: bool,          // the GL context's device, or failing that a GPU device of the platform
    queueOk: bool,           // clCreateCommandQueue
    programOk: bool,         // clCreateProgramWithSource
    buildOk: bool,           // clBuildProgram
    kernelOk: bool)          // clCreateKernel

  /** The driver outcomes of the fallible steps of run(). */
  datatype RunEnv = RunEnv(
    inputImageOk: bool,      // clCreateFromGLTexture2D over the input texture
    formatOk: bool,          // clGetImageInfo(CL_IMAGE_FORMAT) on the new input image
    outputImageOk: bool)     // clCreateFromGLTexture2D over the output texture

  /**
   * How many of context, queue, program and kernel init() creates: it stops at the
   * first failing step, and all four exist only when every step succeeds.
   */
  function InitStage(env: InitEnv): (n: nat)
    ensures n <= 4
    ensures n >= 1 <==> env.platformCountOk && env.platforms > 0 && env.platformIdsOk && env.contextOk
    ensures n >= 2 <==> n >= 1 && env.deviceOk && env.queueOk
    ensures n >= 3 <==> n >= 2 && env.programOk
    ensures n == 4 <==> n >= 3 && env.buildOk && env.kernelOk
  {
    if !env.platformCountOk || env.platforms == 0 || !env.platformIdsOk || !env.contextOk then 0
    else if !env.deviceOk || !env.queueOk then 1
    else if !env.programOk then 2
    else if !env.buildOk || !env.kernelOk then 3
    else 4
  }

  /**
   * The frame run() works on: a planar YUV frame is first converted into a packed image
   * in system memory of the same size; any other frame is used as it is.
   */
  function Normalized(f: VideoFrame): (g: VideoFrame)
    ensures g.size == f.size
    ensures Supported(f) ==> Supported(g) && !Planar(g)
    ensures Planar(f) ==> g.handleType == NoHandle
    ensures !Planar(f) ==> g == f
  {
    if Planar(f) then VideoFrame(f.valid, NoHandle, Packed, f.size, 0) else f
  }

  /** No two of six handles are the same non-zero handle. */
  predicate Distinct6(a: nat, b: nat, c: nat, d: nat, e: nat, f: nat)
  {
    && (a != 0 ==> a != b && a != c && a != d && a != e && a != f)
    && (b != 0 ==> b != c && b != d && b != e && b != f)
    && (c != 0 ==> c != d && c != e && c != f)
    && (d != 0 ==> d != e && d != f)
    && (e != 0 ==> e != f)
  }

  /** The deletions of the textures that exist, in the order given. */
  function Deletions(temp: nat, out: nat): (es: seq<Event>)
    ensures forall e :: e in es ==> e.DeleteTexture?
    ensures forall t :: DeleteTexture(t) in es <==> t != 0 && (t == temp || t == out)
  {
    (if temp != 0 then [DeleteTexture(temp)] else []) + (if out != 0 then [DeleteTexture(out)] else [])
  }

  /** releaseTextures(): the textures are deleted first, then the interop images released. */
  function ReleaseEvents(temp: nat, out: nat, image0: nat, image1: nat): (es: seq<Event>)
    ensures forall t :: DeleteTexture(t) in es <==> t != 0 && (t == temp || t == out)
    ensures forall h :: Release(h) in es <==> h != 0 && (h == image0 || h == image1)
    ensures forall i, j :: 0 <= i < j < |es| && es[i].Release? ==> es[j].Release?
  {
    var d, r := Deletions(temp, out), Releases([image0, image1]);
    assert forall i :: 0 <= i < |d| ==> d[i] in d;
    assert forall i :: 0 <= i < |r| ==> r[i] in r;
    d + r
  }

  /** The destructor's releases of the set-up objects, kernel first and context last. */
  function TeardownEvents(context: nat, queue: nat, program: nat, kernel: nat): (es: seq<Event>)
    ensures forall e :: e in es ==> e.Release?
    ensures forall h :: Release(h) in es <==> h != 0 && (h == kernel || h == program || h == queue || h == context)
    ensures kernel != 0 ==> |es| >= 1 && es[0] == Release(kernel)
    ensures context != 0 ==> |es| >= 1 && es[|es| - 1] == Release(context)
  {
    ReleasesEnds([kernel, program, queue, context]);
    Releases([kernel, program, queue, context])
  }

  /**
   * The calls of a successful run() after the interop images exist: finish GL work,
   * acquire both images, set the kernel's arguments (input, output, factor 5.0),
   * enqueue it over the whole frame, release both images, wait for the queue, and
   * call glGetTexImage with the output texture's name in the place of the texture target
   * (not GL_TEXTURE_2D), destined for the result image.
   */
  function KernelEvents(queue: nat, kernel: nat, image0: nat, image1: nat, size: Size, out: nat): (es: seq<Event>)
    ensures |es| == 9 && es[0] == GlFinish && es[|es| - 1] == GetTexImage(out)
    ensures Enqueue(kernel, size.width, size.height) in es && SetArg(kernel, 2, Factor(5.0)) in es
  {
    [ GlFinish,
      Acquire([image0, image1]),
      SetArg(kernel, 0, Mem(image0)),
      SetArg(kernel, 1, Mem(image1)),
      SetArg(kernel, 2, Factor(5.0)),
      Enqueue(kernel, size.width, size.height),
      ReleaseGl([image0, image1]),
      ClFinish(queue),
      GetTexImage(out) ]
  }

  /**
   * Positions a < k < r < f of es hold the acquisition of both images, the only kernel
   * enqueue, the release of both images and the queue's finish.
   */
  predicate Bracketing(es: seq<Event>, image0: nat, image1: nat, queue: nat, a: int, k: int, r: int, f: int)
  {
    && 0 <= a < k < r < f < |es|
    && es[a] == Acquire([image0, image1]) && es[k].Enqueue?
    && es[r] == ReleaseGl([image0, image1]) && es[f] == ClFinish(queue)
    && (forall i :: 0 <= i < |es| && i != k ==> !es[i].Enqueue?)
  }

  /** In the kernel sequence the images are acquired before the kernel runs and released after it, then the queue is drained. */
  lemma KernelBracketed(queue: nat, kernel: nat, image0: nat, image1: nat, size: Size, out: nat)
    ensures var es := KernelEvents(queue, kernel, image0, image1, size, out);
            exists a, k, r, f :: Bracketing(es, image0, image1, queue, a, k, r, f)
  {
    var es := KernelEvents(queue, kernel, image0, image1, size, out);
    forall i | 0 <= i < |es| && i != 5
      ensures !es[i].Enqueue?
    {
      assert i in {0, 1, 2, 3, 4, 6, 7, 8};
    }
    assert Bracketing(es, image0, image1, queue, 1, 5, 6, 7);
  }

  /** xs ends with ys. */
  predicate EndsWith<T(==)>(xs: seq<T>, ys: seq<T>)
  {
    |ys| <= |xs| && xs[|xs| - |ys|..] == ys
  }

  // ---------------------------------------------------------------------------
  // The input interop image: when is it released and made again?

  /** The last input texture, the input interop image (0 for none) and the texture that image wraps. */
  datatype Binding = Binding(lastInput: nat, image: nat, wrapped: nat)

  /** The input image wraps the last input texture. */
  predicate Tracks(b: Binding)
  {
    b.image != 0 ==> b.wrapped == b.lastInput
  }

  /**
   * As written: the input image is released only for a GL-texture frame, and only when
   * the last input texture is non-zero and differs from the frame's; an uploaded frame
   * leaves the last input texture as it was.
   */
  function RetiresAsWritten(lastInput: nat, image: nat, texture: nat, upload: bool): bool
  {
    !upload && lastInput != 0 && lastInput != texture && image != 0
  }

  /** As written: the binding after run() has chosen its input texture and created a missing image (handle spare). */
  function BindAsWritten(b: Binding, texture: nat, upload: bool, spare: nat): (c: Binding)
    ensures c.lastInput == (if upload then b.lastInput else texture)
    ensures c.image == b.image || (c.image == spare && c.wrapped == texture)
    ensures upload && b.image != 0 ==> c.image == b.image && c.wrapped == b.wrapped
  {
    var image := if RetiresAsWritten(b.lastInput, b.image, texture, upload) then 0 else b.image;
    var last := if upload then b.lastInput else texture;
    if image == 0 then Binding(last, spare, texture) else Binding(last, image, b.wrapped)
  }

  /**
   * As written, the kernel can read a texture other than the frame's: an uploaded frame
   * followed by a GL-texture frame keeps the image over the upload texture, and a
   * GL-texture frame followed by an uploaded frame keeps the image over the old GL texture.
   */
  lemma AsWrittenReadsStaleTexture()
    ensures var b := BindAsWritten(BindAsWritten(Binding(0, 0, 0), 7, true, 5), 9, false, 6);
            b.image == 5 && b.wrapped == 7 && b.wrapped != 9
    ensures var b := BindAsWritten(BindAsWritten(Binding(0, 0, 0), 9, false, 5), 7, true, 6);
            b.image == 5 && b.wrapped == 9 && b.wrapped != 7
  {
  }

  /** Corrected: the input image is released whenever it exists and the input texture differs from the last one, for either kind of frame. */
  function Retires(lastInput: nat, image: nat, texture: nat): bool
  {
    image != 0 && lastInput != texture
  }

  /** Corrected: the binding after choosing the input texture; the last input texture is recorded for both kinds of frame. */
  function Bind(b: Binding, texture: nat, spare: nat): (c: Binding)
    ensures c.lastInput == texture
    ensures c.image == b.image || (c.image == spare && c.wrapped == texture)
    ensures b.image != 0 && b.lastInput != texture ==> c.image == spare && c.wrapped == texture
  {
    var image := if Retires(b.lastInput, b.image, texture) then 0 else b.image;
    if image == 0 then Binding(texture, spare, texture) else Binding(texture, image, b.wrapped)
  }

  /**
   * With the correction, after binding the image wraps exactly the frame's texture, the
   * binding keeps tracking, and the image is kept exactly when it existed over the same texture.
   */
  lemma BindWrapsFrameTexture(b: Binding, texture: nat, spare: nat)
    requires Tracks(b) && spare != 0 && spare != b.image
    ensures var c := Bind(b, texture, spare);
            && Tracks(c) && c.image != 0 && c.wrapped == texture && c.lastInput == texture
            && (c.image == b.image <==> b.image != 0 && b.lastInput == texture)
  {
  }

  /** Over any sequence of frames, the corrected binding always wraps the current frame's texture. */
  lemma {:induction false} BindAllWraps(b: Binding, textures: seq<nat>, spare: seq<nat>)
    requires Tracks(b) && |spare| == |textures| > 0
    requires forall i :: 0 <= i < |spare| ==> spare[i] != 0 && spare[i] != b.image
    requires forall i, j :: 0 <= i < j < |spare| ==> spare[i] != spare[j]
    ensures var c := BindAll(b, textures, spare);
            Tracks(c) && c.image != 0 && c.wrapped == textures[|textures| - 1]
    decreases |textures|
  {
    var c := Bind(b, textures[0], spare[0]);
    BindWrapsFrameTexture(b, textures[0], spare[0]);
    if |textures| > 1 {
      assert c.image == b.image || c.image == spare[0];
      forall i | 0 <= i < |spare[1..]|
        ensures spare[1..][i] != 0 && spare[1..][i] != c.image
      {
        assert spare[1..][i] == spare[i + 1];
      }
      BindAllWraps(c, textures[1..], spare[1..]);
    }
  }

  /** The corrected binding after a sequence of frames, with a spare handle offered for each. */
  function BindAll(b: Binding, textures: seq<nat>, spare: seq<nat>): Binding
    requires |spare| == |textures|
    decreases |textures|
  {
    if textures == [] then b else BindAll(Bind(b, textures[0], spare[0]), textures[1..], spare[1..])
  }

  // ---------------------------------------------------------------------------

  /**
   * CLVideoFilter: the handles it owns (0 for none), the size its textures were made
   * for, and whether init() has run. The filter owns every live handle of its device.
   */
  class CLVideoFilter {
    const gpu: Device
    var size: Size
    var tempTexture: nat
    var outTexture: nat
    var lastInputTexture: nat
    var context: nat
    var queue: nat
    var program: nat
    var kernel: nat
    var image0: nat
    var image1: nat
    var inited: bool

    /** The live textures are exactly the filter's non-zero texture handles, which differ. */
    ghost predicate OwnsTextures()
      reads this`tempTexture, this`outTexture, gpu`textures
    {
      && (forall t :: t in gpu.textures <==> t != 0 && (t == tempTexture || t == outTexture))
      && (tempTexture != 0 ==> tempTexture != outTexture)
    }

    /** The live compute objects are exactly the filter's non-zero object handles, which differ pairwise. */
    ghost predicate OwnsObjects()
      reads this`context, this`queue, this`program, this`kernel, this`image0, this`image1, gpu`objects
    {
      && (forall h :: h in gpu.objects <==>
            h != 0 && (h == context || h == queue || h == program || h == kernel || h == image0 || h == image1))
      && Distinct6(context, queue, program, kernel, image0, image1)
    }

    /** init() creates context, queue, program and kernel in that order, and nothing exists before it runs. */
    ghost predicate SetUpOrdered()
      reads this`context, this`queue, this`program, this`kernel, this`inited, this`image0, this`image1
    {
      && (kernel != 0 ==> program != 0) && (program != 0 ==> queue != 0) && (queue != 0 ==> context != 0)
      && (!inited ==> context == 0 && image0 == 0 && image1 == 0)
    }

    /** The input image wraps the last input texture and the output image the output texture. */
    ghost predicate Wrapping()
      reads this`image0, this`image1, this`lastInputTexture, this`outTexture, gpu`wraps
    {
      && (image0 != 0 ==> image0 in gpu.wraps && gpu.wraps[image0] == lastInputTexture)
      && (image1 != 0 ==> outTexture != 0 && image1 in gpu.wraps && gpu.wraps[image1] == outTexture)
    }

    ghost predicate Valid()
      reads this, gpu
    {
      gpu.Valid() && OwnsTextures() && OwnsObjects() && SetUpOrdered() && Wrapping()
    }

    /** How far init() got: the number of set-up objects that exist. */
    function SetUpStage(): nat
      reads this`context, this`queue, this`program, this`kernel
    {
      if context == 0 then 0 else if queue == 0 then 1 else if program == 0 then 2 else if kernel == 0 then 3 else 4
    }

    /** A new filter holds nothing, has not been initialised, and has the invalid size. */
    constructor (gpu: Device)
      requires gpu.Valid() && gpu.textures == {} && gpu.objects == {}
      ensures Valid() && this.gpu == gpu
      ensures !inited && size == InvalidSize
      ensures tempTexture == 0 && outTexture == 0 && lastInputTexture == 0 && image0 == 0 && image1 == 0
      ensures SetUpStage() == 0
    {
      this.gpu := gpu;
      size := InvalidSize;
      tempTexture := 0;
      outTexture := 0;
      lastInputTexture := 0;
      context := 0;
      queue := 0;
      program := 0;
      kernel := 0;
      image0 := 0;
      image1 := 0;
      inited := false;
    }

    /**
     * init(): does nothing once it has run, whether or not it succeeded; the first time
     * it marks the filter initialised before any fallible step and creates as many of
     * context, queue, program and kernel as the driver allows.
     */
    method Init(env: InitEnv)
      requires Valid()
      modifies this`inited, this`context, this`queue, this`program, this`kernel, this`image0, this`image1
      modifies gpu`objects, gpu`next, gpu`events, gpu`pools
      ensures Valid() && inited
      ensures image0 == old(image0) && image1 == old(image1)
      ensures old(inited) ==> SetUpStage() == old(SetUpStage()) && gpu.events == old(gpu.events)
      ensures !old(inited) ==> SetUpStage() == InitStage(env)
      ensures old(gpu.events) <= gpu.events
    {
      if inited {
        return;
      }
      inited := true;
      image0, image1 := 0, 0;
      SetUp(env);
    }

    /** The fallible part of init(): each object is created only when the steps before it succeeded. */
    method SetUp(env: InitEnv)
      requires gpu.Valid() && OwnsObjects() && context == 0 && queue == 0 && program == 0 && kernel == 0
      modifies this`context, this`queue, this`program, this`kernel, gpu`objects, gpu`next, gpu`events, gpu`pools
      ensures gpu.Valid() && OwnsObjects()
      ensures (kernel != 0 ==> program != 0) && (program != 0 ==> queue != 0) && (queue != 0 ==> context != 0)
      ensures SetUpStage() == InitStage(env)
      ensures old(gpu.events) <= gpu.events
    {
      SetUpQueue(env);
      SetUpKernel(env);
    }

    /** The first half of init()'s fallible part: the context, then the queue on it. */
    method SetUpQueue(env: InitEnv)
      requires gpu.Valid() && OwnsObjects() && context == 0 && queue == 0 && program == 0 && kernel == 0
      modifies this`context, this`queue, gpu`objects, gpu`next, gpu`events, gpu`pools
      ensures gpu.Valid() && OwnsObjects() && program == 0 && kernel == 0
      ensures (context != 0 <==> InitStage(env) >= 1) && (queue != 0 <==> InitStage(env) >= 2)
      ensures old(gpu.events) <= gpu.events
    {
      if env.platformCountOk && env.platforms > 0 && env.platformIdsOk {
        context := gpu.Create(Context, env.contextOk);
      }
      if context != 0 && env.deviceOk {
        queue := gpu.Create(Queue, env.queueOk);
      }
    }

    /** The second half: the program once a queue exists, then the kernel once the program is built. */
    method SetUpKernel(env: InitEnv)
      requires gpu.Valid() && OwnsObjects() && program == 0 && kernel == 0
      requires (context != 0 <==> InitStage(env) >= 1) && (queue != 0 <==> InitStage(env) >= 2)
      modifies this`program, this`kernel, gpu`objects, gpu`next, gpu`events, gpu`pools
      ensures gpu.Valid() && OwnsObjects()
      ensures (kernel != 0 ==> program != 0) && (program != 0 ==> queue != 0) && (queue != 0 ==> context != 0)
      ensures SetUpStage() == InitStage(env)
      ensures old(gpu.events) <= gpu.events
    {
      if queue != 0 {
        program := gpu.Create(Program, env.programOk);
      }
      if program != 0 && env.buildOk {
        kernel := gpu.Create(Kernel, env.kernelOk);
      }
    }

    /**
     * releaseTextures(): deletes the textures and releases the interop images that exist,
     * then every texture, image and the last input texture are 0.
     */
    method ReleaseTextures()
      requires Valid()
      modifies this`tempTexture, this`outTexture, this`lastInputTexture, this`image0, this`image1
      modifies gpu`textures, gpu`objects, gpu`events, gpu`pools
      ensures Valid()
      ensures tempTexture == 0 && outTexture == 0 && lastInputTexture == 0 && image0 == 0 && image1 == 0
      ensures gpu.textures == {}
      ensures gpu.events == old(gpu.events) + ReleaseEvents(old(tempTexture), old(outTexture), old(image0), old(image1))
    {
      ghost var deleted := Deletions(tempTexture, outTexture);
      ghost var released := Releases([image0, image1]);
      DeleteTextures();
      assert OwnsObjects();
      ReleaseImages();
      assert OwnsTextures() && SetUpOrdered() && Wrapping();
      assert gpu.events == (old(gpu.events) + deleted) + released;
      assert (old(gpu.events) + deleted) + released == old(gpu.events) + (deleted + released);
    }

    /** The texture half of releaseTextures(): deletes the textures that exist and zeroes the three texture handles. */
    method DeleteTextures()
      requires gpu.Valid() && OwnsTextures()
      modifies this`tempTexture, this`outTexture, this`lastInputTexture, gpu`textures, gpu`events, gpu`pools
      ensures gpu.Valid() && OwnsTextures()
      ensures tempTexture == 0 && outTexture == 0 && lastInputTexture == 0 && gpu.textures == {}
      ensures gpu.events == old(gpu.events) + Deletions(old(tempTexture), old(outTexture))
    {
      if tempTexture != 0 {
        gpu.DeleteTexture(tempTexture);
      }
      if outTexture != 0 {
        gpu.DeleteTexture(outTexture);
      }
      tempTexture, outTexture, lastInputTexture := 0, 0, 0;
    }

    /** The image half of releaseTextures(): releases the interop images that exist and zeroes both handles. */
    method ReleaseImages()
      requires gpu.Valid() && OwnsObjects()
      modifies this`image0, this`image1, gpu`objects, gpu`events, gpu`pools
      ensures gpu.Valid() && OwnsObjects()
      ensures image0 == 0 && image1 == 0
      ensures gpu.events == old(gpu.events) + Releases([old(image0), old(image1)])
    {
      if image0 != 0 {
        gpu.Release(image0);
      }
      if image1 != 0 {
        gpu.Release(image1);
      }
      image0, image1 := 0, 0;
    }

    /**
     * Choosing the input texture: an uploaded frame goes into the temporary texture,
     * made only when there is none; a GL frame's own texture is used. The input image is
     * released when it wraps a different texture (corrected rule), and the texture is
     * recorded as the last input.
     */
    method BindInput(f: VideoFrame) returns (texture: nat)
      requires Valid() && (f.handleType == NoHandle || f.handleType == GLTextureHandle)
      modifies this`tempTexture, this`lastInputTexture, this`image0
      modifies gpu`textures, gpu`objects, gpu`next, gpu`events, gpu`pools
      ensures Valid()
      ensures f.handleType == NoHandle ==> texture == tempTexture != 0
      ensures f.handleType == NoHandle && old(tempTexture) != 0 ==> tempTexture == old(tempTexture)
      ensures f.handleType == GLTextureHandle ==> texture == f.texture && tempTexture == old(tempTexture)
      ensures lastInputTexture == texture
      ensures image0 == (if Retires(old(lastInputTexture), old(image0), texture) then 0 else old(image0))
      ensures Retires(old(lastInputTexture), old(image0), texture) ==> old(image0) !in gpu.objects
      ensures gpu.objects <= old(gpu.objects)
      ensures old(gpu.events) <= gpu.events
    {
      if f.handleType == NoHandle {
        texture := UploadInput();
      } else {
        texture := f.texture;
        gpu.Call(BindTexture(texture));
      }
      RetireInput(texture);
    }

    /** An uploaded frame goes into the temporary texture, which is made only when there is none. */
    method UploadInput() returns (texture: nat)
      requires gpu.Valid() && OwnsTextures()
      modifies this`tempTexture, gpu`textures, gpu`next, gpu`events, gpu`pools
      ensures gpu.Valid() && OwnsTextures()
      ensures texture == tempTexture != 0
      ensures old(tempTexture) != 0 ==> tempTexture == old(tempTexture)
      ensures old(gpu.events) <= gpu.events
    {
      if tempTexture != 0 {
        gpu.Call(BindTexture(tempTexture));
      } else {
        tempTexture := gpu.GenTexture(size);
      }
      gpu.Call(Upload(tempTexture, size));
      texture := tempTexture;
    }

    /**
     * The input image is released when it exists and the input texture is not the one it
     * was made for (the corrected rule); the texture becomes the last input.
     */
    method RetireInput(texture: nat)
      requires gpu.Valid() && OwnsObjects() && Wrapping()
      modifies this`image0, this`lastInputTexture, gpu`objects, gpu`events, gpu`pools
      ensures gpu.Valid() && OwnsObjects() && Wrapping()
      ensures lastInputTexture == texture
      ensures image0 == (if Retires(old(lastInputTexture), old(image0), texture) then 0 else old(image0))
      ensures Retires(old(lastInputTexture), old(image0), texture) ==> old(image0) !in gpu.objects
      ensures gpu.objects <= old(gpu.objects)
      ensures old(gpu.events) <= gpu.events
    {
      if Retires(lastInputTexture, image0, texture) {
        gpu.Release(image0);
        image0 := 0;
      }
      lastInputTexture := texture;
    }

    /** The output texture is made only when there is none. */
    method EnsureOutput()
      requires Valid()
      modifies this`outTexture, gpu`textures, gpu`next, gpu`events, gpu`pools
      ensures Valid() && outTexture != 0
      ensures old(outTexture) != 0 ==> outTexture == old(outTexture) && gpu.events == old(gpu.events)
      ensures old(outTexture) == 0 ==> gpu.events == old(gpu.events) + [GenTexture(outTexture, size)]
    {
      if outTexture == 0 {
        outTexture := gpu.GenTexture(size);
      }
    }

    /**
     * The interop images are made only when missing: the input image over the input
     * texture (its format queried once), then the output image over the output texture.
     * Any failure ends the attempt; an image made before the failure is kept.
     */
    method EnsureImages(texture: nat, env: RunEnv) returns (ok: bool)
      requires Valid() && inited && lastInputTexture == texture && outTexture != 0
      modifies this`image0, this`image1, gpu`objects, gpu`next, gpu`events, gpu`pools, gpu`wraps
      ensures Valid()
      ensures old(image0) != 0 ==> image0 == old(image0)
      ensures old(image1) != 0 && ok ==> image1 == old(image1)
      ensures old(image1) != 0 ==> image1 == old(image1)
      ensures gpu.objects >= old(gpu.objects)
      ensures ok ==> image0 != 0 && image1 != 0
      ensures env.inputImageOk && env.formatOk && env.outputImageOk ==> ok
      ensures !ok ==> !env.inputImageOk || !env.formatOk || !env.outputImageOk
      ensures old(image0) == 0 && (!env.inputImageOk || !env.formatOk) ==> !ok
      ensures old(image1) == 0 && !env.outputImageOk ==> !ok
      ensures old(gpu.events) <= gpu.events
    {
      if image0 == 0 {
        image0 := gpu.CreateImage(texture, ReadOnly, env.inputImageOk);
        if image0 == 0 {
          return false;
        }
        if !env.formatOk {
          return false;
        }
      }
      if image1 == 0 {
        image1 := gpu.CreateImage(outTexture, WriteOnly, env.outputImageOk);
        if image1 == 0 {
          return false;
        }
      }
      return true;
    }

    /** The kernel pass over both images. */
    method Process()
      requires Valid() && image0 != 0 && image1 != 0
      modifies gpu`events, gpu`pools
      ensures Valid()
      ensures gpu.events == old(gpu.events) + KernelEvents(queue, kernel, image0, image1, size, outTexture)
    {
      gpu.Calls(KernelEvents(queue, kernel, image0, image1, size, outTexture));
    }

    /**
     * run() after init(): rejects unsupported frames, converts planar ones, releases
     * everything when the size changes, binds the input, makes what is missing, and on
     * success runs the kernel and returns an image of the frame's size.
     */
    method Filter(frame: VideoFrame, env: RunEnv) returns (result: Option<Size>)
      requires Valid() && inited
      modifies this`size, this`tempTexture, this`outTexture, this`lastInputTexture, this`image0, this`image1
      modifies gpu`textures, gpu`objects, gpu`next, gpu`events, gpu`pools, gpu`wraps
      ensures Valid()
      ensures old(gpu.events) <= gpu.events
      ensures !Supported(frame) ==> result.None? && gpu.events == old(gpu.events) && size == old(size)
      ensures Supported(frame) ==> size == frame.size && lastInputTexture == InputTexture(frame, tempTexture)
      ensures Supported(frame) && old(size) != frame.size ==>
                old(gpu.events) + ReleaseEvents(old(tempTexture), old(outTexture), old(image0), old(image1)) <= gpu.events
      ensures Supported(frame) && old(size) == frame.size ==> Reused(old(tempTexture), old(outTexture), old(image0), old(image1), old(lastInputTexture))
      ensures result.Some? ==>
                && result.value == frame.size && image0 != 0 && image1 != 0
                && gpu.wraps[image0] == InputTexture(frame, tempTexture) && gpu.wraps[image1] == outTexture
                && EndsWith(gpu.events, KernelEvents(queue, kernel, image0, image1, size, outTexture))
      ensures Supported(frame) && env.inputImageOk && env.formatOk && env.outputImageOk ==> result.Some?
      ensures Supported(frame) && result.None? ==> !env.inputImageOk || !env.formatOk || !env.outputImageOk
      ensures Supported(frame) && (old(image0) == 0 || old(size) != frame.size) && (!env.inputImageOk || !env.formatOk) ==> result.None?
      ensures Supported(frame) && (old(image1) == 0 || old(size) != frame.size) && !env.outputImageOk ==> result.None?
    {
      if !Supported(frame) {
        return None;
      }
      var f := Normalized(frame);
      Resize(f.size);
      ghost var resized := gpu.events;
      result := Attempt(f, env);
      assert resized <= gpu.events;
    }

    /**
     * Handles that existed before are kept: the temporary and output textures, the output
     * image, and the input image when the input texture is the same.
     */
    ghost predicate Reused(temp: nat, out: nat, input: nat, output: nat, lastInput: nat)
      reads this`tempTexture, this`outTexture, this`image0, this`image1, this`lastInputTexture
    {
      && (temp != 0 ==> tempTexture == temp)
      && (out != 0 ==> outTexture == out)
      && (input != 0 && lastInput == lastInputTexture ==> image0 == input)
      && (output != 0 ==> image1 == output)
    }

    /** A frame of a new size first releases everything made for the old size. */
    method Resize(newSize: Size)
      requires Valid()
      modifies this`size, this`tempTexture, this`outTexture, this`lastInputTexture, this`image0, this`image1
      modifies gpu`textures, gpu`objects, gpu`events, gpu`pools
      ensures Valid() && size == newSize
      ensures old(size) != newSize ==>
                && tempTexture == 0 && outTexture == 0 && lastInputTexture == 0 && image0 == 0 && image1 == 0
                && gpu.events == old(gpu.events) + ReleaseEvents(old(tempTexture), old(outTexture), old(image0), old(image1))
      ensures old(size) == newSize ==>
                && tempTexture == old(tempTexture) && outTexture == old(outTexture) && lastInputTexture == old(lastInputTexture)
                && image0 == old(image0) && image1 == old(image1) && gpu.events == old(gpu.events)
    {
      if size != newSize {
        ReleaseTextures();
        size := newSize;
      }
    }

    /**
     * The rest of run() for a supported packed frame: bind the input, make what is
     * missing, and on success run the kernel and return an image of the frame's size.
     */
    method Attempt(f: VideoFrame, env: RunEnv) returns (result: Option<Size>)
      requires Valid() && inited && Supported(f) && !Planar(f)
      modifies this`tempTexture, this`outTexture, this`lastInputTexture, this`image0, this`image1
      modifies gpu`textures, gpu`objects, gpu`next, gpu`events, gpu`pools, gpu`wraps
      ensures Valid()
      ensures lastInputTexture == (if f.handleType == NoHandle then tempTexture else f.texture)
      ensures Reused(old(tempTexture), old(outTexture), old(image0), old(image1), old(lastInputTexture))
      ensures old(gpu.events) <= gpu.events
      ensures result.Some? ==>
                && result.value == f.size && image0 != 0 && image1 != 0
                && gpu.wraps[image0] == lastInputTexture && gpu.wraps[image1] == outTexture
                && EndsWith(gpu.events, KernelEvents(queue, kernel, image0, image1, size, outTexture))
      ensures env.inputImageOk && env.formatOk && env.outputImageOk ==> result.Some?
      ensures result.None? ==> !env.inputImageOk || !env.formatOk || !env.outputImageOk
      ensures ((old(image0) == 0 || Retires(old(lastInputTexture), old(image0), lastInputTexture))
                && (!env.inputImageOk || !env.formatOk)) ==> result.None?
      ensures old(image1) == 0 && !env.outputImageOk ==> result.None?
    {
      var ok := Prepare(f, env);
      if !ok {
        return None;
      }
      Process();
      result := Some(f.size);
      assert gpu.events[|gpu.events| - 9..] == KernelEvents(queue, kernel, image0, image1, size, outTexture);
    }

    /** Binding the input and making whatever texture or image is missing; false when an image cannot be made. */
    method Prepare(f: VideoFrame, env: RunEnv) returns (ok: bool)
      requires Valid() && inited && Supported(f) && !Planar(f)
      modifies this`tempTexture, this`outTexture, this`lastInputTexture, this`image0, this`image1
      modifies gpu`textures, gpu`objects, gpu`next, gpu`events, gpu`pools, gpu`wraps
      ensures Valid()
      ensures lastInputTexture == (if f.handleType == NoHandle then tempTexture else f.texture)
      ensures Reused(old(tempTexture), old(outTexture), old(image0), old(image1), old(lastInputTexture))
      ensures old(gpu.events) <= gpu.events
      ensures ok ==> image0 != 0 && image1 != 0
      ensures env.inputImageOk && env.formatOk && env.outputImageOk ==> ok
      ensures !ok ==> !env.inputImageOk || !env.formatOk || !env.outputImageOk
      ensures ((old(image0) == 0 || Retires(old(lastInputTexture), old(image0), lastInputTexture))
                && (!env.inputImageOk || !env.formatOk)) ==> !ok
      ensures old(image1) == 0 && !env.outputImageOk ==> !ok
    {
      var texture := BindInput(f);
      EnsureOutput();
      ok := EnsureImages(texture, env);
    }

    /**
     * run(): init() first, then the frame. The whole of init()'s effect comes before the
     * frame's, and the guarantees of the frame step hold for the filter's handles.
     */
    method Run(frame: VideoFrame, initEnv: InitEnv, env: RunEnv) returns (result: Option<Size>)
      requires Valid()
      modifies this, gpu
      ensures Valid() && inited
      ensures old(inited) ==> SetUpStage() == old(SetUpStage())
      ensures !old(inited) ==> SetUpStage() == InitStage(initEnv)
      ensures !Supported(frame) ==> result.None? && size == old(size)
      ensures Supported(frame) ==> size == frame.size && lastInputTexture == InputTexture(frame, tempTexture)
      ensures old(gpu.events) <= gpu.events
      ensures Supported(frame) && old(size) != frame.size ==>
                exists k :: |old(gpu.events)| <= k <= |gpu.events|
                  && ReleaseEvents(old(tempTexture), old(outTexture), old(image0), old(image1)) <= gpu.events[k..]
      ensures Supported(frame) && old(size) == frame.size ==> Reused(old(tempTexture), old(outTexture), old(image0), old(image1), old(lastInputTexture))
      ensures result.Some? ==>
                && result.value == frame.size && image0 != 0 && image1 != 0
                && gpu.wraps[image0] == InputTexture(frame, tempTexture) && gpu.wraps[image1] == outTexture
                && EndsWith(gpu.events, KernelEvents(queue, kernel, image0, image1, size, outTexture))
      ensures Supported(frame) && env.inputImageOk && env.formatOk && env.outputImageOk ==> result.Some?
      ensures Supported(frame) && result.None? ==> !env.inputImageOk || !env.formatOk || !env.outputImageOk
      ensures Supported(frame) && (old(image0) == 0 || old(size) != frame.size) && (!env.inputImageOk || !env.formatOk) ==> result.None?
      ensures Supported(frame) && (old(image1) == 0 || old(size) != frame.size) && !env.outputImageOk ==> result.None?
    {
      Init(initEnv);
      ghost var k := |gpu.events|;
      ghost var initialised := gpu.events;
      result := Filter(frame, env);
      assert initialised <= gpu.events;
      assert Supported(frame) && old(size) != frame.size ==>
        ReleaseEvents(old(tempTexture), old(outTexture), old(image0), old(image1)) <= gpu.events[k..];
    }

    /** The destructor: releases the textures and images, then kernel, program, queue and context; nothing stays live. */
    method Destroy()
      requires Valid()
      modifies this`tempTexture, this`outTexture, this`lastInputTexture, this`image0, this`image1
      modifies gpu`textures, gpu`objects, gpu`events, gpu`pools
      ensures gpu.Valid() && gpu.textures == {} && gpu.objects == {}
      ensures gpu.events == old(gpu.events)
                + ReleaseEvents(old(tempTexture), old(outTexture), old(image0), old(image1))
                + TeardownEvents(context, queue, program, kernel)
    {
      ReleaseTextures();
      gpu.ReleaseEach([kernel, program, queue, context]);
    }
  }

  /** The texture the kernel should read for a frame: the upload texture for system-memory frames, else the frame's own. */
  function InputTexture(frame: VideoFrame, temp: nat): nat
  {
    if Normalized(frame).handleType == NoHandle then temp else frame.texture
  }
}
