/**
 * The GLSL filter runnable: it accepts the same frames as the OpenCL filter, keeps a
 * temporary texture for uploaded frames and remembers the last GL input texture, but
 * renders nothing: every accepted frame yields an empty frame, and planar YUV frames
 * are handed back untouched. Its texture factory is a stub returning -1 as a uint.
 */
module GlslFilter {
  import opened QtTypes
  import opened Gpu

  /** newTexture(): -1 converted to a 32-bit uint, all bits set. */
  const StubTexture: nat := U32 - 1

  /** The runnable's texture handles (0 for none) and the size they were made for. */
  datatype RunnableState = RunnableState(temp: nat, out: nat, lastInput: nat, size: Size)

  /** What run() hands back: the input frame itself, or a default-constructed (empty) frame. */
  datatype Output = Unchanged(frame: VideoFrame) | EmptyFrame

  /** A new runnable: no textures and the invalid size. */
  const Initial: RunnableState := RunnableState(0, 0, 0, InvalidSize)

  /** releaseTextures(): all three handles become 0. */
  function Released(s: RunnableState): (r: RunnableState)
    ensures r.temp == 0 && r.out == 0 && r.lastInput == 0 && r.size == s.size
  {
    s.(temp := 0, out := 0, lastInput := 0)
  }

  /** releaseTextures(): glDeleteTextures only for the handles that are not 0, temporary first. */
  function ReleaseLog(s: RunnableState): (es: seq<Event>)
    ensures forall e :: e in es ==> e.DeleteTexture? && e.texture != 0
    ensures forall t :: DeleteTexture(t) in es <==> t != 0 && (t == s.temp || t == s.out)
  {
    (if s.temp != 0 then [DeleteTexture(s.temp)] else []) + (if s.out != 0 then [DeleteTexture(s.out)] else [])
  }

  /** Releasing twice is releasing once, and the second release deletes nothing. */
  lemma ReleaseIdempotent(s: RunnableState)
    ensures Released(Released(s)) == Released(s)
    ensures ReleaseLog(Released(s)) == []
  {
  }

  /** run() accepts a frame when it is supported and not planar. */
  predicate Accepted(f: VideoFrame)
  {
    Supported(f) && !Planar(f)
  }

  /** The state after the size check: everything released when the size differs, then the new size. */
  function Resized(s: RunnableState, size: Size): (r: RunnableState)
    ensures r.size == size
    ensures s.size != size ==> r == Released(s).(size := size)
    ensures s.size == size ==> r == s
  {
    if s.size != size then Released(s).(size := size) else s
  }

  /** The state after run(f). */
  function RunState(s: RunnableState, f: VideoFrame): (t: RunnableState)
    ensures !Accepted(f) ==> t == s
    ensures Accepted(f) ==> t.size == f.size
    ensures t.out == s.out || t.out == 0
    ensures Accepted(f) && f.handleType == NoHandle ==> t.temp != 0
    ensures Accepted(f) && f.handleType == GLTextureHandle ==> t.lastInput == f.texture
  {
    if !Accepted(f) then s
    else
      var r := Resized(s, f.size);
      if f.handleType == NoHandle then r.(temp := if r.temp != 0 then r.temp else StubTexture)
      else r.(lastInput := f.texture)
  }

  /** The GL calls of run(f): the release on a size change, then binding and upload of the input. */
  function RunLog(s: RunnableState, f: VideoFrame): (es: seq<Event>)
    ensures !Accepted(f) ==> es == []
    ensures forall e :: e in es ==> e.DeleteTexture? || e.BindTexture? || e.Upload?
    ensures Accepted(f) && f.handleType == NoHandle ==> |es| >= 1 && es[|es| - 1] == Upload(RunState(s, f).temp, f.size)
  {
    if !Accepted(f) then []
    else
      var r := Resized(s, f.size);
      (if s.size != f.size then ReleaseLog(s) else [])
      + (if f.handleType == NoHandle then
           (if r.temp != 0 then [BindTexture(r.temp)] else []) + [Upload(RunState(s, f).temp, f.size)]
         else [BindTexture(f.texture)])
  }

  /** What run(f) returns. */
  function RunOutput(f: VideoFrame): (o: Output)
    ensures o == EmptyFrame <==> Accepted(f)
    ensures o.Unchanged? ==> o.frame == f
  {
    if Accepted(f) then EmptyFrame else Unchanged(f)
  }

  /** Invalid frames, unsupported handle types and planar YUV frames come back unchanged and change nothing. */
  lemma RejectedUnchanged(s: RunnableState, f: VideoFrame)
    requires !Accepted(f)
    ensures RunOutput(f) == Unchanged(f) && RunState(s, f) == s && RunLog(s, f) == []
  {
  }

  /**
   * An accepted frame yields an empty frame and records its size; on a size change the
   * log starts by deleting the old textures; otherwise no texture is deleted.
   */
  lemma AcceptedFrame(s: RunnableState, f: VideoFrame)
    requires Accepted(f)
    ensures RunOutput(f) == EmptyFrame && RunState(s, f).size == f.size
    ensures s.size != f.size ==> ReleaseLog(s) <= RunLog(s, f)
    ensures s.size == f.size ==> forall e :: e in RunLog(s, f) ==> !e.DeleteTexture?
  {
    var r := Resized(s, f.size);
    var tail := if f.handleType == NoHandle then
                  (if r.temp != 0 then [BindTexture(r.temp)] else []) + [Upload(RunState(s, f).temp, f.size)]
                else [BindTexture(f.texture)];
    assert RunLog(s, f) == (if s.size != f.size then ReleaseLog(s) else []) + tail;
    assert forall e :: e in tail ==> !e.DeleteTexture?;
  }

  /**
   * An uploaded frame reuses the temporary texture while it is not 0 and otherwise takes
   * the stub's handle, so afterwards the temporary texture is never 0; the last input is untouched.
   */
  lemma UploadKeepsTemp(s: RunnableState, f: VideoFrame)
    requires Accepted(f) && f.handleType == NoHandle
    ensures var t := RunState(s, f);
            && t.temp != 0
            && (s.size == f.size && s.temp != 0 ==> t.temp == s.temp)
            && (s.size != f.size || s.temp == 0 ==> t.temp == StubTexture)
            && t.lastInput == (if s.size == f.size then s.lastInput else 0)
  {
  }

  /** A GL-texture frame is recorded as the last input; the temporary texture is only affected by a size change. */
  lemma GpuInputRecorded(s: RunnableState, f: VideoFrame)
    requires Accepted(f) && f.handleType == GLTextureHandle
    ensures var t := RunState(s, f);
            t.lastInput == f.texture && t.temp == (if s.size == f.size then s.temp else 0)
  {
  }

  /** Running the same frame again leaves the state as the first run left it, and deletes nothing. */
  lemma RunIdempotent(s: RunnableState, f: VideoFrame)
    ensures RunState(RunState(s, f), f) == RunState(s, f)
    ensures forall e :: e in RunLog(RunState(s, f), f) ==> !e.DeleteTexture?
  {
    if Accepted(f) {
      AcceptedFrame(RunState(s, f), f);
    }
  }

  /** No run ever makes an output texture: from a state without one, any sequence of frames keeps it 0. */
  lemma {:induction false} NoOutputTexture(s: RunnableState, frames: seq<VideoFrame>)
    requires s.out == 0
    ensures RunAll(s, frames).out == 0
    decreases |frames|
  {
    if frames != [] {
      NoOutputTexture(RunState(s, frames[0]), frames[1..]);
    }
  }

  /** The state after a sequence of frames. */
  function RunAll(s: RunnableState, frames: seq<VideoFrame>): RunnableState
    decreases |frames|
  {
    if frames == [] then s else RunAll(RunState(s, frames[0]), frames[1..])
  }

  /** GLSLVideoFilterRunnable: the handles it holds and the GL calls it has made. */
  class GLSLVideoFilterRunnable {
    var tempTexture: nat
    var outTexture: nat
    var lastInputTexture: nat
    var size: Size
    var log: seq<Event>

    function State(): RunnableState
      reads this`tempTexture, this`outTexture, this`lastInputTexture, this`size
    {
      RunnableState(tempTexture, outTexture, lastInputTexture, size)
    }

    /** The constructor: all three texture handles 0, the size invalid, nothing called. */
    constructor ()
      ensures State() == Initial && log == []
    {
      tempTexture, outTexture, lastInputTexture := 0, 0, 0;
      size := InvalidSize;
      log := [];
    }

    /** newTexture(): makes nothing, and answers -1 as a uint. */
    method NewTexture() returns (t: nat)
      ensures t == StubTexture
    {
      t := U32 - 1;
    }

    method ReleaseTextures()
      modifies this`tempTexture, this`outTexture, this`lastInputTexture, this`log
      ensures State() == Released(old(State()))
      ensures log == old(log) + ReleaseLog(old(State()))
    {
      if tempTexture != 0 {
        log := log + [DeleteTexture(tempTexture)];
        tempTexture := 0;
      }
      if outTexture != 0 {
        log := log + [DeleteTexture(outTexture)];
        outTexture := 0;
      }
      lastInputTexture := 0;
    }

    /** run(): rejects unsupported and planar frames; otherwise updates the handles and returns an empty frame. */
    method Run(frame: VideoFrame) returns (result: Output)
      modifies this`tempTexture, this`outTexture, this`lastInputTexture, this`size, this`log
      ensures result == RunOutput(frame)
      ensures State() == RunState(old(State()), frame)
      ensures log == old(log) + RunLog(old(State()), frame)
    {
      if !Supported(frame) {
        return Unchanged(frame);
      }
      if Planar(frame) {
        return Unchanged(frame);
      }
      if size != frame.size {
        ReleaseTextures();
        size := frame.size;
      }
      if frame.handleType == NoHandle {
        if tempTexture != 0 {
          log := log + [BindTexture(tempTexture)];
        } else {
          tempTexture := NewTexture();
        }
        log := log + [Upload(tempTexture, size)];
      } else {
        log := log + [BindTexture(frame.texture)];
        lastInputTexture := frame.texture;
      }
      result := EmptyFrame;
    }
  }
}
