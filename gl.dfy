/**
  * The OpenGL driver as the renderer sees it through its context handle:
  * the pieces of global machine state the renderer reads or changes, a pending
  * error flag, and the ordered stream of commands issued to it. Every command
  * method appends exactly one entry to `calls` and changes exactly the state
  * it names, so that callers can state what they issued and in which order.
  */
module Gl {
  import opened Wrappers

  // Error codes (glGetError).
  const NO_ERROR: nat := 0
  const INVALID_VALUE: nat := 0x0501

  /**
    * The driver's error flag after a command raises `raised`: an earlier
    * error still pending is kept, and NO_ERROR raises nothing.
    */
  function Sticky(pending: nat, raised: nat): nat
  {
    if pending == NO_ERROR then raised else pending
  }

  // Scalar component types of vertex attributes.
  const BYTE: nat := 0x1400
  const UNSIGNED_BYTE: nat := 0x1401
  const INT: nat := 0x1404
  const UNSIGNED_INT: nat := 0x1405
  const FLOAT: nat := 0x1406

  // Binding targets and the queries that read them back.
  const RENDERBUFFER: nat := 0x8D41
  const DRAW_FRAMEBUFFER: nat := 0x8CA9
  const READ_FRAMEBUFFER: nat := 0x8CA8
  const DRAW_FRAMEBUFFER_BINDING: nat := 0x8CA6
  const READ_FRAMEBUFFER_BINDING: nat := 0x8CAA

  /** The driver's `GLint`. */
  newtype i32 = x: int | -0x8000_0000 <= x < 0x8000_0000

  /** A 32-bit pattern `low` read as a two's complement number. */
  function FromBits(low: nat): i32
    requires low < 0x1_0000_0000
  {
    if low < 0x8000_0000 then low as i32 else (low - 0x1_0000_0000) as i32
  }

  /** The 32-bit pattern of `x`. */
  function ToBits(x: i32): nat
  {
    if x < 0 then x as int + 0x1_0000_0000 else x as int
  }

  /**
    * Rust's `n as i32` for an unsigned `n` (a `usize` vertex count, stride or
    * byte offset): the low 32 bits read as a two's complement number.
    */
  function AsI32(n: nat): i32
  {
    if n < 0x1_0000_0000 then FromBits(n) else AsI32(n - 0x1_0000_0000)
  }

  /** The cast reads the low 32 bits of `n`. */
  lemma {:induction false} AsI32Low(n: nat)
    ensures AsI32(n) == FromBits(n % 0x1_0000_0000)
  {
    if n >= 0x1_0000_0000 {
      AsI32Low(n - 0x1_0000_0000);
      assert (n - 0x1_0000_0000) % 0x1_0000_0000 == n % 0x1_0000_0000;
    }
  }

  /** The cast keeps every value below 2^31 and always keeps the low 32 bits. */
  lemma AsI32Wraps(n: nat)
    ensures n < 0x8000_0000 ==> AsI32(n) as int == n
    ensures ToBits(AsI32(n)) == n % 0x1_0000_0000
  {
    AsI32Low(n);
  }

  /** Adding `delta` bytes to a 32-bit offset, wrapping around as `as i32` does. */
  function WrapAdd(x: i32, delta: nat): i32
  {
    AsI32(ToBits(x) + delta)
  }

  /** `as i32` only depends on the low 32 bits. */
  lemma AsI32Congruent(a: nat, b: nat)
    requires a % 0x1_0000_0000 == b % 0x1_0000_0000
    ensures AsI32(a) == AsI32(b)
  {
    AsI32Low(a);
    AsI32Low(b);
  }

  /** Casting after adding is adding, with wrap-around, after casting. */
  lemma AsI32Add(n: nat, delta: nat)
    ensures AsI32(n + delta) == WrapAdd(AsI32(n), delta)
  {
    AsI32Wraps(n);
    var low := ToBits(AsI32(n));
    var q := n / 0x1_0000_0000;
    assert n == q * 0x1_0000_0000 + low;
    assert (low + delta) % 0x1_0000_0000 == (n + delta) % 0x1_0000_0000;
    AsI32Congruent(low + delta, n + delta);
  }

  /** Names of driver objects (buffers, programs, framebuffers, ...) are never 0. */
  type ObjectId = n: nat | n > 0 witness 1

  /** The renderer's single error kind: the driver's numeric error code. */
  datatype GlError = GlError(code: nat)

  type GlResult<T> = Result<T, GlError>

  /** A viewport rectangle as `glViewport` takes it. */
  datatype Rect = Rect(x: i32, y: i32, width: i32, height: i32)

  /** The two framebuffer targets a framebuffer binder can work on. */
  datatype FramebufferTarget = DrawTarget | ReadTarget {
    /** The target enumerant passed to `glBindFramebuffer`. */
    function Enum(): nat {
      if DrawTarget? then DRAW_FRAMEBUFFER else READ_FRAMEBUFFER
    }
    /** The `glGetIntegerv` query that reads the target's binding. */
    function BindingQuery(): nat {
      if DrawTarget? then DRAW_FRAMEBUFFER_BINDING else READ_FRAMEBUFFER_BINDING
    }
  }

  /** Which native `glUniform*` entry point a uniform value is sent through. */
  datatype UniformSetter = Matrix4f | Matrix3f | Vector3f | Int1 | Float1 | Float4

  /** One command issued to the driver. Object name 0 means "none / default". */
  datatype Call =
    | GetError
    | Viewport(rect: Rect)
    | BindFramebuffer(target: FramebufferTarget, framebuffer: nat)
    | BindRenderbuffer(renderbuffer: nat)
    | EnableVertexAttribArray(index: nat)
    | DisableVertexAttribArray(index: nat)
    | BindArrayBuffer(buffer: nat)
    | VertexAttribPointer(index: nat, size: i32, glType: nat, normalized: bool, stride: i32, offset: i32)
    | UseProgram(program: nat)
    | SetUniform(setter: UniformSetter, location: nat, field: string)
    | DrawArrays(mode: nat, first: i32, count: i32)
    | RenderbufferStorageMultisample(storageTarget: nat, samples: i32, internalFormat: nat, width: i32, height: i32)

  /** A snapshot of the machine state the renderer touches. */
  datatype State = State(
    viewport: Rect,
    drawFramebuffer: nat,
    readFramebuffer: nat,
    renderbuffer: nat,
    enabledAttribs: set<nat>,
    arrayBuffer: nat,
    program: nat,
    error: nat)

  /** The device context shared by every wrapper, guard and program. */
  class Context {
    var viewport: Rect
    var drawFramebuffer: nat
    var readFramebuffer: nat
    var renderbuffer: nat
    var enabledAttribs: set<nat>
    var arrayBuffer: nat
    var program: nat
    var error: nat
    /** Every command issued so far, oldest first. */
    var calls: seq<Call>
    /** Driver input: the sample counts it accepts for multisample storage. */
    const acceptedSamples: set<i32>

    function Snapshot(): State
      reads this
    {
      State(viewport, drawFramebuffer, readFramebuffer, renderbuffer,
            enabledAttribs, arrayBuffer, program, error)
    }

    /** What `glGetIntegerv(target.BindingQuery())` reports. */
    function FramebufferBinding(target: FramebufferTarget): nat
      reads this
    {
      if target.DrawTarget? then drawFramebuffer else readFramebuffer
    }

    /** A fresh context: default framebuffers, nothing bound or enabled, no error. */
    constructor (viewport: Rect, acceptedSamples: set<i32>)
      ensures Snapshot() == State(viewport, 0, 0, 0, {}, 0, 0, NO_ERROR)
      ensures calls == [] && this.acceptedSamples == acceptedSamples
    {
      this.viewport := viewport;
      drawFramebuffer, readFramebuffer, renderbuffer := 0, 0, 0;
      enabledAttribs := {};
      arrayBuffer, program, error := 0, 0, NO_ERROR;
      calls := [];
      this.acceptedSamples := acceptedSamples;
    }

    /** `glGetError`: reports the pending error and clears it. */
    method GetError() returns (code: nat)
      modifies this
      ensures code == old(error)
      ensures Snapshot() == old(Snapshot()).(error := NO_ERROR)
      ensures calls == old(calls) + [Call.GetError]
    {
      code := error;
      error := NO_ERROR;
      calls := calls + [Call.GetError];
    }

    method SetViewport(rect: Rect)
      modifies this
      ensures Snapshot() == old(Snapshot()).(viewport := rect)
      ensures calls == old(calls) + [Viewport(rect)]
    {
      viewport := rect;
      calls := calls + [Viewport(rect)];
    }

    method BindFramebufferTo(target: FramebufferTarget, framebuffer: nat)
      modifies this
      ensures target.DrawTarget? ==> Snapshot() == old(Snapshot()).(drawFramebuffer := framebuffer)
      ensures target.ReadTarget? ==> Snapshot() == old(Snapshot()).(readFramebuffer := framebuffer)
      ensures calls == old(calls) + [BindFramebuffer(target, framebuffer)]
    {
      if target.DrawTarget? {
        drawFramebuffer := framebuffer;
      } else {
        readFramebuffer := framebuffer;
      }
      calls := calls + [BindFramebuffer(target, framebuffer)];
    }

    method BindRenderbufferTo(renderbuffer: nat)
      modifies this
      ensures Snapshot() == old(Snapshot()).(renderbuffer := renderbuffer)
      ensures calls == old(calls) + [BindRenderbuffer(renderbuffer)]
    {
      this.renderbuffer := renderbuffer;
      calls := calls + [BindRenderbuffer(renderbuffer)];
    }

    method EnableAttrib(index: nat)
      modifies this
      ensures Snapshot() == old(Snapshot()).(enabledAttribs := old(enabledAttribs) + {index})
      ensures calls == old(calls) + [EnableVertexAttribArray(index)]
    {
      enabledAttribs := enabledAttribs + {index};
      calls := calls + [EnableVertexAttribArray(index)];
    }

    method DisableAttrib(index: nat)
      modifies this
      ensures Snapshot() == old(Snapshot()).(enabledAttribs := old(enabledAttribs) - {index})
      ensures calls == old(calls) + [DisableVertexAttribArray(index)]
    {
      enabledAttribs := enabledAttribs - {index};
      calls := calls + [DisableVertexAttribArray(index)];
    }

    method BindArrayBufferTo(buffer: nat)
      modifies this
      ensures Snapshot() == old(Snapshot()).(arrayBuffer := buffer)
      ensures calls == old(calls) + [BindArrayBuffer(buffer)]
    {
      arrayBuffer := buffer;
      calls := calls + [BindArrayBuffer(buffer)];
    }

    /** `glVertexAttribPointer`: records the layout against the bound array buffer. */
    method AttribPointer(index: nat, size: i32, glType: nat, normalized: bool, stride: i32, offset: i32)
      modifies this
      ensures Snapshot() == old(Snapshot())
      ensures calls == old(calls) + [VertexAttribPointer(index, size, glType, normalized, stride, offset)]
    {
      calls := calls + [VertexAttribPointer(index, size, glType, normalized, stride, offset)];
    }

    method UseProgramId(program: nat)
      modifies this
      ensures Snapshot() == old(Snapshot()).(program := program)
      ensures calls == old(calls) + [UseProgram(program)]
    {
      this.program := program;
      calls := calls + [UseProgram(program)];
    }

    /** A `glUniform*` call; the float payload itself is not modelled, only its field. */
    method Uniform(setter: UniformSetter, location: nat, field: string)
      modifies this
      ensures Snapshot() == old(Snapshot())
      ensures calls == old(calls) + [SetUniform(setter, location, field)]
    {
      calls := calls + [SetUniform(setter, location, field)];
    }

    /**
      * `glDrawArrays`; the error the driver raises for it (`raised`, NO_ERROR
      * when the draw succeeds) is an input, and an earlier error still
      * pending is kept.
      */
    method Draw(mode: nat, first: i32, count: i32, raised: nat)
      modifies this
      ensures Snapshot() == old(Snapshot()).(error := Sticky(old(error), raised))
      ensures calls == old(calls) + [DrawArrays(mode, first, count)]
    {
      error := Sticky(error, raised);
      calls := calls + [DrawArrays(mode, first, count)];
    }

    /**
      * `glRenderbufferStorageMultisample`: a sample count the driver does not
      * accept raises INVALID_VALUE unless an earlier error is still pending.
      */
    method StorageMultisample(target: nat, samples: i32, internalFormat: nat, width: i32, height: i32)
      modifies this
      ensures samples in acceptedSamples ==> Snapshot() == old(Snapshot())
      ensures samples !in acceptedSamples ==>
        Snapshot() == old(Snapshot()).(error := Sticky(old(error), INVALID_VALUE))
      ensures calls == old(calls) + [RenderbufferStorageMultisample(target, samples, internalFormat, width, height)]
    {
      if samples !in acceptedSamples && error == NO_ERROR {
        error := INVALID_VALUE;
      }
      calls := calls + [RenderbufferStorageMultisample(target, samples, internalFormat, width, height)];
    }

    /**
      * What an unlogged driver command that fails (shader, program or
      * buffer creation, compilation, linking) leaves behind: `code` becomes the
      * pending error unless an earlier one is still pending.
      */
    method RaiseError(code: nat)
      modifies this
      ensures Snapshot() == old(Snapshot()).(error := Sticky(old(error), code))
      ensures calls == old(calls)
    {
      if error == NO_ERROR {
        error := code;
      }
    }
  }

  /** How `check_gl` turns an error code read from the driver into a result. */
  function ErrorOutcome(code: nat): (r: Result<(), GlError>)
    ensures r.Ok? <==> code == NO_ERROR
    ensures r.Err? ==> r.error.code == code
  {
    if code == NO_ERROR then Ok(()) else Err(GlError(code))
  }

  /** `check_gl`: reads (and so clears) the pending error and reports it. */
  method CheckGl(gl: Context) returns (r: Result<(), GlError>)
    modifies gl
    ensures r == ErrorOutcome(old(gl.error))
    ensures gl.Snapshot() == old(gl.Snapshot()).(error := NO_ERROR)
    ensures gl.calls == old(gl.calls) + [Call.GetError]
  {
    var code := gl.GetError();
    r := ErrorOutcome(code);
  }

  /** `to_gl_err`: the error that a failed object creation is reported with. */
  method ToGlErr(gl: Context) returns (e: GlError)
    modifies gl
    ensures e == GlError(old(gl.error))
    ensures gl.Snapshot() == old(gl.Snapshot()).(error := NO_ERROR)
    ensures gl.calls == old(gl.calls) + [Call.GetError]
  {
    var code := gl.GetError();
    e := GlError(code);
  }

  // Associativity of concatenation, in the shapes the call-log proofs use.

  lemma AppendAssoc<T>(a: seq<T>, b: seq<T>, c: seq<T>)
    ensures a + b + c == a + (b + c)
  {
  }

  lemma AppendAssocTail<T>(c: seq<T>, b: seq<T>, d: seq<T>, g: seq<T>, t: seq<T>)
    ensures (c + b) + (d + g + t) == c + (b + d + g + t)
  {
  }

  lemma AppendAssoc4<T>(c: seq<T>, a0: seq<T>, a1: seq<T>, a2: seq<T>, a3: seq<T>)
    ensures c + a0 + a1 + a2 + a3 == c + (a0 + a1 + a2 + a3)
    ensures c + a0 + a1 + a2 == c + (a0 + a1 + a2)
  {
  }
}
