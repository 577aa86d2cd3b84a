/** The `<canvas>` element as both renderers see it. A canvas hands out a
    drawing context and, in the HTML Standard (section 4.12.5.1, "the
    canvas element", the getContext() algorithm), remembers the kind of
    the first context it handed out: after that, asking for a context of
    another kind yields null. What the browser and the GPU driver are
    able to do is fixed when the canvas is made. */
module Dom {

  /** `window.devicePixelRatio || 1` (a ratio of 0 is falsy). */
  function DeviceScale(devicePixelRatio: real): (s: real)
    ensures s != 0.0
    ensures devicePixelRatio != 0.0 ==> s == devicePixelRatio
  {
    if devicePixelRatio == 0.0 then 1.0 else devicePixelRatio
  }

  /** The largest value the HTML Standard stores in a reflected
      `unsigned long` attribute, 2^31 - 1. */
  const MaxAttribute: nat := 0x7FFF_FFFF

  /** The defaults of the canvas's `width` and `height` attributes. */
  const DefaultWidth: nat := 300
  const DefaultHeight: nat := 150

  /** Web IDL's conversion of a JavaScript number to `unsigned long`:
      truncate toward zero, then reduce modulo 2^32. */
  function ToUnsignedLong(x: real): (n: nat)
    ensures n < 0x1_0000_0000
    ensures 0.0 <= x < 4294967296.0 ==> n as real <= x < n as real + 1.0
  {
    var t := if x >= 0.0 then x.Floor else -((-x).Floor);
    t % 0x1_0000_0000
  }

  /** Assigning a number to the canvas's `width` or `height`: the Web IDL
      conversion, then the reflection rule of the HTML Standard, which
      stores the attribute's default instead of a value above 2^31 - 1. */
  function AttributeValue(x: real, default: nat): (n: nat)
    requires default <= MaxAttribute
    ensures n <= MaxAttribute
    ensures 0.0 <= x < (MaxAttribute + 1) as real ==> n as real <= x < n as real + 1.0
    ensures (MaxAttribute + 1) as real <= x < 4294967296.0 ==> n == default
  {
    var v := ToUnsignedLong(x);
    if v <= MaxAttribute then v else default
  }

  /** The two context kinds the renderers request: '2d' and 'webgl2'. */
  datatype ContextKind = TwoD | WebGL2

  /** The canvas's context mode. */
  datatype ContextMode = Unbound | Bound(kind: ContextKind)

  /** What the GPU driver does when the WebGL2 renderer builds its shader
      program: whether `createShader` returns an object, whether each of
      the two shaders compiles, whether `createProgram` returns an object
      and whether the program links. */
  datatype Gpu = Gpu(
    createsShaders: bool,
    vertexCompiles: bool,
    fragmentCompiles: bool,
    createsPrograms: bool,
    links: bool)

  /** The getContext() rule: a context of `kind` is handed out when the
      browser supports it and the canvas holds no context of another kind. */
  predicate Granted(kind: ContextKind, supported: bool, mode: ContextMode) {
    supported && (mode == Unbound || mode == Bound(kind))
  }

  /** Why constructing a renderer threw. */
  datatype InitError =
    | Context2DUnavailable   // 'Unable to get 2D rendering context'
    | WebGL2Unsupported      // 'WebGL2 not supported'
    | ShaderCreationFailed   // 'Failed to create shaders'
    | ProgramCreationFailed  // 'Failed to create program'
    | LinkFailed             // 'Failed to link program'

  class Canvas {
    const supports2D: bool
    const supportsWebGL2: bool
    const gpu: Gpu
    var mode: ContextMode
    /** The `width` and `height` attributes: the size of the backing
        store, in device pixels. They only ever hold whole numbers. */
    var width: real
    var height: real
    /** The element's `getBoundingClientRect()` size, in CSS pixels; it
        may be fractional. The page layout is fixed while the model runs. */
    const rectWidth: real
    const rectHeight: real
    /** `clientWidth` and `clientHeight`: the element's box without its
        borders, in whole CSS pixels. */
    const clientWidth: nat
    const clientHeight: nat

    constructor (supports2D: bool, supportsWebGL2: bool, gpu: Gpu,
                 width: nat, height: nat, rectWidth: real, rectHeight: real,
                 clientWidth: nat, clientHeight: nat)
      ensures this.supports2D == supports2D && this.supportsWebGL2 == supportsWebGL2
      ensures this.gpu == gpu && mode == Unbound
      ensures this.width == width as real && this.height == height as real
      ensures this.rectWidth == rectWidth && this.rectHeight == rectHeight
      ensures this.clientWidth == clientWidth && this.clientHeight == clientHeight
    {
      this.supports2D := supports2D;
      this.supportsWebGL2 := supportsWebGL2;
      this.gpu := gpu;
      mode := Unbound;
      this.width := width as real;
      this.height := height as real;
      this.rectWidth := rectWidth;
      this.rectHeight := rectHeight;
      this.clientWidth := clientWidth;
      this.clientHeight := clientHeight;
    }

    /** The width `setupCanvas` gives the backing store: the bounding
        box's width in device pixels, as the attribute stores it. */
    function BackingWidth(devicePixelRatio: real): real {
      AttributeValue(rectWidth * DeviceScale(devicePixelRatio), DefaultWidth) as real
    }

    /** The height `setupCanvas` gives the backing store. */
    function BackingHeight(devicePixelRatio: real): real {
      AttributeValue(rectHeight * DeviceScale(devicePixelRatio), DefaultHeight) as real
    }

    /** Whether the browser can create a context of this kind at all. */
    predicate Supports(kind: ContextKind) {
      if kind == TwoD then supports2D else supportsWebGL2
    }

    /** Whether `getContext(kind)` returns a context now. */
    predicate Grants(kind: ContextKind)
      reads this
    {
      Granted(kind, Supports(kind), mode)
    }

    /** `canvas.getContext(kind)`: `ok` is false where the source sees null. */
    method GetContext(kind: ContextKind) returns (ok: bool)
      modifies this`mode
      ensures ok == old(Grants(kind))
      ensures mode == if ok then Bound(kind) else old(mode)
    {
      ok := Granted(kind, Supports(kind), mode);
      if ok {
        mode := Bound(kind);
      }
    }
  }
}
