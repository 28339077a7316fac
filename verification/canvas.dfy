/** An abstract 2D drawing context, as far as the overlay renderer uses it.
    Pixels are not modelled: the surface records its size, its current global
    alpha and the sequence of drawing commands issued since its bitmap was last
    reset. Two rules of the HTML canvas element are kept: assigning the
    element's width or height resets its bitmap and its context state (so the
    global alpha returns to 1), and assigning a global alpha outside [0, 1] is
    ignored. */
module Canvas {

  /** A decoded image, identified by its source, with its intrinsic size. */
  datatype Image = Image(src: string, naturalWidth: nat, naturalHeight: nat)

  datatype Rect = Rect(x: real, y: real, w: real, h: real)

  /** A drawing command together with the global alpha it was issued under. */
  datatype Op =
    | Clear(area: Rect)
    | Draw(image: Image, dest: Rect, alpha: real)

  datatype Surface = Surface(width: nat, height: nat, globalAlpha: real, ops: seq<Op>)

  /** Assigning the element's width and height: a fresh, empty bitmap of that
      size and a context in its default state, whatever the surface held. */
  function Resize(c: Surface, width: nat, height: nat): (r: Surface)
    ensures r.width == width && r.height == height
    ensures r.globalAlpha == 1.0 && r.ops == []
  {
    Surface(width, height, 1.0, [])
  }

  /** Clearing appends a clear command and changes nothing else. */
  function ClearRect(c: Surface, area: Rect): (r: Surface)
    ensures r.width == c.width && r.height == c.height && r.globalAlpha == c.globalAlpha
    ensures |r.ops| == |c.ops| + 1 && r.ops[..|c.ops|] == c.ops && r.ops[|c.ops|] == Clear(area)
  {
    c.(ops := c.ops + [Clear(area)])
  }

  /** Drawing appends a draw command under the current global alpha and
      changes nothing else. */
  function DrawImage(c: Surface, image: Image, dest: Rect): (r: Surface)
    ensures r.width == c.width && r.height == c.height && r.globalAlpha == c.globalAlpha
    ensures |r.ops| == |c.ops| + 1 && r.ops[..|c.ops|] == c.ops
    ensures r.ops[|c.ops|] == Draw(image, dest, c.globalAlpha)
  {
    c.(ops := c.ops + [Draw(image, dest, c.globalAlpha)])
  }

  /** Assigning the global alpha; values outside [0, 1] leave it unchanged.
      Nothing but the alpha ever changes. */
  function SetGlobalAlpha(c: Surface, alpha: real): (r: Surface)
    ensures r.width == c.width && r.height == c.height && r.ops == c.ops
    ensures 0.0 <= alpha <= 1.0 ==> r.globalAlpha == alpha
    ensures !(0.0 <= alpha <= 1.0) ==> r == c
  {
    if 0.0 <= alpha <= 1.0 then c.(globalAlpha := alpha) else c
  }
}
