/** The shared records that systems read and write by reference.

    `Framebuffers` carries the fields of the Framebuffers class; the
    pre-process pass fills it in and the post-process passes read it, so one
    instance is passed to each of them explicitly.  `Viewport` holds the canvas
    identifier and resolution the driver writes at startup. */
module DataSources {
  import opened GL

  /** The full-screen quad's vertex buffer and vertex array. */
  datatype QuadBuffers = QuadBuffers(vbo: Handle, vao: Handle)

  class Framebuffers {
    var fbo: Handle
    var colorTexture: Handle
    var brightTexture: Handle
    var depthTexture: Handle
    var normalizedQuad: QuadBuffers

    /** Every handle starts out null. */
    constructor ()
      ensures fbo == Null && colorTexture == Null && brightTexture == Null && depthTexture == Null
      ensures normalizedQuad == QuadBuffers(Null, Null)
    {
      fbo := Null;
      colorTexture := Null;
      brightTexture := Null;
      depthTexture := Null;
      normalizedQuad := QuadBuffers(Null, Null);
    }
  }

  class Viewport {
    var elementId: string
    var width: int
    var height: int

    constructor ()
      ensures elementId == [] && width == 0 && height == 0
    {
      elementId := [];
      width := 0;
      height := 0;
    }
  }
}
