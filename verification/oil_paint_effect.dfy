/** The oil-paint effect, which only the Imagick engine offers. */
module OilPaintEffect {
  import opened Php

  /** The imaging engine behind an image handle. */
  datatype Backend = Gd | Imagick

  /** An operation issued on the engine. */
  datatype EngineOp = OilPaintImage(radius: int)

  /** An image handle: its engine and the operations issued on it so far, oldest first. */
  datatype ImageHandle = ImageHandle(backend: Backend, ops: seq<EngineOp>)

  /** The driver name under which the Imagick engine is active. */
  const ImagickDriver: string := "imagick"

  /** The effect's `apply`. `driver` is the active image driver; `apply` treats the handle as an
      Imagick image whenever that driver is active, so callers hand it one. */
  function Apply(driver: string, image: ImageHandle, params: Value): (r: ImageHandle)
    requires driver == ImagickDriver ==> image.backend == Imagick
    ensures r.backend == image.backend
    ensures |image.ops| <= |r.ops| <= |image.ops| + 1
    ensures r.ops[..|image.ops|] == image.ops
    ensures |r.ops| == |image.ops| + 1 <==> driver == ImagickDriver && params.Int?
    ensures |r.ops| == |image.ops| + 1 ==> r.ops[|image.ops|] == OilPaintImage(params.i)
  {
    if driver == ImagickDriver then
      if params.Int? then image.(ops := image.ops + [OilPaintImage(params.i)]) else image
    else image
  }

  /** The operations one call issues. */
  function Issued(driver: string, image: ImageHandle, params: Value): seq<EngineOp>
    requires driver == ImagickDriver ==> image.backend == Imagick
  {
    Apply(driver, image, params).ops[|image.ops|..]
  }

  /** `apply` keeps no state: what it issues depends on the driver and the parameters only,
      not on the image or on what was issued on it before. */
  lemma ApplyIsStateless(driver: string, a: ImageHandle, b: ImageHandle, params: Value)
    requires driver == ImagickDriver ==> a.backend == Imagick && b.backend == Imagick
    ensures Issued(driver, a, params) == Issued(driver, b, params)
    ensures |Issued(driver, a, params)| <= 1
  {
  }

  /** Outside the Imagick driver nothing is issued, whatever the parameters. */
  lemma OtherDriverIsNoOp(driver: string, image: ImageHandle, params: Value)
    requires driver != ImagickDriver
    ensures Apply(driver, image, params) == image
  {
  }

  /** Under the Imagick driver a parameter that is not an integer is ignored silently. */
  lemma NonIntegerParamsAreIgnored(image: ImageHandle, params: Value)
    requires image.backend == Imagick
    requires !params.Int?
    ensures Apply(ImagickDriver, image, params) == image
  {
  }
}
