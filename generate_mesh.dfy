/** The native `ModelGenerator` of the WebAssembly module: it holds an optional image, an
    optional surface model and the settings of the surface pipeline, and exposes them to
    JavaScript through `extern "C"` functions.

    The VTK filter chain that turns an image into a surface is not modelled: it enters
    `GenerateModel` as the function parameters `extract`, which sees the image and the
    five settings the chain reads, and `toNifti`. Doubles are modelled as exact `real`s;
    this module only stores and copies them. */
module GenerateMesh {
  import opened Wrappers

  type int16 = x: int | -0x8000 <= x < 0x8000
  type uint16 = x: int | 0 <= x < 0x1_0000
  type uint32 = x: int | 0 <= x < 0x1_0000_0000

  /** A `vtkImageData` with one float component per voxel. */
  datatype Image = Image(
    dims: seq<int>,
    spacing: seq<real>,
    origin: seq<real>,
    direction: seq<seq<real>>,  // row-major 3 x 3 direction matrix
    scalars: seq<real>)

  datatype Point = Point(x: real, y: real, z: real)

  /** A `vtkPolyData`; only its points are observed. */
  datatype PolyData = PolyData(points: seq<Point>)

  /** The settings fields of a `ModelGenerator`, gathered for stating contracts. */
  datatype Settings = Settings(
    imageSmoothingSigmaInVox: real,
    taubinSmoothingIterations: uint32,
    taubinSmoothingPassband: real,
    taubinSmoothingFeatureAngle: real,
    decimationTargetReduction: real,
    applyTransformForNifti: bool,
    printDebugInfo: bool)

  /** The settings the filter chain of `generateModel` reads: the Gaussian standard deviation
      (in voxels), the iteration count, pass band and feature angle of both windowed-sinc
      smoothing passes, and the target reduction of the quadric decimation. */
  datatype FilterSettings = FilterSettings(
    sigma: real,
    iterations: uint32,
    passband: real,
    featureAngle: real,
    reduction: real)

  /** The field initialisers of `ModelGenerator`. */
  const Defaults := Settings(0.5, 15, 0.01, 120.0, 0.9, false, false)

  /** Coordinate `k` of `p` (`p[0]`, `p[1]`, `p[2]` of `vtkPoints::GetPoint`). */
  function Coord(p: Point, k: nat): real
    requires k < 3
  {
    if k == 0 then p.x else if k == 1 then p.y else p.z
  }

  /** The 3 x 3 identity matrix, as `vtkMatrix3x3::Identity` leaves it. */
  function Identity(): (m: seq<seq<real>>)
    ensures IsMatrix3(m)
    ensures forall i, j :: 0 <= i < 3 && 0 <= j < 3 ==> m[i][j] == if i == j then 1.0 else 0.0
  {
    [[1.0, 0.0, 0.0], [0.0, 1.0, 0.0], [0.0, 0.0, 1.0]]
  }

  predicate IsMatrix3(m: seq<seq<real>>) {
    |m| == 3 && forall i :: 0 <= i < 3 ==> |m[i]| == 3
  }

  /** `dim3[0] * dim3[1] * dim3[2]` converted to `size_t`. The product is computed in
      32-bit `int`, which the WebAssembly target wraps; the result is then read as an
      unsigned 32-bit `size_t`. */
  function NumPixel(d0: int, d1: int, d2: int): (r: nat)
    ensures r < 0x1_0000_0000
    ensures 0 <= d0 * d1 * d2 < 0x1_0000_0000 ==> r == d0 * d1 * d2
  {
    (d0 * d1 * d2) % 0x1_0000_0000
  }

  /** The shape every image `setImage` stores has. */
  predicate WellFormedImage(img: Image) {
    && |img.dims| == 3 && |img.spacing| == 3 && |img.origin| == 3
    && IsMatrix3(img.direction)
    && |img.scalars| == NumPixel(img.dims[0], img.dims[1], img.dims[2])
  }

  /** The coordinates of `pts`, three per point, in point order. */
  function Flatten(pts: seq<Point>): (r: seq<real>)
    ensures |r| == 3 * |pts|
  {
    if pts == [] then [] else
      var last := pts[|pts| - 1];
      Flatten(pts[..|pts| - 1]) + [last.x, last.y, last.z]
  }

  /** Entry `3i + k` of the flattened list is coordinate `k` of point `i`. */
  lemma {:induction false} FlattenAt(pts: seq<Point>, i: nat, k: nat)
    requires i < |pts| && k < 3
    ensures Flatten(pts)[3 * i + k] == Coord(pts[i], k)
    decreases |pts|
  {
    var front := pts[..|pts| - 1];
    var last := pts[|pts| - 1];
    assert Flatten(pts) == Flatten(front) + [last.x, last.y, last.z];
    if i < |pts| - 1 {
      FlattenAt(front, i, k);
      assert front[i] == pts[i];
    }
  }

  /** The direction matrix of `setImage`: an identity `vtkMatrix3x3` whose element `(i, j)`
      is then set to `direction9[i * 3 + j]`, row by row. */
  method DirectionMatrix(direction9: array<real>) returns (m: seq<seq<real>>)
    requires direction9.Length >= 9
    ensures IsMatrix3(m)
    ensures forall i, j :: 0 <= i < 3 && 0 <= j < 3 ==> m[i][j] == direction9[i * 3 + j]
  {
    var matrix := new real[3, 3]((i, j) => if i == j then 1.0 else 0.0);
    for i := 0 to 3
      invariant forall r, c :: 0 <= r < i && 0 <= c < 3 ==> matrix[r, c] == direction9[r * 3 + c]
    {
      for j := 0 to 3
        invariant forall r, c :: 0 <= r < i && 0 <= c < 3 ==> matrix[r, c] == direction9[r * 3 + c]
        invariant forall c :: 0 <= c < j ==> matrix[i, c] == direction9[i * 3 + c]
      {
        matrix[i, j] := direction9[i * 3 + j];
      }
    }
    m := seq(3, i requires 0 <= i < 3 reads matrix =>
           seq(3, j requires 0 <= j < 3 reads matrix => matrix[i, j]));
  }

  /** The voxel copy of `setImage`: voxel `i` of the new float image is `buffer[i]`. */
  method FloatScalars(buffer: array<int16>, n: nat) returns (s: seq<real>)
    requires n <= buffer.Length
    ensures |s| == n
    ensures forall i :: 0 <= i < n ==> s[i] == buffer[i] as real
  {
    var scalars := new real[n];
    for i := 0 to n
      invariant forall q :: 0 <= q < i ==> scalars[q] == buffer[q] as real
    {
      scalars[i] := buffer[i] as real;
    }
    s := scalars[..];
  }

  class ModelGenerator {
    var image: Option<Image>   // m_ImageData
    var model: Option<PolyData>  // m_Model

    var imageSmoothingSigmaInVox: real
    var taubinSmoothingIterations: uint32
    var taubinSmoothingPassband: real
    var taubinSmoothingFeatureAngle: real
    var decimationTargetReduction: real
    var applyTransformForNifti: bool
    var printDebugInfo: bool

    /** A stored image has the shape `setImage` gives it, and a model exists only once an
        image has (no method clears the image). */
    ghost predicate Valid()
      reads this
    {
      && (image.Some? ==> WellFormedImage(image.value))
      && (model.Some? ==> image.Some?)
    }

    function Config(): Settings
      reads this
    {
      Settings(imageSmoothingSigmaInVox, taubinSmoothingIterations, taubinSmoothingPassband,
               taubinSmoothingFeatureAngle, decimationTargetReduction, applyTransformForNifti,
               printDebugInfo)
    }

    /** The part of the settings that the filter chain reads. */
    function Filters(): (f: FilterSettings)
      reads this
      ensures f.sigma == Config().imageSmoothingSigmaInVox
      ensures f.iterations == Config().taubinSmoothingIterations
      ensures f.passband == Config().taubinSmoothingPassband
      ensures f.featureAngle == Config().taubinSmoothingFeatureAngle
      ensures f.reduction == Config().decimationTargetReduction
    {
      FilterSettings(imageSmoothingSigmaInVox, taubinSmoothingIterations, taubinSmoothingPassband,
                     taubinSmoothingFeatureAngle, decimationTargetReduction)
    }

    constructor ()
      ensures Valid()
      ensures image == None && model == None
      ensures Config() == Defaults
    {
      image := None;
      model := None;
      imageSmoothingSigmaInVox := 0.5;
      taubinSmoothingIterations := 15;
      taubinSmoothingPassband := 0.01;
      taubinSmoothingFeatureAngle := 120.0;
      decimationTargetReduction := 0.9;
      applyTransformForNifti := false;
      printDebugInfo := false;
    }

    /** `setImage`: 1 when a pointer is null or `bufferSize` differs from the number of
        voxels the dimensions give, with nothing changed; otherwise 0, after storing a new
        image built from the inputs. The arrays must hold as many elements as the native
        code reads from them. */
    method SetImage(buffer: array?<int16>, bufferSize: nat, dim3: array?<uint16>,
                    spacing3: array?<real>, origin3: array?<real>, direction9: array?<real>)
      returns (status: int)
      requires Valid()
      requires buffer != null ==> bufferSize <= buffer.Length
      requires dim3 != null ==> dim3.Length >= 3
      requires spacing3 != null ==> spacing3.Length >= 3
      requires origin3 != null ==> origin3.Length >= 3
      requires direction9 != null ==> direction9.Length >= 9
      modifies this
      ensures Valid()
      ensures model == old(model) && Config() == old(Config())
      ensures status == 0 || status == 1
      ensures status == 0 <==>
        && buffer != null && dim3 != null && spacing3 != null && origin3 != null && direction9 != null
        && bufferSize == NumPixel(dim3[0], dim3[1], dim3[2])
      ensures status == 1 ==> image == old(image)
      ensures status == 0 ==>
        && image.Some?
        && image.value.dims == [dim3[0] as int, dim3[1] as int, dim3[2] as int]
        && image.value.spacing == spacing3[..3]
        && image.value.origin == origin3[..3]
        && (forall i, j :: 0 <= i < 3 && 0 <= j < 3 ==> image.value.direction[i][j] == direction9[i * 3 + j])
        && |image.value.scalars| == bufferSize
        && (forall i :: 0 <= i < bufferSize ==> image.value.scalars[i] == buffer[i] as real)
    {
      if buffer == null || dim3 == null || spacing3 == null || origin3 == null || direction9 == null {
        return 1;
      }
      var numPixel := NumPixel(dim3[0], dim3[1], dim3[2]);
      if bufferSize != numPixel {
        return 1;
      }

      var direction := DirectionMatrix(direction9);
      var scalars := FloatScalars(buffer, bufferSize);
      image := Some(Image([dim3[0] as int, dim3[1] as int, dim3[2] as int],
                          spacing3[..3], origin3[..3], direction, scalars));
      status := 0;
    }

    /** `generateModel`: 1 with nothing changed when no image is stored. Otherwise, when the
        NIfTI flag is on, the stored image's direction becomes the identity; the model is
        the filter chain's output on the image as it then stands and the current filter
        settings, mapped by the NIfTI
        transform derived from the image as it stood before (`toNifti`) when the flag is
        on; the result is 0. */
    method GenerateModel(extract: (Image, FilterSettings) -> PolyData,
                         toNifti: (Image, PolyData) -> PolyData)
      returns (status: int)
      requires Valid()
      modifies this
      ensures Valid()
      ensures Config() == old(Config())
      ensures old(image).None? ==> status == 1 && image == old(image) && model == old(model)
      ensures old(image).Some? ==>
        && status == 0
        && image == Some(if applyTransformForNifti
                         then old(image).value.(direction := Identity())
                         else old(image).value)
        && model == Some(if applyTransformForNifti
                         then toNifti(old(image).value, extract(image.value, Filters()))
                         else extract(image.value, Filters()))
    {
      if image.None? {
        return 1;
      }
      var source := image.value;

      if applyTransformForNifti {
        image := Some(image.value.(direction := Identity()));
      }

      model := Some(extract(image.value, Filters()));

      if applyTransformForNifti {
        model := Some(toNifti(source, model.value));
      }
      status := 0;
    }

    /** `getNumberOfPoints`: the model's point count, or 0 when there is no model. */
    method GetNumberOfPoints() returns (n: nat)
      ensures model.None? ==> n == 0
      ensures model.Some? ==> n == |model.value.points|
    {
      if model.None? {
        return 0;
      }
      n := |model.value.points|;
    }

    /** `getPoints`, writing into the caller's array: coordinate `k` of point `i` goes to
        `points[3i + k]`, the rest of the array is untouched, and the point count is
        returned (0, writing nothing, when there is no model). */
    method GetPoints(points: array<real>) returns (n: nat)
      requires model.Some? ==> 3 * |model.value.points| <= points.Length
      modifies points
      ensures model.None? ==> n == 0 && points[..] == old(points[..])
      ensures model.Some? ==> n == |model.value.points|
      ensures model.Some? ==> points[..3 * n] == Flatten(model.value.points)
      ensures model.Some? ==>
        forall i, k :: 0 <= i < n && 0 <= k < 3 ==> points[3 * i + k] == Coord(model.value.points[i], k)
      ensures forall q :: 3 * n <= q < points.Length ==> points[q] == old(points[q])
    {
      if model.None? {
        return 0;
      }
      var pts := model.value.points;
      var numPoints := |pts|;
      for i := 0 to numPoints
        invariant forall i', k :: 0 <= i' < i && 0 <= k < 3 ==> points[3 * i' + k] == Coord(pts[i'], k)
        invariant forall q :: 3 * i <= q < points.Length ==> points[q] == old(points[q])
      {
        var p := pts[i];
        points[i * 3] := p.x;
        points[i * 3 + 1] := p.y;
        points[i * 3 + 2] := p.z;
      }
      forall q | 0 <= q < 3 * numPoints ensures points[q] == Flatten(pts)[q] {
        FlattenAt(pts, q / 3, q % 3);
      }
      n := numPoints;
    }

    /** `getPoints` as the native code has it: the parameter `points` is overwritten by a
        freshly allocated array, so the coordinates land in that local array and the
        caller's array is never written (no `modifies`). The count is still returned. */
    method GetPointsAsWritten(points: array<real>) returns (n: nat)
      ensures model.None? ==> n == 0
      ensures model.Some? ==> n == |model.value.points|
    {
      if model.None? {
        return 0;
      }
      var pts := model.value.points;
      var numPoints := |pts|;
      var local := new real[numPoints * 3];
      for i := 0 to numPoints {
        var p := pts[i];
        local[i * 3] := p.x;
        local[i * 3 + 1] := p.y;
        local[i * 3 + 2] := p.z;
      }
      n := numPoints;
    }

    method SetImageSmoothingSigmaInVox(sigma: real)
      modifies this
      ensures image == old(image) && model == old(model)
      ensures Config() == old(Config()).(imageSmoothingSigmaInVox := sigma)
    {
      imageSmoothingSigmaInVox := sigma;
    }

    method SetTaubinSmoothingIterations(iterations: uint32)
      modifies this
      ensures image == old(image) && model == old(model)
      ensures Config() == old(Config()).(taubinSmoothingIterations := iterations)
    {
      taubinSmoothingIterations := iterations;
    }

    method SetTaubinSmoothingPassband(passband: real)
      modifies this
      ensures image == old(image) && model == old(model)
      ensures Config() == old(Config()).(taubinSmoothingPassband := passband)
    {
      taubinSmoothingPassband := passband;
    }

    method SetTaubinSmoothingFeatureAngle(angle: real)
      modifies this
      ensures image == old(image) && model == old(model)
      ensures Config() == old(Config()).(taubinSmoothingFeatureAngle := angle)
    {
      taubinSmoothingFeatureAngle := angle;
    }

    method SetDecimationTargetReduction(reduction: real)
      modifies this
      ensures image == old(image) && model == old(model)
      ensures Config() == old(Config()).(decimationTargetReduction := reduction)
    {
      decimationTargetReduction := reduction;
    }

    method SetPrintDebugInfo(flag: bool)
      modifies this
      ensures image == old(image) && model == old(model)
      ensures Config() == old(Config()).(printDebugInfo := flag)
    {
      printDebugInfo := flag;
    }

    method SetApplyTransformForNifti(apply: bool)
      modifies this
      ensures image == old(image) && model == old(model)
      ensures Config() == old(Config()).(applyTransformForNifti := apply)
    {
      applyTransformForNifti := apply;
    }
  }

  // The `extern "C"` entry points called from JavaScript.

  method CreateModelGenerator() returns (g: ModelGenerator)
    ensures fresh(g) && g.Valid()
    ensures g.image == None && g.model == None && g.Config() == Defaults
  {
    g := new ModelGenerator();
  }

  method SetGaussianSigma(g: ModelGenerator, sigma: real) returns (status: int)
    modifies g
    ensures status == 0
    ensures g.image == old(g.image) && g.model == old(g.model)
    ensures g.Config() == old(g.Config()).(imageSmoothingSigmaInVox := sigma)
  {
    g.SetImageSmoothingSigmaInVox(sigma);
    return 0;
  }

  method SetMeshSmoothingIterations(g: ModelGenerator, iterations: uint32) returns (status: int)
    modifies g
    ensures status == 0
    ensures g.image == old(g.image) && g.model == old(g.model)
    ensures g.Config() == old(g.Config()).(taubinSmoothingIterations := iterations)
  {
    g.SetTaubinSmoothingIterations(iterations);
    return 0;
  }

  method SetMeshSmoothingPassband(g: ModelGenerator, passband: real) returns (status: int)
    modifies g
    ensures status == 0
    ensures g.image == old(g.image) && g.model == old(g.model)
    ensures g.Config() == old(g.Config()).(taubinSmoothingPassband := passband)
  {
    g.SetTaubinSmoothingPassband(passband);
    return 0;
  }

  method SetMeshDecimationTargetReduction(g: ModelGenerator, reduction: real) returns (status: int)
    modifies g
    ensures status == 0
    ensures g.image == old(g.image) && g.model == old(g.model)
    ensures g.Config() == old(g.Config()).(decimationTargetReduction := reduction)
  {
    g.SetDecimationTargetReduction(reduction);
    return 0;
  }

  method SetApplyTransformForNifti(g: ModelGenerator, apply: bool) returns (status: int)
    modifies g
    ensures status == 0
    ensures g.image == old(g.image) && g.model == old(g.model)
    ensures g.Config() == old(g.Config()).(applyTransformForNifti := apply)
  {
    g.SetApplyTransformForNifti(apply);
    return 0;
  }

  method SetPrintDebugInfo(g: ModelGenerator, flag: bool) returns (status: int)
    modifies g
    ensures status == 0
    ensures g.image == old(g.image) && g.model == old(g.model)
    ensures g.Config() == old(g.Config()).(printDebugInfo := flag)
  {
    g.SetPrintDebugInfo(flag);
    return 0;
  }

  /** The `setImage` entry point: forwards to the generator and returns its status. */
  method SetImage(g: ModelGenerator, buffer: array?<int16>, bufferSize: nat, dim3: array?<uint16>,
                  spacing3: array?<real>, origin3: array?<real>, direction9: array?<real>)
    returns (status: int)
    requires g.Valid()
    requires buffer != null ==> bufferSize <= buffer.Length
    requires dim3 != null ==> dim3.Length >= 3
    requires spacing3 != null ==> spacing3.Length >= 3
    requires origin3 != null ==> origin3.Length >= 3
    requires direction9 != null ==> direction9.Length >= 9
    modifies g
    ensures g.Valid()
    ensures g.model == old(g.model) && g.Config() == old(g.Config())
    ensures status == 0 || status == 1
    ensures status == 0 <==>
      && buffer != null && dim3 != null && spacing3 != null && origin3 != null && direction9 != null
      && bufferSize == NumPixel(dim3[0], dim3[1], dim3[2])
    ensures status == 1 ==> g.image == old(g.image)
    ensures status == 0 ==>
      && g.image.Some?
      && g.image.value.dims == [dim3[0] as int, dim3[1] as int, dim3[2] as int]
      && g.image.value.spacing == spacing3[..3]
      && g.image.value.origin == origin3[..3]
      && (forall i, j :: 0 <= i < 3 && 0 <= j < 3 ==> g.image.value.direction[i][j] == direction9[i * 3 + j])
      && |g.image.value.scalars| == bufferSize
      && (forall i :: 0 <= i < bufferSize ==> g.image.value.scalars[i] == buffer[i] as real)
  {
    status := g.SetImage(buffer, bufferSize, dim3, spacing3, origin3, direction9);
  }

  /** The `generateModel` entry point: forwards to the generator and returns its status. */
  method GenerateModel(g: ModelGenerator, extract: (Image, FilterSettings) -> PolyData,
                       toNifti: (Image, PolyData) -> PolyData)
    returns (status: int)
    requires g.Valid()
    modifies g
    ensures g.Valid() && g.Config() == old(g.Config())
    ensures status == 1 <==> old(g.image).None?
    ensures status == 0 <==> old(g.image).Some?
    ensures status == 1 ==> g.image == old(g.image) && g.model == old(g.model)
    ensures status == 0 ==>
      && g.image == Some(if g.applyTransformForNifti
                         then old(g.image).value.(direction := Identity())
                         else old(g.image).value)
      && g.model == Some(if g.applyTransformForNifti
                         then toNifti(old(g.image).value, extract(g.image.value, g.Filters()))
                         else extract(g.image.value, g.Filters()))
  {
    status := g.GenerateModel(extract, toNifti);
  }

  /** A generator holding a one-voxel image, whose surface is taken to be the single point
      (1, 2, 3), after `generateModel` with the default settings. */
  method OnePointGenerator() returns (g: ModelGenerator)
    ensures fresh(g) && g.Valid()
    ensures g.model == Some(PolyData([Point(1.0, 2.0, 3.0)]))
  {
    g := CreateModelGenerator();
    var buffer := new int16[1](q => 7);
    var dim3 := new uint16[3](q => 1);
    var triple := new real[3](q => 1.0);
    var direction9 := new real[9](q => 0.0);
    var status := g.SetImage(buffer, 1, dim3, triple, triple, direction9);
    assert status == 0;
    var surface := PolyData([Point(1.0, 2.0, 3.0)]);
    assert !g.applyTransformForNifti;
    status := g.GenerateModel((img, f) => surface, (img, pd) => pd);
  }

  /** The one-point model read back into a zeroed three-element array: the native
      `getPoints` returns a count of 1 yet leaves the caller's array at 0, where writing
      into the caller's array gives 1. */
  method GetPointsExample() returns (count: nat, asWritten: real, corrected: real)
    ensures count == 1 && asWritten == 0.0 && corrected == 1.0
  {
    var g := OnePointGenerator();
    var points := new real[3](q => 0.0);
    count := g.GetPointsAsWritten(points);
    asWritten := points[0];
    var n := g.GetPoints(points);
    assert points[3 * 0 + 0] == Coord(g.model.value.points[0], 0);
    corrected := points[0];
  }
}
