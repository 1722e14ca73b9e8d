/** The renderer-side pull detector: the frame-to-tensor conversion fed to the two ONNX models, the
    single-flight guard around an inference, and the score thresholds. ONNX Runtime itself is not
    modelled: each session is a function from the input tensor to its output. */
module PullDetector {
  import opened Wrappers

  const ModelW: nat := 384
  const ModelH: nat := 384
  const StartThresh: real := 0.7
  const EndThresh: real := 1.5
  const FallbackInputName: string := "input"

  /** ONNX Runtime execution providers. */
  datatype Provider = WebGpu | Wasm

  /** `pickEPs`: WebGPU first when the navigator exposes a GPU, and the WASM fallback always last. */
  function PickEPs(hasGpu: bool): (eps: seq<Provider>)
    ensures |eps| > 0 && eps[|eps| - 1] == Wasm
    ensures WebGpu in eps <==> hasGpu
    ensures hasGpu ==> eps[0] == WebGpu
    ensures forall k, m :: 0 <= k < m < |eps| ==> eps[k] != eps[m]
  {
    (if hasGpu then [WebGpu] else []) + [Wasm]
  }

  /** The input name: the session's first declared input, otherwise "input". */
  function InputName(declared: Option<string>): string {
    if declared.Some? then declared.value else FallbackInputName
  }

  /** An `ImageData`: its RGBA bytes, four per pixel, row by row. */
  datatype Image = Image(width: nat, height: nat, data: seq<int>)

  predicate WellFormed(img: Image) {
    |img.data| == 4 * (img.width * img.height)
  }

  /** A frame is resized only when it is not already the model's 384 x 384. */
  function NeedsResize(img: Image): bool {
    !(img.width == ModelW && img.height == ModelH)
  }

  const Mean: seq<real> := [0.485, 0.456, 0.406]
  const Std: seq<real> := [0.229, 0.224, 0.225]

  /** A byte of channel c scaled to [0, 1] and standardised. */
  function Normalize(c: nat, v: int): real
    requires c < 3
  {
    (v as real / 255.0 - Mean[c]) / Std[c]
  }

  /** Channel c of pixel i: byte 4i + c. */
  function Sample(rgba: seq<int>, i: nat, c: nat): int
    requires 4 * i + c < |rgba|
  {
    rgba[4 * i + c]
  }

  /** One channel plane: pixel i's value is byte 4i + c. */
  function Plane(rgba: seq<int>, n: nat, c: nat): (p: seq<real>)
    requires c < 3 && |rgba| == 4 * n
    ensures |p| == n
  {
    seq(n, i requires 0 <= i < n => Normalize(c, Sample(rgba, i, c)))
  }

  /** The NCHW tensor of a frame: the R, G and B planes one after another. */
  function Tensor(img: Image): (t: seq<real>)
    requires WellFormed(img)
    ensures |t| == 3 * (img.width * img.height)
  {
    var n := img.width * img.height;
    Plane(img.data, n, 0) + Plane(img.data, n, 1) + Plane(img.data, n, 2)
  }

  /** The tensor's dimensions. */
  function Shape(img: Image): seq<nat> {
    [1, 3, img.height, img.width]
  }

  /** Pixel (x, y) is pixel number y * W + x, inside the frame. */
  lemma PixelIndexInRange(w: nat, h: nat, y: nat, x: nat)
    requires y < h && x < w
    ensures y * w + x < h * w
  {
    RowInRange(w, h, y);
  }

  /** The row after row y starts at (y + 1) * W, at most H * W. */
  lemma RowInRange(w: nat, h: nat, y: nat)
    requires y < h
    ensures y * w + w == (y + 1) * w <= h * w
  {
    assert (h - (y + 1)) * w >= 0;
  }

  /** Output index c * H * W + y * W + x holds channel c of source index 4 * (y * W + x). */
  lemma TensorLayout(img: Image, c: nat, y: nat, x: nat)
    requires WellFormed(img) && c < 3 && y < img.height && x < img.width
    ensures 4 * (y * img.width + x) + c < |img.data|
    ensures c * (img.width * img.height) + (y * img.width + x) < |Tensor(img)|
    ensures Tensor(img)[c * (img.width * img.height) + (y * img.width + x)] == Normalize(c, img.data[4 * (y * img.width + x) + c])
  {
    var n := img.width * img.height;
    var i := y * img.width + x;
    PixelIndexInRange(img.width, img.height, y, x);
    assert img.height * img.width == n;
    var p0, p1, p2 := Plane(img.data, n, 0), Plane(img.data, n, 1), Plane(img.data, n, 2);
    assert Tensor(img) == p0 + p1 + p2;
    if c == 0 {
      assert Tensor(img)[i] == p0[i];
    } else if c == 1 {
      assert Tensor(img)[n + i] == p1[i];
    } else {
      assert Tensor(img)[2 * n + i] == p2[i];
    }
  }

  /** The tensor has exactly as many values as its dimensions multiply to. */
  lemma ShapeMatchesTensor(img: Image)
    requires WellFormed(img)
    ensures |Tensor(img)| == Shape(img)[0] * Shape(img)[1] * Shape(img)[2] * Shape(img)[3]
  {
    assert Shape(img)[0] * Shape(img)[1] * Shape(img)[2] * Shape(img)[3] == 3 * (img.height * img.width);
  }

  /** The alpha byte of a pixel (every fourth byte) never reaches the tensor. */
  lemma AlphaNeverRead(a: Image, b: Image)
    requires WellFormed(a) && WellFormed(b) && a.width == b.width && a.height == b.height
    requires forall p, c :: 0 <= p < a.width * a.height && 0 <= c < 3 ==> Sample(a.data, p, c) == Sample(b.data, p, c)
    ensures Tensor(a) == Tensor(b)
  {
    var n := a.width * a.height;
    assert Plane(a.data, n, 0) == Plane(b.data, n, 0);
    assert Plane(a.data, n, 1) == Plane(b.data, n, 1);
    assert Plane(a.data, n, 2) == Plane(b.data, n, 2);
  }

  /** The first k pixels of each of the three planes of buffer t are converted. */
  ghost predicate FilledUpTo(t: seq<real>, rgba: seq<int>, n: nat, k: nat) {
    k <= n && |t| == 3 * n && |rgba| == 4 * n &&
    (forall i :: 0 <= i < k ==> t[i] == Normalize(0, Sample(rgba, i, 0))) &&
    (forall i :: 0 <= i < k ==> t[n + i] == Normalize(1, Sample(rgba, i, 1))) &&
    (forall i :: 0 <= i < k ==> t[2 * n + i] == Normalize(2, Sample(rgba, i, 2)))
  }

  /** Writing pixel k's three channels extends the converted prefix by one pixel. */
  lemma FilledStep(t: seq<real>, rgba: seq<int>, n: nat, k: nat)
    requires FilledUpTo(t, rgba, n, k) && k < n
    ensures FilledUpTo(t[k := Normalize(0, Sample(rgba, k, 0))][n + k := Normalize(1, Sample(rgba, k, 1))][2 * n + k := Normalize(2, Sample(rgba, k, 2))], rgba, n, k + 1)
  {
  }

  /** A buffer with every pixel of the three planes converted is the concatenated planes. */
  lemma PlanesFilled(t: seq<real>, rgba: seq<int>, n: nat)
    requires FilledUpTo(t, rgba, n, n)
    ensures t == Plane(rgba, n, 0) + Plane(rgba, n, 1) + Plane(rgba, n, 2)
  {
    var p0, p1, p2 := Plane(rgba, n, 0), Plane(rgba, n, 1), Plane(rgba, n, 2);
    forall k | 0 <= k < 3 * n ensures t[k] == (p0 + p1 + p2)[k] {
      if k < n {
      } else if k < 2 * n {
        assert t[n + (k - n)] == p1[k - n];
      } else {
        assert t[2 * n + (k - 2 * n)] == p2[k - 2 * n];
      }
    }
  }

  /** `imageDataToTensor`: a zeroed buffer of 3 * H * W values filled pixel by pixel, row by row. */
  method ImageDataToTensor(img: Image) returns (chw: array<real>, dims: seq<nat>)
    requires WellFormed(img)
    ensures fresh(chw)
    ensures chw[..] == Tensor(img)
    ensures dims == Shape(img)
  {
    var w, h, rgba := img.width, img.height, img.data;
    var stride := h * w;
    chw := new real[3 * stride];
    var y := 0;
    while y < h
      invariant 0 <= y <= h
      invariant y * w <= stride
      invariant FilledUpTo(chw[..], rgba, stride, y * w)
    {
      RowInRange(w, h, y);
      var row := y * w;
      var x := 0;
      while x < w
        invariant 0 <= x <= w
        invariant FilledUpTo(chw[..], rgba, stride, row + x)
      {
        WritePixel(chw, rgba, stride, row + x);
        x := x + 1;
      }
      y := y + 1;
    }
    PlanesFilled(chw[..], rgba, stride);
    dims := [1, 3, h, w];
  }

  /** The loop body: pixel `di`'s red, green and blue bytes go to its slot in each plane. */
  method WritePixel(chw: array<real>, rgba: seq<int>, stride: nat, di: nat)
    requires FilledUpTo(chw[..], rgba, stride, di) && di < stride
    modifies chw
    ensures FilledUpTo(chw[..], rgba, stride, di + 1)
  {
    var si := di * 4;
    ghost var before := chw[..];
    FilledStep(before, rgba, stride, di);
    chw[0 * stride + di] := Normalize(0, rgba[si + 0]);
    ghost var red := chw[..];
    assert red == before[di := Normalize(0, Sample(rgba, di, 0))];
    chw[1 * stride + di] := Normalize(1, rgba[si + 1]);
    ghost var green := chw[..];
    assert green == red[stride + di := Normalize(1, Sample(rgba, di, 1))];
    chw[2 * stride + di] := Normalize(2, rgba[si + 2]);
    assert chw[..] == green[2 * stride + di := Normalize(2, Sample(rgba, di, 2))];
  }

  /** What a session's `run` gives back under its output name. */
  datatype SessionOutput =
    | Throws               // `run` rejected
    | Missing              // no output under the chosen name
    | OtherType            // output data that is not a Float32Array
    | Float32(data: seq<real>)

  /** The result of `predictScores`: `Dropped` is the null returned at once while another inference is
      running, `Null` the null for an unusable output, `Raised` a rejected promise. */
  datatype Prediction = Dropped | Null | Scores(start: seq<real>, end: seq<real>) | Raised

  /** Both sessions run on the same tensor before either output is checked. */
  function Outcome(startOut: SessionOutput, endOut: SessionOutput): (p: Prediction)
    ensures p == Raised <==> startOut == Throws || endOut == Throws
    ensures p.Scores? <==> startOut.Float32? && endOut.Float32?
    ensures p.Scores? ==> p.start == startOut.data && p.end == endOut.data
    ensures p != Dropped
  {
    if startOut == Throws || endOut == Throws then Raised
    else if startOut.Float32? && endOut.Float32? then Scores(startOut.data, endOut.data)
    else Null
  }

  /** The module-level `inferBusy` flag around `predictScores`. */
  class InferenceGate {
    var inferBusy: bool

    constructor ()
      ensures !inferBusy
    {
      inferBusy := false;
    }

    /** The synchronous start of `predictScores`: a busy gate drops the frame, a free one is taken. */
    method Begin() returns (acquired: bool)
      modifies this
      ensures acquired == !old(inferBusy)
      ensures inferBusy
    {
      if inferBusy {
        return false;
      }
      inferBusy := true;
      acquired := true;
    }

    /** The `finally` block: the gate is released on every exit of the `try`. */
    method Release()
      modifies this
      ensures !inferBusy
    {
      inferBusy := false;
    }

    /** `predictScores` as one atomic step: nothing runs while the gate is taken; otherwise the frame is
        resized if needed, converted, given to both sessions, and the gate released on every path. */
    method PredictScores(img: Image, resized: Image, startModel: seq<real> -> SessionOutput, endModel: seq<real> -> SessionOutput)
      returns (p: Prediction)
      requires WellFormed(img) && WellFormed(resized) && resized.width == ModelW && resized.height == ModelH
      modifies this
      ensures old(inferBusy) ==> p == Dropped && inferBusy
      ensures !old(inferBusy) ==> !inferBusy
      ensures !old(inferBusy) ==>
        p == Outcome(startModel(Tensor(if NeedsResize(img) then resized else img)), endModel(Tensor(if NeedsResize(img) then resized else img)))
    {
      var acquired := Begin();
      if !acquired {
        return Dropped;
      }
      var frame := if NeedsResize(img) then resized else img;
      var chw, dims := ImageDataToTensor(frame);
      var tensor := chw[..];
      var startOut := startModel(tensor);
      var endOut := endModel(tensor);
      p := Outcome(startOut, endOut);
      Release();
    }
  }

  /** `pullStartDetected`: the first start score strictly above 0.7 (an empty array compares as false). */
  function PullStartDetected(scores: (seq<real>, seq<real>)): bool {
    |scores.0| > 0 && scores.0[0] > StartThresh
  }

  /** `pullEndDetected`: the first end score strictly above 1.5. */
  function PullEndDetected(scores: (seq<real>, seq<real>)): bool {
    |scores.1| > 0 && scores.1[0] > EndThresh
  }

  /** A score at the threshold is not a detection, and a higher first score never undoes one. */
  lemma DetectionMonotone(a: (seq<real>, seq<real>), b: (seq<real>, seq<real>))
    requires |a.0| > 0 && |b.0| > 0 && |a.1| > 0 && |b.1| > 0
    requires a.0[0] <= b.0[0] && a.1[0] <= b.1[0]
    ensures PullStartDetected(a) ==> PullStartDetected(b)
    ensures PullEndDetected(a) ==> PullEndDetected(b)
    ensures a.0[0] == StartThresh ==> !PullStartDetected(a)
    ensures a.1[0] == EndThresh ==> !PullEndDetected(a)
  {
  }

  /** A missing first score (`undefined` in the comparison) is never a detection. */
  lemma NoScoreNoDetection(a: (seq<real>, seq<real>))
    ensures |a.0| == 0 ==> !PullStartDetected(a)
    ensures |a.1| == 0 ==> !PullEndDetected(a)
  {
  }
}
