/** Latent tensors seen along their channel axis (dim 1). Batch, height and width are fixed and
  * not represented; a tensor is the sequence of its channel planes. A plane is a symbolic term
  * that records how it was computed, so every learned layer is an uninterpreted function whose
  * only contract is the number of channels it emits. */
module Tensors {
  import opened PyOps

  /** The time covariates of one time step (dim 2 of the time tensor), for every batch element
    * and feature. The model never inspects them. */
  type Column = seq<real>

  /** A learned or library layer, described by its hyper-parameters. */
  datatype Layer =
    | Conv2d(cIn: nat, cOut: nat, kernel: nat, stride: nat, padding: int, circular: bool)
    | PixelShuffle(factor: nat)
    | GroupNorm(groups: nat, channels: nat)
    | SiLU
    | CorrGate(target: int)      // the correlation-driven channel gate of an Encoder with tar_dim
    | VisionTransformer          // the external global mixer inside each interval sub-model
    | SubModel(index: nat, cIn: nat, cOut: nat)  // self.hid[index], from cIn channels to cOut

  /** One channel plane of a tensor. */
  datatype Plane =
    | Given(id: int)                                 // a plane supplied by the caller
    | Out(layer: Layer, input: seq<Plane>, ch: nat)  // channel ch of `layer` applied to `input`
    | TimeEmb(window: seq<Column>, ch: nat)          // channel ch of the broadcast time embedding
    | Noise(draw: nat, ch: nat)                      // channel ch of the draw-th Gaussian sample / 100
    | Sum(a: Plane, b: Plane)                        // elementwise sum

  type Latent = seq<Plane>

  /** `layer(x)` for a layer that emits `width` channels. */
  function Apply(layer: Layer, x: Latent, width: nat): (y: Latent)
    ensures |y| == width
    ensures forall c :: 0 <= c < width ==> y[c] == Out(layer, x, c)
  {
    seq(width, c requires 0 <= c => Out(layer, x, c))
  }

  /** `a + b` on two tensors that differ at most in their channel count, with PyTorch's
    * broadcasting on that axis: equal sizes add planewise, a size of 1 is repeated, anything
    * else is a RuntimeError. */
  function BroadcastAdd(a: Latent, b: Latent): (r: Result<Latent>)
    ensures r.Ok? <==> |a| == |b| || |a| == 1 || |b| == 1
    ensures r.Err? ==> r.error == ShapeError
    ensures |a| == |b| ==>
      r.Ok? && |r.value| == |a| && forall c :: 0 <= c < |a| ==> r.value[c] == Sum(a[c], b[c])
    ensures |a| != |b| && |b| == 1 ==>
      r.Ok? && |r.value| == |a| && forall c :: 0 <= c < |a| ==> r.value[c] == Sum(a[c], b[0])
    ensures |a| == 1 && |b| != 1 ==>
      r.Ok? && |r.value| == |b| && forall c :: 0 <= c < |b| ==> r.value[c] == Sum(a[0], b[c])
  {
    if |a| == |b| then Ok(seq(|a|, c requires 0 <= c < |a| => Sum(a[c], b[c])))
    else if |b| == 1 then Ok(seq(|a|, c requires 0 <= c < |a| => Sum(a[c], b[0])))
    else if |a| == 1 then Ok(seq(|b|, c requires 0 <= c < |b| => Sum(a[0], b[c])))
    else Err(ShapeError)
  }

  /** `x + torch.randn(x.size()) / 100`: the same channels, each perturbed by draw `draw`. */
  function Perturb(x: Latent, draw: nat): (y: Latent)
    ensures |y| == |x|
    ensures forall c :: 0 <= c < |x| ==> y[c] == Sum(x[c], Noise(draw, c))
  {
    seq(|x|, c requires 0 <= c < |x| => Sum(x[c], Noise(draw, c)))
  }

  /** The k-th time step of a tensor whose steps are `h` consecutive channels each. */
  function StepAt(x: Latent, h: nat, k: nat): (s: Latent)
    requires (k + 1) * h <= |x|
    ensures |s| == h
  {
    x[k * h..k * h + h]
  }
}
