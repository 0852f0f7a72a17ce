/** The forward passes of BasicConv2d, ConvSC, Encoder and Decoder on channel-axis tensors.
  * A layer that PyTorch would reject for its input channel count fails with ShapeError. */
module Blocks {
  import opened PyOps
  import opened Tensors
  import opened Arch

  /** One layer applied to `x`. Conv2d, GroupNorm and an interval sub-model (whose first Conv2d
    * takes cIn channels) accept only their input width; PixelShuffle(r) needs a multiple of r*r
    * channels and returns 1/(r*r) of them. SiLU, the correlation gate and the VisionTransformer
    * (an external module whose code is not part of this model) are taken to keep any width.
    * Every output channel is a channel of the layer applied to x. */
  function LayerForward(layer: Layer, x: Latent): (r: Result<Latent>)
    ensures r.Err? ==> r.error == ShapeError
    ensures r.Ok? ==> forall c :: 0 <= c < |r.value| ==> r.value[c] == Out(layer, x, c)
    ensures layer.Conv2d? ==> (r.Ok? <==> |x| == layer.cIn) && (r.Ok? ==> |r.value| == layer.cOut)
    ensures layer.SubModel? ==> (r.Ok? <==> |x| == layer.cIn) && (r.Ok? ==> |r.value| == layer.cOut)
    ensures layer.GroupNorm? ==> (r.Ok? <==> |x| == layer.channels) && (r.Ok? ==> |r.value| == |x|)
    ensures layer.PixelShuffle? ==>
      var f := layer.factor;
      (r.Ok? <==> f > 0 && |x| % (f * f) == 0) && (r.Ok? ==> |r.value| == |x| / (f * f))
    ensures layer.SiLU? || layer.CorrGate? || layer.VisionTransformer? ==> r.Ok? && |r.value| == |x|
  {
    match layer
    case Conv2d(cIn, cOut, _, _, _, _) =>
      if |x| == cIn then Ok(Apply(layer, x, cOut)) else Err(ShapeError)
    case SubModel(_, cIn, cOut) =>
      if |x| == cIn then Ok(Apply(layer, x, cOut)) else Err(ShapeError)
    case PixelShuffle(f) =>
      if f > 0 && |x| % (f * f) == 0 then Ok(Apply(layer, x, |x| / (f * f))) else Err(ShapeError)
    case GroupNorm(_, channels) =>
      if |x| == channels then Ok(Apply(layer, x, channels)) else Err(ShapeError)
    case SiLU => Ok(Apply(layer, x, |x|))
    case CorrGate(_) => Ok(Apply(layer, x, |x|))
    case VisionTransformer => Ok(Apply(layer, x, |x|))
  }

  /** BasicConv2d.forward */
  function BasicConvForward(b: BasicConv, x: Latent): Result<Latent>
  {
    var y :- LayerForward(b.conv, x);
    var y :- if b.upsampling then LayerForward(PixelShuffle(2), y) else Ok(y);
    if b.actNorm then
      var n :- LayerForward(b.norm, y);
      LayerForward(SiLU, n)
    else Ok(y)
  }

  /** A built BasicConv2d for C_in -> C_out turns C_in channels into C_out, with or without
    * upsampling (4*C_out channels, then PixelShuffle(2)), and rejects any other input width. */
  lemma BasicConvShape(cIn: nat, cOut: nat, kernel: nat, stride: nat, padding: int,
                       upsampling: bool, actNorm: bool, x: Latent)
    requires BuildBasicConv(cIn, cOut, kernel, stride, padding, upsampling, actNorm).Ok?
    ensures var r := BasicConvForward(BuildBasicConv(cIn, cOut, kernel, stride, padding, upsampling, actNorm).value, x);
      && (r.Ok? <==> |x| == cIn)
      && (r.Ok? ==> |r.value| == cOut)
  {
    if upsampling && |x| == cIn {
      assert (cOut * 4) % (2 * 2) == 0 && (cOut * 4) / (2 * 2) == cOut;
    }
  }

  /** ConvSC.forward: cat_conv(cat[conv(x), conv2(x)]) + res_conv(x). */
  function ConvSCForward(b: ConvSC, x: Latent): Result<Latent>
  {
    var y :- BasicConvForward(b.conv, x);
    var y2 :- BasicConvForward(b.conv2, x);
    var fused :- LayerForward(b.catConv, y + y2);
    var res :- if b.resConv.None? then Ok(x) else LayerForward(b.resConv.value, x);
    BroadcastAdd(fused, res)
  }

  /** A ConvSC accepts exactly C_in channels and returns C_out; channel c of the output is
    * channel c of the fused branches plus, when C_in == C_out, channel c of the input itself
    * (the identity bypass), and otherwise channel c of the 3x3 residual convolution. */
  lemma ConvSCShape(cIn: nat, cOut: nat, kernel: nat, downsampling: bool, upsampling: bool,
                    actNorm: bool, x: Latent)
    requires BuildConvSC(cIn, cOut, kernel, downsampling, upsampling, actNorm).Ok?
    ensures var b := BuildConvSC(cIn, cOut, kernel, downsampling, upsampling, actNorm).value;
      var r := ConvSCForward(b, x);
      && (r.Ok? <==> |x| == cIn)
      && (r.Ok? ==>
        && |r.value| == cOut
        && forall c :: 0 <= c < cOut ==>
          && r.value[c].Sum? && r.value[c].a.Out? && r.value[c].a.layer == b.catConv
          && r.value[c].b == (if cIn == cOut then x[c] else Out(b.resConv.value, x, c)))
  {
    var b := BuildConvSC(cIn, cOut, kernel, downsampling, upsampling, actNorm).value;
    var stride := if downsampling then 2 else 1;
    var padding := FloorDiv(kernel - stride + 1, 2);
    BasicConvShape(cIn, cOut, kernel, stride, padding, upsampling, actNorm, x);
    BasicConvShape(cIn, cOut, 5, stride, 2, upsampling, actNorm, x);
  }

  /** Blocks applied in order, failing at the first block that fails. */
  function RunBlocks(blocks: seq<ConvSC>, x: Latent): Result<Latent>
    decreases |blocks|
  {
    if blocks == [] then Ok(x)
    else
      var y :- RunBlocks(blocks[..|blocks| - 1], x);
      ConvSCForward(blocks[|blocks| - 1], y)
  }

  /** Running one more block of the stack. */
  lemma RunBlocksStep(blocks: seq<ConvSC>, x: Latent, i: nat)
    requires i < |blocks|
    ensures RunBlocks(blocks[..i + 1], x) ==
      if RunBlocks(blocks[..i], x).Err? then RunBlocks(blocks[..i], x)
      else ConvSCForward(blocks[i], RunBlocks(blocks[..i], x).value)
  {
    assert blocks[..i + 1][..i] == blocks[..i];
  }

  /** Once a prefix of the stack fails, the whole stack fails with the same exception. */
  lemma {:induction false} RunBlocksStopsAtError(blocks: seq<ConvSC>, x: Latent, i: nat)
    requires i <= |blocks|
    requires RunBlocks(blocks[..i], x).Err?
    ensures RunBlocks(blocks, x) == RunBlocks(blocks[..i], x)
    decreases |blocks|
  {
    if i < |blocks| {
      var front := blocks[..|blocks| - 1];
      assert front[..i] == blocks[..i];
      RunBlocksStopsAtError(front, x, i);
    } else {
      assert blocks[..i] == blocks;
    }
  }

  /** A chained stack of resolution-preserving ConvSCs takes C_in channels to C_out. */
  lemma {:induction false} RunBlocksShape(blocks: seq<ConvSC>, kernel: nat, cIn: nat, cOut: nat, x: Latent)
    requires Chain(blocks, cIn, cOut) && Plain(blocks, kernel)
    requires |x| == cIn
    ensures RunBlocks(blocks, x).Ok? && |RunBlocks(blocks, x).value| == cOut
    decreases |blocks|
  {
    var n := |blocks|;
    var last := blocks[n - 1];
    if n > 1 {
      var front := blocks[..n - 1];
      assert Chain(front, cIn, blocks[n - 2].cOut);
      assert Plain(front, kernel) by {
        forall i | 0 <= i < |front| ensures Ok(front[i]) == PlainConvSC(front[i].cIn, front[i].cOut, kernel) {
          assert front[i] == blocks[i];
        }
      }
      RunBlocksShape(front, kernel, cIn, blocks[n - 2].cOut, x);
    } else {
      assert blocks[..n - 1] == [];
    }
    var y := RunBlocks(blocks[..n - 1], x).value;
    assert |y| == last.cIn;
    ConvSCShape(last.cIn, last.cOut, kernel, false, false, true, y);
  }

  /** What Encoder.forward computes: the optional gate, then enc[0], enc[1], ... in order. */
  function Encode(e: EncoderPlan, x: Latent): Result<Latent>
  {
    var input := if e.gate.Some? then Apply(CorrGate(e.gate.value), x, |x|) else x;
    if e.blocks == [] then Err(IndexError) else RunBlocks(e.blocks, input)
  }

  /** Encoder.forward: `latent = enc[0](x)`, then `latent = enc[i](latent)` for the rest. */
  method EncoderForward(e: EncoderPlan, x: Latent) returns (r: Result<Latent>)
    ensures r == Encode(e, x)
  {
    var input := x;
    if e.gate.Some? {
      input := Apply(CorrGate(e.gate.value), x, |x|);
    }
    if |e.blocks| == 0 {
      return Err(IndexError);
    }
    var first := ConvSCForward(e.blocks[0], input);
    assert e.blocks[..0] == [];
    RunBlocksStep(e.blocks, input, 0);
    if first.Err? {
      RunBlocksStopsAtError(e.blocks, input, 1);
      return first;
    }
    var latent := first.value;
    var i := 1;
    while i < |e.blocks|
      invariant 1 <= i <= |e.blocks|
      invariant RunBlocks(e.blocks[..i], input) == Ok(latent)
    {
      var next := ConvSCForward(e.blocks[i], latent);
      RunBlocksStep(e.blocks, input, i);
      if next.Err? {
        RunBlocksStopsAtError(e.blocks, input, i + 1);
        return next;
      }
      latent := next.value;
      i := i + 1;
    }
    assert e.blocks[..i] == e.blocks;
    return Ok(latent);
  }

  /** What Decoder.forward computes: dec[0], ..., dec[-1], then the read-out. */
  function Decode(d: DecoderPlan, x: Latent): Result<Latent>
  {
    if d.blocks == [] then Err(IndexError)
    else
      var y :- RunBlocks(d.blocks, x);
      LayerForward(d.readout, y)
  }

  /** Decoder.forward: the loop over dec[:-1], then dec[-1], then readout. */
  method DecoderForward(d: DecoderPlan, x: Latent) returns (r: Result<Latent>)
    ensures r == Decode(d, x)
  {
    var n := |d.blocks|;
    if n == 0 {
      // range(0, -1) is empty and dec[-1] raises
      return Err(IndexError);
    }
    var hid := x;
    var i := 0;
    assert d.blocks[..0] == [];
    while i < n - 1
      invariant 0 <= i <= n - 1
      invariant RunBlocks(d.blocks[..i], x) == Ok(hid)
    {
      var next := ConvSCForward(d.blocks[i], hid);
      RunBlocksStep(d.blocks, x, i);
      if next.Err? {
        RunBlocksStopsAtError(d.blocks, x, i + 1);
        return next;
      }
      hid := next.value;
      i := i + 1;
    }
    var y := ConvSCForward(d.blocks[n - 1], hid);
    RunBlocksStep(d.blocks, x, n - 1);
    assert d.blocks[..n] == d.blocks;
    assert RunBlocks(d.blocks, x) == y;
    if y.Err? {
      return y;
    }
    r := LayerForward(d.readout, y.value);
  }

  /** A built Encoder turns C_in channels into C_hid. */
  lemma EncodeShape(cIn: nat, cHid: nat, nS: int, kernel: nat, tarDim: Option<int>, x: Latent)
    requires BuildEncoder(cIn, cHid, nS, kernel, tarDim).Ok?
    requires |x| == cIn
    ensures Encode(BuildEncoder(cIn, cHid, nS, kernel, tarDim).value, x).Ok?
    ensures |Encode(BuildEncoder(cIn, cHid, nS, kernel, tarDim).value, x).value| == cHid
  {
    EncoderPlanShape(cIn, cHid, nS, kernel, tarDim);
    var e := BuildEncoder(cIn, cHid, nS, kernel, tarDim).value;
    var input := if e.gate.Some? then Apply(CorrGate(e.gate.value), x, |x|) else x;
    RunBlocksShape(e.blocks, kernel, cIn, cHid, input);
  }

  /** A built Decoder turns C_hid channels into C_out: the stack ends at mid_ch and the
    * read-out takes mid_ch to C_out. */
  lemma DecodeShape(cHid: nat, cOut: nat, nS: int, kernel: nat, x: Latent)
    requires BuildDecoder(cHid, cOut, nS, kernel).Ok?
    requires |x| == cHid
    ensures Decode(BuildDecoder(cHid, cOut, nS, kernel).value, x).Ok?
    ensures |Decode(BuildDecoder(cHid, cOut, nS, kernel).value, x).value| == cOut
  {
    DecoderPlanShape(cHid, cOut, nS, kernel);
    var d := BuildDecoder(cHid, cOut, nS, kernel).value;
    RunBlocksShape(d.blocks, kernel, cHid, MidChannels(cHid, cOut), x);
  }

  /** self.hid[i](x): Encoder, VisionTransformer, Decoder. */
  function SubModelForward(sub: SubModelPlan, x: Latent): Result<Latent>
  {
    var z :- Encode(sub.enc, x);
    var m :- LayerForward(sub.mixer, z);
    Decode(sub.dec, m)
  }

  /** A built Encoder rejects any input that does not have C_in channels: its first ConvSC
    * raises, and the exception ends the stack. */
  lemma EncodeRejects(cIn: nat, cHid: nat, nS: int, kernel: nat, tarDim: Option<int>, x: Latent)
    requires BuildEncoder(cIn, cHid, nS, kernel, tarDim).Ok?
    requires |x| != cIn
    ensures Encode(BuildEncoder(cIn, cHid, nS, kernel, tarDim).value, x) == Err(ShapeError)
  {
    EncoderPlanShape(cIn, cHid, nS, kernel, tarDim);
    var e := BuildEncoder(cIn, cHid, nS, kernel, tarDim).value;
    var input := if e.gate.Some? then Apply(CorrGate(e.gate.value), x, |x|) else x;
    ConvSCShape(cIn, (cIn + cHid) / 2, kernel, false, false, true, input);
    RunBlocksStep(e.blocks, input, 0);
    assert e.blocks[..0] == [];
    RunBlocksStopsAtError(e.blocks, input, 1);
  }

  /** A built interval sub-model takes hid_S*(T+1) channels to exactly hid_S, one latent step,
    * and rejects every other input width. */
  lemma SubModelShape(hidS: nat, t: nat, kernelEnc: nat, kernelDec: nat, x: Latent)
    requires BuildSubModel(hidS, t, kernelEnc, kernelDec).Ok?
    ensures var r := SubModelForward(BuildSubModel(hidS, t, kernelEnc, kernelDec).value, x);
      && (r.Ok? <==> |x| == hidS * (t + 1))
      && (r.Err? ==> r.error == ShapeError)
      && (r.Ok? ==> |r.value| == hidS)
  {
    var w: nat := hidS * (t + 1);
    var sub := BuildSubModel(hidS, t, kernelEnc, kernelDec).value;
    assert sub.enc == BuildEncoder(w, 2 * hidS, 4, kernelEnc, None).value;
    assert sub.dec == BuildDecoder(2 * hidS, hidS, 4, kernelDec).value;
    assert sub.mixer == VisionTransformer;
    if |x| == w {
      EncodeShape(w, 2 * hidS, 4, kernelEnc, None, x);
      var z := Encode(sub.enc, x).value;
      var m := Apply(VisionTransformer, z, |z|);
      assert LayerForward(sub.mixer, z) == Ok(m);
      DecodeShape(2 * hidS, hidS, 4, kernelDec, m);
    } else {
      EncodeRejects(w, 2 * hidS, 4, kernelEnc, None, x);
    }
  }

  /** The layer `SubModel(j, hid_S*(T+1), hid_S)` that forward_recur applies is a faithful
    * abstraction of a built sub-model: both accept exactly the same inputs, fail with the same
    * exception, and return the same number of channels. */
  lemma SubModelLayer(hidS: nat, t: nat, kernelEnc: nat, kernelDec: nat, j: nat, x: Latent)
    requires BuildSubModel(hidS, t, kernelEnc, kernelDec).Ok?
    ensures var r := SubModelForward(BuildSubModel(hidS, t, kernelEnc, kernelDec).value, x);
      var l := LayerForward(SubModel(j, hidS * (t + 1), hidS), x);
      && (r.Ok? <==> l.Ok?)
      && (r.Err? ==> r.error == l.error)
      && (r.Ok? ==> |r.value| == |l.value|)
  {
    SubModelShape(hidS, t, kernelEnc, kernelDec, x);
  }
}
