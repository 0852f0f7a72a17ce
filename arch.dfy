/** The architecture-construction arithmetic of model.py: the sampling schedule, the channel,
  * stride, padding and residual plans of ConvSC, Encoder and Decoder, and the sub-modules a
  * Pred_Model builds. A constructor becomes a function from its arguments to a plan; an
  * IndexError raised while constructing becomes an `Err`. */
module Arch {
  import opened PyOps
  import opened Tensors

  /** sampling_generator(N, reverse): one down/up-sampling flag per block. */
  function SamplingGenerator(n: int, reverse: bool): seq<bool>
  {
    var samplings := Repeat([false, false], FloorDiv(n, 2));
    var kept := PySlice(samplings, None, Some(n));
    if reverse then Reversed(kept) else kept
  }

  /** The schedule has 2*(N//2) entries (N-1 for odd N, none for N < 2), every one of them False,
    * and reversing it changes nothing. */
  lemma SamplingGeneratorShape(n: int, reverse: bool)
    ensures |SamplingGenerator(n, reverse)| == if n < 0 then 0 else 2 * (n / 2)
    ensures forall i :: 0 <= i < |SamplingGenerator(n, reverse)| ==> !SamplingGenerator(n, reverse)[i]
    ensures SamplingGenerator(n, true) == SamplingGenerator(n, false)
  {
    var samplings := Repeat([false, false], FloorDiv(n, 2));
    assert forall i :: 0 <= i < |samplings| ==> !samplings[i];
    if n >= 0 {
      assert |samplings| == 2 * (n / 2) <= n;
      SliceHead(samplings, n);
    }
    var kept := PySlice(samplings, None, Some(n));
    assert forall i :: 0 <= i < |kept| ==> kept[i] in samplings;
    assert Reversed(kept) == kept;
  }

  /** A BasicConv2d: its convolution (Conv2d, followed by PixelShuffle(2) when upsampling),
    * its GroupNorm, and whether GroupNorm+SiLU are applied. */
  datatype BasicConv = BasicConv(conv: Layer, upsampling: bool, norm: Layer, actNorm: bool)

  /** BasicConv2d.__init__. Its `nn.GroupNorm(2, out_channels)` is built whether or not act_norm
    * is set, and PyTorch raises ValueError when 2 does not divide out_channels. */
  function BuildBasicConv(cIn: nat, cOut: nat, kernel: nat, stride: nat, padding: int,
                          upsampling: bool, actNorm: bool): (r: Result<BasicConv>)
    ensures r.Ok? <==> cOut % 2 == 0
    ensures r.Err? ==> r.error == ValueError
    ensures r.Ok? ==> r.value.norm == GroupNorm(2, cOut) && r.value.upsampling == upsampling
    ensures r.Ok? && upsampling ==> r.value.conv == Conv2d(cIn, 4 * cOut, kernel, 1, padding, true)
    ensures r.Ok? && !upsampling ==> r.value.conv == Conv2d(cIn, cOut, kernel, stride, padding, true)
    ensures r.Ok? ==> r.value.actNorm == actNorm
  {
    var conv :=
      if upsampling then Conv2d(cIn, cOut * 4, kernel, 1, padding, true)
      else Conv2d(cIn, cOut, kernel, stride, padding, true);
    if cOut % 2 != 0 then Err(ValueError)
    else Ok(BasicConv(conv, upsampling, GroupNorm(2, cOut), actNorm))
  }

  /** A ConvSC: two parallel BasicConv2d branches, a 1x1 fusion convolution and a residual path
    * (None is nn.Identity). */
  datatype ConvSC = ConvSC(cIn: nat, cOut: nat, conv: BasicConv, conv2: BasicConv,
                           catConv: Layer, resConv: Option<Layer>)

  /** ConvSC.__init__: it is built exactly when its two branches are, that is when C_out is even;
    * the built block records C_in and C_out, fuses 2*C_out channels back to C_out, and has a
    * residual convolution exactly when C_in != C_out. */
  function BuildConvSC(cIn: nat, cOut: nat, kernel: nat, downsampling: bool, upsampling: bool,
                       actNorm: bool): (r: Result<ConvSC>)
    ensures r.Ok? <==> cOut % 2 == 0
    ensures r.Err? ==> r.error == ValueError
    ensures r.Ok? ==>
      && r.value.cIn == cIn && r.value.cOut == cOut
      && r.value.catConv == Conv2d(cOut * 2, cOut, 1, 1, 0, false)
      && (r.value.resConv.None? <==> cIn == cOut)
  {
    var stride := if downsampling then 2 else 1;
    var padding := FloorDiv(kernel - stride + 1, 2);
    var conv :- BuildBasicConv(cIn, cOut, kernel, stride, padding, upsampling, actNorm);
    var conv2 := BuildBasicConv(cIn, cOut, 5, stride, 2, upsampling, actNorm).value;  // same C_out
    Ok(ConvSC(cIn, cOut, conv, conv2, Conv2d(cOut * 2, cOut, 1, 1, 0, false),
              if cIn != cOut then Some(Conv2d(cIn, cOut, 3, 1, 1, true)) else None))
  }

  /** A ConvSC as Encoder and Decoder build it from an all-False schedule. */
  function PlainConvSC(cIn: nat, cOut: nat, kernel: nat): Result<ConvSC>
  {
    BuildConvSC(cIn, cOut, kernel, false, false, true)
  }

  /** With no down- or upsampling, both branches use stride 1, the first pads (kernel-1+1)//2
    * and the second 2, and the residual path is the identity exactly when C_in == C_out. */
  lemma PlainConvSCShape(cIn: nat, cOut: nat, kernel: nat)
    ensures PlainConvSC(cIn, cOut, kernel).Ok? <==> cOut % 2 == 0
    ensures cOut % 2 == 0 ==>
      var b := PlainConvSC(cIn, cOut, kernel).value;
      && b.conv.conv == Conv2d(cIn, cOut, kernel, 1, kernel / 2, true)
      && b.conv2.conv == Conv2d(cIn, cOut, 5, 1, 2, true)
      && b.conv.norm == b.conv2.norm == GroupNorm(2, cOut)
      && b.catConv == Conv2d(2 * cOut, cOut, 1, 1, 0, false)
      && (b.resConv == None <==> cIn == cOut)
      && (b.resConv != None ==> b.resConv.value == Conv2d(cIn, cOut, 3, 1, 1, true))
  {
    assert FloorDiv(kernel - 1 + 1, 2) == kernel / 2;
  }

  /** `[ConvSC(C_in, C_out, kernel, downsampling=s) for s in flags]` (upsampling=s when `up`),
    * built from left to right; the first block that cannot be built raises. */
  function BuildStack(cIn: nat, cOut: nat, kernel: nat, flags: seq<bool>, up: bool): Result<seq<ConvSC>>
    decreases |flags|
  {
    if flags == [] then Ok([])
    else
      var b :- BuildConvSC(cIn, cOut, kernel, !up && flags[0], up && flags[0], true);
      var bs :- BuildStack(cIn, cOut, kernel, flags[1..], up);
      Ok([b] + bs)
  }

  /** The comprehension builds one block per flag, in order, unless C_out is odd and there is a
    * block to build, when the first one raises ValueError. */
  lemma {:induction false} BuildStackShape(cIn: nat, cOut: nat, kernel: nat, flags: seq<bool>, up: bool)
    ensures var r := BuildStack(cIn, cOut, kernel, flags, up);
      && (r.Ok? <==> flags == [] || cOut % 2 == 0)
      && (r.Err? ==> r.error == ValueError)
      && (r.Ok? ==> |r.value| == |flags| && forall i :: 0 <= i < |flags| ==>
            Ok(r.value[i]) == BuildConvSC(cIn, cOut, kernel, !up && flags[i], up && flags[i], true))
    decreases |flags|
  {
    if flags != [] {
      var tail := flags[1..];
      BuildStackShape(cIn, cOut, kernel, tail, up);
      var r := BuildStack(cIn, cOut, kernel, flags, up);
      if r.Ok? {
        var bs := BuildStack(cIn, cOut, kernel, tail, up).value;
        assert r.value == [BuildConvSC(cIn, cOut, kernel, !up && flags[0], up && flags[0], true).value] + bs;
        forall i | 1 <= i < |flags|
          ensures Ok(r.value[i]) == BuildConvSC(cIn, cOut, kernel, !up && flags[i], up && flags[i], true)
        {
          assert r.value[i] == bs[i - 1] && tail[i - 1] == flags[i];
        }
      }
    }
  }

  /** Consecutive blocks agree on their channel counts, from `cIn` in to `cOut` out. */
  ghost predicate Chain(blocks: seq<ConvSC>, cIn: nat, cOut: nat)
  {
    && |blocks| > 0
    && blocks[0].cIn == cIn
    && blocks[|blocks| - 1].cOut == cOut
    && forall i :: 0 < i < |blocks| ==> blocks[i].cIn == blocks[i - 1].cOut
  }

  /** Every block is a resolution-preserving ConvSC with the given kernel. */
  ghost predicate Plain(blocks: seq<ConvSC>, kernel: nat)
  {
    forall i :: 0 <= i < |blocks| ==> Ok(blocks[i]) == PlainConvSC(blocks[i].cIn, blocks[i].cOut, kernel)
  }

  /** An Encoder: the optional correlation gate (tar_dim) and its ConvSC stack. */
  datatype EncoderPlan = EncoderPlan(gate: Option<int>, blocks: seq<ConvSC>)

  /** Encoder.__init__: the blocks are built in order, block 0 after reading `samplings[0]` and
    * block 1 after reading `samplings[1]`. */
  function BuildEncoder(cIn: nat, cHid: nat, nS: int, kernel: nat, tarDim: Option<int>)
    : Result<EncoderPlan>
  {
    var samplings := SamplingGenerator(nS, false);
    var mid := (cIn + cHid) / 2;
    var s0 :- PyIndex(samplings, 0);
    var first :- BuildConvSC(cIn, mid, kernel, s0, false, true);
    var s1 :- PyIndex(samplings, 1);
    var second :- BuildConvSC(mid, cHid, kernel, s1, false, true);
    var rest :- BuildStack(cHid, cHid, kernel, PySlice(samplings, Some(2), None), false);
    Ok(EncoderPlan(tarDim, [first, second] + rest))
  }

  /** Every GroupNorm of an Encoder splits its channels in two: (C_in+C_hid)//2 and C_hid are even. */
  predicate EncoderWidthsEven(cIn: nat, cHid: nat)
  {
    ((cIn + cHid) / 2) % 2 == 0 && cHid % 2 == 0
  }

  /** A stack that opens with C_in -> mid -> C_hid and keeps C_hid after that is a chain of
    * plain blocks from C_in to C_hid. */
  lemma OpeningChain(blocks: seq<ConvSC>, cIn: nat, mid: nat, cHid: nat, kernel: nat)
    requires |blocks| >= 2
    requires Ok(blocks[0]) == PlainConvSC(cIn, mid, kernel) && Ok(blocks[1]) == PlainConvSC(mid, cHid, kernel)
    requires forall i :: 2 <= i < |blocks| ==> Ok(blocks[i]) == PlainConvSC(cHid, cHid, kernel)
    ensures Chain(blocks, cIn, cHid) && Plain(blocks, kernel)
  {
  }

  /** With N_S >= 2 and even widths the Encoder keeps the gate and has one block per schedule
    * entry: block 0 maps C_in to (C_in+C_hid)//2, block 1 maps that to C_hid, every later block
    * keeps C_hid. */
  lemma EncoderBlocks(cIn: nat, cHid: nat, nS: int, kernel: nat, tarDim: Option<int>)
    requires nS >= 2 && EncoderWidthsEven(cIn, cHid)
    ensures BuildEncoder(cIn, cHid, nS, kernel, tarDim).Ok?
    ensures var e := BuildEncoder(cIn, cHid, nS, kernel, tarDim).value;
      var mid := (cIn + cHid) / 2;
      && e.gate == tarDim
      && |e.blocks| == 2 * (nS / 2) == |SamplingGenerator(nS, false)|
      && Ok(e.blocks[0]) == PlainConvSC(cIn, mid, kernel)
      && Ok(e.blocks[1]) == PlainConvSC(mid, cHid, kernel)
      && (forall i :: 2 <= i < |e.blocks| ==> Ok(e.blocks[i]) == PlainConvSC(cHid, cHid, kernel))
  {
    SamplingGeneratorShape(nS, false);
    var samplings := SamplingGenerator(nS, false);
    var rest := PySlice(samplings, Some(2), None);
    assert rest == samplings[2..];
    assert !samplings[0] && !samplings[1];
    BuildStackShape(cHid, cHid, kernel, rest, false);
    var e := BuildEncoder(cIn, cHid, nS, kernel, tarDim).value;
    var bs := BuildStack(cHid, cHid, kernel, rest, false).value;
    assert e.gate == tarDim && e.blocks[2..] == bs;
    forall i | 2 <= i < |e.blocks|
      ensures Ok(e.blocks[i]) == PlainConvSC(cHid, cHid, kernel)
    {
      assert !rest[i - 2] && e.blocks[i] == bs[i - 2];
    }
  }

  /** The Encoder is built exactly when N_S >= 2 and its widths are even. With N_S < 2
    * `samplings[0]` raises IndexError; otherwise an odd width makes a GroupNorm raise ValueError.
    * Block 0 maps C_in to (C_in+C_hid)//2, block 1 maps that to C_hid, every later block keeps
    * C_hid, and there are max(2, len(samplings)) blocks. */
  lemma EncoderPlanShape(cIn: nat, cHid: nat, nS: int, kernel: nat, tarDim: Option<int>)
    ensures BuildEncoder(cIn, cHid, nS, kernel, tarDim).Ok? <==> nS >= 2 && EncoderWidthsEven(cIn, cHid)
    ensures nS < 2 ==> BuildEncoder(cIn, cHid, nS, kernel, tarDim) == Err(IndexError)
    ensures nS >= 2 && !EncoderWidthsEven(cIn, cHid) ==>
      BuildEncoder(cIn, cHid, nS, kernel, tarDim) == Err(ValueError)
    ensures nS >= 2 && EncoderWidthsEven(cIn, cHid) ==>
      var e := BuildEncoder(cIn, cHid, nS, kernel, tarDim).value;
      var mid := (cIn + cHid) / 2;
      && e.gate == tarDim
      && |e.blocks| == 2 * (nS / 2) == |SamplingGenerator(nS, false)|
      && Ok(e.blocks[0]) == PlainConvSC(cIn, mid, kernel)
      && Ok(e.blocks[1]) == PlainConvSC(mid, cHid, kernel)
      && (forall i :: 2 <= i < |e.blocks| ==> Ok(e.blocks[i]) == PlainConvSC(cHid, cHid, kernel))
      && Chain(e.blocks, cIn, cHid) && Plain(e.blocks, kernel)
  {
    SamplingGeneratorShape(nS, false);
    if nS >= 2 && EncoderWidthsEven(cIn, cHid) {
      EncoderBlocks(cIn, cHid, nS, kernel, tarDim);
      var e := BuildEncoder(cIn, cHid, nS, kernel, tarDim).value;
      OpeningChain(e.blocks, cIn, (cIn + cHid) / 2, cHid, kernel);
    } else if nS < 2 {
      assert |SamplingGenerator(nS, false)| == 0;
    } else {
      var samplings := SamplingGenerator(nS, false);
      assert PyIndex(samplings, 0) == Ok(false) && PyIndex(samplings, 1) == Ok(false);
    }
  }

  /** (C_hid+C_out)//2 raised to the next even number. */
  function MidChannels(cHid: nat, cOut: nat): nat
  {
    var half := (cHid + cOut) / 2;
    if half % 2 == 0 then half else half + 1
  }

  /** mid_ch is even (so GroupNorm(2, mid_ch) splits it into two equal groups) and exceeds
    * (C_hid+C_out)//2 by at most one. */
  lemma MidChannelsEven(cHid: nat, cOut: nat)
    ensures MidChannels(cHid, cOut) % 2 == 0
    ensures (cHid + cOut) / 2 <= MidChannels(cHid, cOut) <= (cHid + cOut) / 2 + 1
  {
  }

  /** A Decoder: its ConvSC stack and the 3x3 circular read-out convolution. */
  datatype DecoderPlan = DecoderPlan(blocks: seq<ConvSC>, readout: Layer)

  /** Decoder.__init__: the blocks of `samplings[:-1]` first, then `samplings[-1]` is read and the
    * last block built, then the read-out. */
  function BuildDecoder(cHid: nat, cOut: nat, nS: int, kernel: nat): Result<DecoderPlan>
  {
    var samplings := SamplingGenerator(nS, true);
    var mid := MidChannels(cHid, cOut);
    var front :- BuildStack(cHid, cHid, kernel, PySlice(samplings, None, Some(-1)), true);
    var last :- PyIndex(samplings, -1);
    MidChannelsEven(cHid, cOut);
    var final := BuildConvSC(cHid, mid, kernel, false, last, true).value;  // mid_ch is even
    Ok(DecoderPlan(front + [final], Conv2d(mid, cOut, 3, 1, 1, true)))
  }

  /** The Decoder is built exactly when N_S >= 2 and C_hid is even: with N_S < 2 `samplings[-1]`
    * raises IndexError, and an odd C_hid makes the first block's GroupNorm raise ValueError
    * (the last block's mid_ch is always even). All blocks but the last keep C_hid, the last maps
    * C_hid to mid_ch, and the read-out maps mid_ch to C_out. */
  lemma DecoderPlanShape(cHid: nat, cOut: nat, nS: int, kernel: nat)
    ensures BuildDecoder(cHid, cOut, nS, kernel).Ok? <==> nS >= 2 && cHid % 2 == 0
    ensures nS < 2 ==> BuildDecoder(cHid, cOut, nS, kernel) == Err(IndexError)
    ensures nS >= 2 && cHid % 2 != 0 ==> BuildDecoder(cHid, cOut, nS, kernel) == Err(ValueError)
    ensures nS >= 2 && cHid % 2 == 0 ==>
      var d := BuildDecoder(cHid, cOut, nS, kernel).value;
      var mid := MidChannels(cHid, cOut);
      && |d.blocks| == 2 * (nS / 2)
      && (forall i :: 0 <= i < |d.blocks| - 1 ==> Ok(d.blocks[i]) == PlainConvSC(cHid, cHid, kernel))
      && Ok(d.blocks[|d.blocks| - 1]) == PlainConvSC(cHid, mid, kernel)
      && d.readout == Conv2d(mid, cOut, 3, 1, 1, true)
      && Chain(d.blocks, cHid, mid) && Plain(d.blocks, kernel)
  {
    SamplingGeneratorShape(nS, true);
    MidChannelsEven(cHid, cOut);
    var samplings := SamplingGenerator(nS, true);
    var init := PySlice(samplings, None, Some(-1));
    BuildStackShape(cHid, cHid, kernel, init, true);
    if nS >= 2 {
      assert |init| == |samplings| - 1 >= 1;
      assert forall i :: 0 <= i < |init| ==> !init[i];
      assert PyIndex(samplings, -1) == Ok(false);
      if cHid % 2 == 0 {
        var d := BuildDecoder(cHid, cOut, nS, kernel).value;
        var front := BuildStack(cHid, cHid, kernel, init, true).value;
        assert d.blocks == front + [PlainConvSC(cHid, MidChannels(cHid, cOut), kernel).value];
        assert |d.blocks| == |samplings|;
        forall i | 0 <= i < |d.blocks| - 1
          ensures Ok(d.blocks[i]) == PlainConvSC(cHid, cHid, kernel)
        {
          assert d.blocks[i] == front[i] && !init[i];
        }
      }
    } else {
      assert init == [];
    }
  }

  /** One interval sub-model self.hid[i]: Encoder, VisionTransformer, Decoder. */
  datatype SubModelPlan = SubModelPlan(enc: EncoderPlan, mixer: Layer, dec: DecoderPlan)

  /** What Pred_Model.__init__ builds. `timeEmbWidths` are the widths of the three Linear layers
    * of the time embedding, from input to output. */
  datatype ModelPlan = ModelPlan(enc: EncoderPlan, dec: DecoderPlan, constEnc: EncoderPlan,
                                 timeEmbWidths: seq<int>, subs: seq<SubModelPlan>)

  /** Pred_Model.__init__ for in_shape (B, T, C, H, W). `int(hid_S*0.5)` is hid_S // 2. */
  function BuildModel(c: nat, t: nat, outCh: nat, hidS: nat, nS: int, kernelEnc: nat, kernelDec: nat,
                      targetDim: Option<int>, chNumConst: nat, inputTimeLength: int,
                      timeEmbNum: int, timeInte: seq<int>): Result<ModelPlan>
  {
    var enc :- BuildEncoder(c, hidS, nS, kernelEnc, targetDim);
    var dec :- BuildDecoder(hidS, outCh, nS, kernelDec);
    var constEnc :- BuildEncoder(chNumConst, hidS / 2, 2, kernelEnc, None);
    var widths := [inputTimeLength * timeEmbNum, 128, 256, hidS / 2];
    var subs :- BuildSubModels(hidS, t, kernelEnc, kernelDec, |timeInte|);
    Ok(ModelPlan(enc, dec, constEnc, widths, subs))
  }

  /** One element of the list comprehension at the end of Pred_Model.__init__. */
  function BuildSubModel(hidS: nat, t: nat, kernelEnc: nat, kernelDec: nat): Result<SubModelPlan>
  {
    var inCh: nat := hidS * (t + 1);
    var subEnc :- BuildEncoder(inCh, 2 * hidS, 4, kernelEnc, None);
    var subDec :- BuildDecoder(2 * hidS, hidS, 4, kernelDec);
    Ok(SubModelPlan(subEnc, VisionTransformer, subDec))
  }

  /** `[nn.Sequential(...) for i in range(n)]`: n sub-models built alike, none when n == 0. */
  function BuildSubModels(hidS: nat, t: nat, kernelEnc: nat, kernelDec: nat, n: nat)
    : (r: Result<seq<SubModelPlan>>)
    ensures r.Ok? <==> n == 0 || BuildSubModel(hidS, t, kernelEnc, kernelDec).Ok?
    ensures r.Err? ==> r.error == BuildSubModel(hidS, t, kernelEnc, kernelDec).error
    ensures r.Ok? ==> |r.value| == n
    ensures r.Ok? ==> forall i :: 0 <= i < n ==> Ok(r.value[i]) == BuildSubModel(hidS, t, kernelEnc, kernelDec)
  {
    if n == 0 then Ok([])
    else
      var sub :- BuildSubModel(hidS, t, kernelEnc, kernelDec);
      Ok(seq(n, i => sub))
  }

  /** An interval sub-model is built exactly when its Encoder's (hid_S*(T+1) + 2*hid_S)//2 is
    * even (2*hid_S and the Decoder's widths always are), and then its Encoder takes hid_S*(T+1)
    * channels to 2*hid_S and its Decoder takes 2*hid_S back down to hid_S, one latent step. */
  lemma SubModelPlanShape(hidS: nat, t: nat, kernelEnc: nat, kernelDec: nat)
    ensures BuildSubModel(hidS, t, kernelEnc, kernelDec).Ok? <==> EncoderWidthsEven(hidS * (t + 1), 2 * hidS)
    ensures BuildSubModel(hidS, t, kernelEnc, kernelDec).Err? ==>
      BuildSubModel(hidS, t, kernelEnc, kernelDec).error == ValueError
    ensures BuildSubModel(hidS, t, kernelEnc, kernelDec).Ok? ==>
      var sub := BuildSubModel(hidS, t, kernelEnc, kernelDec).value;
      && sub.mixer == VisionTransformer
      && Chain(sub.enc.blocks, hidS * (t + 1), 2 * hidS) && Plain(sub.enc.blocks, kernelEnc)
      && sub.enc.gate == None
      && Chain(sub.dec.blocks, 2 * hidS, MidChannels(2 * hidS, hidS)) && Plain(sub.dec.blocks, kernelDec)
      && sub.dec.readout == Conv2d(MidChannels(2 * hidS, hidS), hidS, 3, 1, 1, true)
  {
    EncoderPlanShape(hidS * (t + 1), 2 * hidS, 4, kernelEnc, None);
    DecoderPlanShape(2 * hidS, hidS, 4, kernelDec);
  }

  /** Every GroupNorm a Pred_Model builds splits its channels in two: those of the encoder (and
    * so of the decoder), of the constant embedding, and of the sub-models when there are any. */
  predicate ModelWidthsEven(c: nat, t: nat, hidS: nat, chNumConst: nat, subs: nat)
  {
    && EncoderWidthsEven(c, hidS)
    && EncoderWidthsEven(chNumConst, hidS / 2)
    && (subs > 0 ==> EncoderWidthsEven(hidS * (t + 1), 2 * hidS))
  }

  /** With N_S >= 2 and even widths every part of a Pred_Model can be built: the encoder ends at
    * hid_S channels, the constant embedding at hid_S//2, and there is one sub-model per entry of
    * time_inte. */
  lemma ModelPlanBuilt(c: nat, t: nat, outCh: nat, hidS: nat, nS: int, kernelEnc: nat, kernelDec: nat,
                       targetDim: Option<int>, chNumConst: nat, inputTimeLength: int,
                       timeEmbNum: int, timeInte: seq<int>)
    requires nS >= 2 && ModelWidthsEven(c, t, hidS, chNumConst, |timeInte|)
    ensures var r := BuildModel(c, t, outCh, hidS, nS, kernelEnc, kernelDec, targetDim, chNumConst,
                                inputTimeLength, timeEmbNum, timeInte);
      && r.Ok?
      && Chain(r.value.enc.blocks, c, hidS)
      && Chain(r.value.constEnc.blocks, chNumConst, hidS / 2)
      && |r.value.timeEmbWidths| == 4 && r.value.timeEmbWidths[3] == hidS / 2
      && |r.value.subs| == |timeInte|
      && forall i :: 0 <= i < |timeInte| ==>
           Ok(r.value.subs[i]) == BuildSubModel(hidS, t, kernelEnc, kernelDec)
  {
    EncoderPlanShape(c, hidS, nS, kernelEnc, targetDim);
    DecoderPlanShape(hidS, outCh, nS, kernelDec);
    EncoderPlanShape(chNumConst, hidS / 2, 2, kernelEnc, None);
    SubModelPlanShape(hidS, t, kernelEnc, kernelDec);
  }

  /** A Pred_Model is built exactly when N_S >= 2 and its GroupNorm widths are even; otherwise
    * the encoder raises IndexError (N_S < 2) or a GroupNorm raises ValueError. A built model
    * holds exactly len(time_inte) interval sub-models, and the constant and the time embedding
    * both produce hid_S//2 channels. */
  lemma ModelPlanShape(c: nat, t: nat, outCh: nat, hidS: nat, nS: int, kernelEnc: nat, kernelDec: nat,
                       targetDim: Option<int>, chNumConst: nat, inputTimeLength: int,
                       timeEmbNum: int, timeInte: seq<int>)
    ensures var r := BuildModel(c, t, outCh, hidS, nS, kernelEnc, kernelDec, targetDim, chNumConst,
                                inputTimeLength, timeEmbNum, timeInte);
      && (r.Ok? <==> nS >= 2 && ModelWidthsEven(c, t, hidS, chNumConst, |timeInte|))
      && (nS < 2 ==> r == Err(IndexError))
      && (nS >= 2 && r.Err? ==> r.error == ValueError)
      && (r.Ok? ==>
        && Chain(r.value.enc.blocks, c, hidS)
        && Chain(r.value.constEnc.blocks, chNumConst, hidS / 2)
        && |r.value.timeEmbWidths| == 4 && r.value.timeEmbWidths[3] == hidS / 2
        && |r.value.subs| == |timeInte|
        && forall i :: 0 <= i < |timeInte| ==>
             Ok(r.value.subs[i]) == BuildSubModel(hidS, t, kernelEnc, kernelDec))
  {
    EncoderPlanShape(c, hidS, nS, kernelEnc, targetDim);
    DecoderPlanShape(hidS, outCh, nS, kernelDec);
    EncoderPlanShape(chNumConst, hidS / 2, 2, kernelEnc, None);
    SubModelPlanShape(hidS, t, kernelEnc, kernelDec);
    if nS >= 2 && ModelWidthsEven(c, t, hidS, chNumConst, |timeInte|) {
      ModelPlanBuilt(c, t, outCh, hidS, nS, kernelEnc, kernelDec, targetDim, chNumConst,
                     inputTimeLength, timeEmbNum, timeInte);
    }
  }
}
