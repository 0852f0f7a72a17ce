/** Pred_Model.forward_recur: one prediction step through an interval sub-model, plus the
  * configuration and call records the recurrence controllers share. */
module Recur {
  import opened PyOps
  import opened Tensors
  import opened Arch
  import opened Blocks

  /** What the recurrence controllers read from the model: `self.hid_S`, the frame count T of
    * the in_shape the sub-models were built for, `self.args`, and the number of time covariates
    * per time column (dim 1 of the time tensor the caller passes). */
  datatype Config = Config(hidS: nat, frames: nat, inputTimeLength: int, preSeqLength: int,
                           inLenVal: int, timeInte: seq<int>, timeEmbNum: nat, timeFeatures: nat)

  /** The arguments of one forward_recur call: the latent window, the slice of the time
    * covariates (dim 2), and the sub-model index hid_i. */
  datatype Call = Call(x: Latent, time: seq<Column>, hidI: int)

  /** What a controller returns, with the forward_recur calls it made, in order. */
  datatype Outcome = Outcome(result: Result<Latent>, calls: seq<Call>)

  /** `time_data.reshape(B, -1)` of a window of k time columns has time_features*k features, and
    * the first Linear of self.time_embedding takes input_time_length*time_emb_num of them. */
  predicate TimeFits(cfg: Config, k: int)
  {
    cfg.timeFeatures * k == cfg.inputTimeLength * cfg.timeEmbNum
  }

  /** The int(hid_S*0.5) planes of a time embedding of a window, broadcast over the grid. */
  function TimePlanes(cfg: Config, window: seq<Column>): Latent
  {
    seq(cfg.hidS / 2, c requires 0 <= c => TimeEmb(window, c))
  }

  /** `self.time_embedding(time_data.reshape(B, -1))[..., None, None].repeat(1, 1, H, W)`: the
    * first Linear raises a shape error unless the flattened window has the width it was built
    * for; otherwise int(hid_S*0.5) planes of that window. */
  function TimeEmbedding(cfg: Config, window: seq<Column>): (r: Result<Latent>)
    ensures r.Ok? <==> TimeFits(cfg, |window|)
    ensures r.Err? ==> r.error == ShapeError
    ensures r.Ok? ==> |r.value| == cfg.hidS / 2
    ensures r.Ok? ==> forall c :: 0 <= c < |r.value| ==> r.value[c] == TimeEmb(window, c)
  {
    if TimeFits(cfg, |window|) then Ok(TimePlanes(cfg, window)) else Err(ShapeError)
  }

  /** With as many time covariates per column as the time embedding was built for, a window
    * fits exactly when it has input_time_length columns. */
  lemma TimeFitsColumns(cfg: Config, k: int)
    requires cfg.timeFeatures == cfg.timeEmbNum > 0
    ensures TimeFits(cfg, k) <==> k == cfg.inputTimeLength
  {
    var e, d := cfg.timeEmbNum, k - cfg.inputTimeLength;
    assert cfg.timeFeatures * k - cfg.inputTimeLength * cfg.timeEmbNum == e * d;
    assert d != 0 ==> e * d != 0;
  }

  /** The channels the interval sub-model receives: cat[x, const_emb, time_emb]. */
  function SubModelInput(cfg: Config, constEmb: Latent, call: Call): (r: Latent)
    ensures |r| == |call.x| + |constEmb| + cfg.hidS / 2
    ensures r[..|call.x|] == call.x && r[|call.x|..|call.x| + |constEmb|] == constEmb
  {
    call.x + constEmb + TimePlanes(cfg, call.time)
  }

  /** The input width of every interval sub-model: its Encoder is built for int(hid_S*(T+1)). */
  function SubModelWidth(cfg: Config): nat
  {
    cfg.hidS * (cfg.frames + 1)
  }

  /** x, with const_emb and the time embedding beside it, has the sub-models' input width. */
  predicate Accepts(cfg: Config, constEmb: Latent, x: Latent)
  {
    |x| + |constEmb| + cfg.hidS / 2 == SubModelWidth(cfg)
  }

  /** A built sub-model takes cat[x, const_emb, time_emb] exactly when Accepts holds, and then
    * returns hid_S channels. */
  lemma BuiltAccepts(cfg: Config, constEmb: Latent, call: Call, kernelEnc: nat, kernelDec: nat)
    requires BuildSubModel(cfg.hidS, cfg.frames, kernelEnc, kernelDec).Ok?
    ensures var r := SubModelForward(BuildSubModel(cfg.hidS, cfg.frames, kernelEnc, kernelDec).value,
                                     SubModelInput(cfg, constEmb, call));
      && (r.Ok? <==> Accepts(cfg, constEmb, call.x))
      && (r.Ok? ==> |r.value| == cfg.hidS)
  {
    AcceptsWidth(cfg, constEmb, call);
    SubModelShape(cfg.hidS, cfg.frames, kernelEnc, kernelDec, SubModelInput(cfg, constEmb, call));
  }

  /** Accepts says exactly that the concatenated sub-model input has hid_S*(T+1) channels. */
  lemma AcceptsWidth(cfg: Config, constEmb: Latent, call: Call)
    ensures Accepts(cfg, constEmb, call.x) <==>
      |SubModelInput(cfg, constEmb, call)| == cfg.hidS * (cfg.frames + 1)
  {
    assert SubModelWidth(cfg) == cfg.hidS * (cfg.frames + 1);
  }

  /** forward_recur(x, const_emb, time_data, hid_i) */
  function ForwardRecur(cfg: Config, constEmb: Latent, call: Call): Result<Latent>
  {
    var xRes := PySlice(call.x, Some(-(cfg.hidS as int)), None);
    var timeEmb :- TimeEmbedding(cfg, call.time);
    var j :- NormIndex(|cfg.timeInte|, call.hidI);
    var y :- LayerForward(SubModel(j, SubModelWidth(cfg), cfg.hidS), call.x + constEmb + timeEmb);
    BroadcastAdd(y, xRes)
  }

  /** hid_i names one of exactly len(time_inte) sub-models (negative indices count from the end). */
  predicate ValidSubModel(cfg: Config, hidI: int)
  {
    0 <= hidI + |cfg.timeInte| && hidI < |cfg.timeInte|
  }

  /** forward_recur succeeds exactly when the time window fits the time embedding, hid_i names a
    * sub-model, the sub-model accepts cat[x, const_emb, time_emb], and the residual broadcasts;
    * otherwise it raises, in this order, the time embedding's shape error, IndexError for hid_i,
    * then the sub-model's shape error. When x holds at least one step (hid_S channels), the
    * result is one step: channel c is the sub-model's channel c on cat[x, const_emb, time_emb]
    * plus channel c of the last step of x. */
  lemma ForwardRecurShape(cfg: Config, constEmb: Latent, call: Call)
    requires cfg.hidS > 0
    ensures ForwardRecur(cfg, constEmb, call).Ok? <==>
      && TimeFits(cfg, |call.time|) && ValidSubModel(cfg, call.hidI) && Accepts(cfg, constEmb, call.x)
      && (|call.x| >= cfg.hidS || |call.x| == 1 || cfg.hidS == 1)
    ensures !TimeFits(cfg, |call.time|) ==> ForwardRecur(cfg, constEmb, call) == Err(ShapeError)
    ensures TimeFits(cfg, |call.time|) && !ValidSubModel(cfg, call.hidI) ==>
      ForwardRecur(cfg, constEmb, call) == Err(IndexError)
    ensures TimeFits(cfg, |call.time|) && ValidSubModel(cfg, call.hidI) && !Accepts(cfg, constEmb, call.x) ==>
      ForwardRecur(cfg, constEmb, call) == Err(ShapeError)
    ensures TimeFits(cfg, |call.time|) && ValidSubModel(cfg, call.hidI) && Accepts(cfg, constEmb, call.x)
            && |call.x| >= cfg.hidS ==>
      var r := ForwardRecur(cfg, constEmb, call).value;
      var j := NormIndex(|cfg.timeInte|, call.hidI).value;
      && |r| == cfg.hidS
      && forall c :: 0 <= c < cfg.hidS ==>
           r[c] == Sum(Out(SubModel(j, SubModelWidth(cfg), cfg.hidS), SubModelInput(cfg, constEmb, call), c),
                       call.x[|call.x| - cfg.hidS + c])
  {
    var xRes := PySlice(call.x, Some(-(cfg.hidS as int)), None);
    if |call.x| >= cfg.hidS {
      SliceTail(call.x, cfg.hidS);
    } else {
      assert xRes == call.x;
    }
  }

  /** With hid_S == 0 the sub-models take no channels, so only an empty x with an empty const_emb
    * is accepted, with a time window the time embedding still checks, and the result is empty. */
  lemma ForwardRecurNoChannels(cfg: Config, constEmb: Latent, call: Call)
    requires cfg.hidS == 0
    ensures ForwardRecur(cfg, constEmb, call).Ok? <==>
      TimeFits(cfg, |call.time|) && ValidSubModel(cfg, call.hidI) && |call.x| == 0 && |constEmb| == 0
    ensures ForwardRecur(cfg, constEmb, call).Ok? ==> ForwardRecur(cfg, constEmb, call).value == []
  {
    SliceTail(call.x, 0);
  }

  /** The sub-model forward_recur applies behaves, in what it accepts and the width it returns, as
    * the one Pred_Model.__init__ builds for hid_S and T: the call succeeds on a built model exactly
    * when the input has the sub-models' width. */
  lemma ForwardRecurBuilt(cfg: Config, constEmb: Latent, call: Call, kernelEnc: nat, kernelDec: nat)
    requires BuildSubModel(cfg.hidS, cfg.frames, kernelEnc, kernelDec).Ok?
    requires ValidSubModel(cfg, call.hidI)
    ensures var sub := BuildSubModel(cfg.hidS, cfg.frames, kernelEnc, kernelDec).value;
      var r := SubModelForward(sub, SubModelInput(cfg, constEmb, call));
      && (r.Ok? <==> Accepts(cfg, constEmb, call.x))
      && (ForwardRecur(cfg, constEmb, call).Ok? ==> r.Ok? && |r.value| == cfg.hidS)
  {
    var x := SubModelInput(cfg, constEmb, call);
    BuiltAccepts(cfg, constEmb, call, kernelEnc, kernelDec);
    if ForwardRecur(cfg, constEmb, call).Ok? {
      var j := NormIndex(|cfg.timeInte|, call.hidI).value;
      assert LayerForward(SubModel(j, SubModelWidth(cfg), cfg.hidS), x).Ok?;
      assert |x| == SubModelWidth(cfg);
    }
  }
}
