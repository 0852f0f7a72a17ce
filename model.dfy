/** Pred_Model.forward, reduced to its mode dispatch: the training mode runs the chunked
  * recurrence and keeps the label outputs, every other mode runs the hierarchical schedule and
  * has no label outputs. */
module Model {
  import opened PyOps
  import opened Tensors
  import opened Recur
  import Predict
  import Pangu

  /** The training-only outputs of forward: embed_label, label_pred, embed_tmp, embed_label_dec. */
  datatype LabelOutputs = LabelOutputs(embedLabel: Latent, labelPred: Latent, embedTmp: Latent,
                                       embedLabelDec: Latent)

  /** What forward hands on: the predicted latent steps (before the final decoder), the label
    * outputs when there are any, and the forward_recur calls made. */
  method Forward(cfg: Config, z: Latent, constEmb: Latent, timeData: seq<Column>, given: LabelOutputs,
                 aft: int, hidI: int, shrink: bool, mode: string)
    returns (hid: Result<Latent>, labels: Option<LabelOutputs>, calls: seq<Call>)
    ensures mode == "train" ==>
      && Outcome(hid, calls) == Predict.PredictSpec(cfg, z, constEmb, timeData, aft, hidI, shrink, mode)
      && labels == Some(given)
    ensures mode != "train" ==>
      && Outcome(hid, calls) == Pangu.Pangu2Spec(cfg, z, constEmb, timeData, aft)
      && labels == None
  {
    if mode == "train" {
      labels := Some(given);
      hid, calls := Predict.Predict(cfg, z, constEmb, timeData, aft, hidI, shrink, mode);
    } else {
      labels := None;
      hid, calls := Pangu.PredictPangu2(cfg, z, constEmb, timeData, aft);
    }
  }

  /** The training path always perturbs: forward passes mode 'train' on to _predict, so every
    * chunk of a chunked horizon reads its window plus a fresh noise draw. */
  lemma TrainingChunksPerturbed(cfg: Config, z: Latent, constEmb: Latent, timeData: seq<Column>,
                                aft: int, hidI: int, shrink: bool)
    requires 0 < cfg.preSeqLength < aft
    requires cfg.hidS > 0 && ValidSubModel(cfg, hidI) && ValidSubModel(cfg, 0)
    requires Predict.WindowKept(cfg, constEmb, z, shrink)
    requires Predict.ChunkTimesFit(cfg, timeData, shrink, 0, aft / cfg.preSeqLength)
    ensures var o := Predict.PredictSpec(cfg, z, constEmb, timeData, aft, hidI, shrink, "train");
      && |o.calls| >= aft / cfg.preSeqLength >= 1
      && o.calls[0].x == Perturb(z, 0)
      && forall k :: 0 <= k < aft / cfg.preSeqLength - 1 ==>
           ForwardRecur(cfg, constEmb, o.calls[k]).Ok? &&
           o.calls[k + 1].x
           == Perturb(Predict.NextWindow(o.calls[k].x, ForwardRecur(cfg, constEmb, o.calls[k]).value, shrink), k + 1)
  {
    Predict.PredictChunkWindows(cfg, z, constEmb, timeData, aft, hidI, shrink, "train");
  }

  /** forward hands _predict the encoder's T steps of hid_S channels each and a constant
    * embedding of hid_S//2 channels. With an even hid_S and sub-models built for that same T,
    * the sub-models accept this window, and it keeps its width from chunk to chunk in shrink
    * mode exactly when T >= 2, and otherwise exactly when T == 1. */
  lemma EmbeddedWindowKept(cfg: Config, constEmb: Latent, z: Latent, shrink: bool)
    requires cfg.hidS > 0 && cfg.hidS % 2 == 0
    requires |z| == cfg.frames * cfg.hidS && |constEmb| == cfg.hidS / 2
    ensures Accepts(cfg, constEmb, z)
    ensures Predict.WindowKept(cfg, constEmb, z, shrink) <==>
      if shrink then cfg.frames >= 2 else cfg.frames == 1
  {
    var h := cfg.hidS;
    assert cfg.frames * h + h == h * (cfg.frames + 1);
    if cfg.frames >= 2 {
      assert 2 * h <= cfg.frames * h;
    }
  }
}
