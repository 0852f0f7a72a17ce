/** Pred_Model._predict: the training-path recurrence. A horizon of aft steps is cut into chunks of
  * pre_seq_length; each chunk is one forward_recur call on a working window that is either slid
  * (shrink) or replaced by the chunk's output, and a shorter remainder chunk closes the horizon. */
module Predict {
  import opened PyOps
  import opened Tensors
  import opened Recur

  /** `torch.cat(outs, dim=1)` on a non-empty list; the empty list is rejected by the caller. */
  function Concat(outs: seq<Latent>): Latent
  {
    if outs == [] then [] else Concat(outs[..|outs| - 1]) + outs[|outs| - 1]
  }

  /** Concatenating chunks of one size k gives k channels per chunk. */
  lemma {:induction false} ConcatUniform(outs: seq<Latent>, k: nat)
    requires forall i :: 0 <= i < |outs| ==> |outs[i]| == k
    ensures |Concat(outs)| == |outs| * k
  {
    if outs != [] {
      ConcatUniform(outs[..|outs| - 1], k);
      assert (|outs| - 1) * k + k == |outs| * k;
    }
  }

  /** In shrink mode, `cat[cur[:, -(len(cur) - len(out)):], out]`. */
  function SlideWindow(cur: Latent, out: Latent): Latent
  {
    PySlice(cur, Some(-(|cur| - |out|)), None) + out
  }

  /** The window after a chunk: slid in shrink mode, otherwise the chunk's output itself. */
  function NextWindow(cur: Latent, out: Latent, shrink: bool): Latent
  {
    if shrink then SlideWindow(cur, out) else out
  }

  /** The window keeps its length while the chunk is shorter than it: the oldest |out| channels
    * leave and the chunk enters. A chunk as long as the window doubles it, because
    * `cur[:, -0:]` is all of cur; a longer chunk keeps only the newest channels of cur. */
  lemma SlideWindowShape(cur: Latent, out: Latent)
    ensures |out| < |cur| ==> SlideWindow(cur, out) == cur[|out|..] + out
    ensures |out| < |cur| ==> |SlideWindow(cur, out)| == |cur|
    ensures |out| == |cur| ==> SlideWindow(cur, out) == cur + out
    ensures |cur| < |out| <= 2 * |cur| ==> SlideWindow(cur, out) == cur[|out| - |cur|..] + out
    ensures 2 * |cur| < |out| ==> SlideWindow(cur, out) == out
  {
    if |out| <= |cur| {
      SliceTail(cur, |cur| - |out|);
    }
  }

  /** The time columns chunk i reads: `[i*pre, i*pre + I)` in shrink mode, `[i*I, (i+1)*I)`
    * otherwise (I is input_time_length). */
  function ChunkTime(cfg: Config, time: seq<Column>, i: int, shrink: bool): seq<Column>
  {
    var pre, len := cfg.preSeqLength, cfg.inputTimeLength;
    if shrink then PySlice(time, Some(i * pre), Some(i * pre + len))
    else PySlice(time, Some(i * len), Some((i + 1) * len))
  }

  /** The window chunk i feeds to forward_recur: perturbed by the i-th noise draw in train mode. */
  function ChunkInput(cur: Latent, i: nat, mode: string): Latent
  {
    if mode == "train" then Perturb(cur, i) else cur
  }

  /** A window every chunk call accepts, and that keeps its width from chunk to chunk: sliding
    * keeps it while one step is shorter than the window, and replacing it by the chunk's output
    * keeps it when it is one step. */
  predicate WindowKept(cfg: Config, constEmb: Latent, cur: Latent, shrink: bool)
  {
    Accepts(cfg, constEmb, cur) && if shrink then cfg.hidS < |cur| else |cur| == cfg.hidS
  }

  /** Every chunk i..d-1 reads a time window that the time embedding takes. */
  predicate ChunkTimesFit(cfg: Config, time: seq<Column>, shrink: bool, i: int, d: int)
  {
    forall k :: i <= k < d ==> TimeFits(cfg, |ChunkTime(cfg, time, k, shrink)|)
  }

  /** State of the chunk loop: the working window, the chunks emitted, and the calls made. */
  datatype Chunks = Chunks(cur: Latent, outs: seq<Latent>, calls: seq<Call>)

  /** Where the chunk loop stopped, and the exception that stopped it, if any. */
  datatype LoopEnd = LoopEnd(state: Chunks, failed: Option<Error>)

  /** Iterations i, i+1, ..., d-1 of `for i in range(d)`. */
  function ChunkLoop(cfg: Config, constEmb: Latent, time: seq<Column>, hidI: int, shrink: bool,
                     mode: string, i: nat, d: int, s: Chunks): LoopEnd
    decreases d - i
  {
    if i >= d then LoopEnd(s, None)
    else
      var call := Call(ChunkInput(s.cur, i, mode), ChunkTime(cfg, time, i, shrink), hidI);
      match ForwardRecur(cfg, constEmb, call)
      case Err(e) => LoopEnd(Chunks(call.x, s.outs, s.calls + [call]), Some(e))
      case Ok(out) =>
        ChunkLoop(cfg, constEmb, time, hidI, shrink, mode, i + 1, d,
                  Chunks(NextWindow(call.x, out, shrink), s.outs + [out], s.calls + [call]))
  }

  /** The time columns of the remainder of m steps: `[-(m+I+pre):-m]`. */
  function RemainderTime(cfg: Config, time: seq<Column>, m: int): seq<Column>
  {
    PySlice(time, Some(-(m + cfg.inputTimeLength + cfg.preSeqLength)), Some(-m))
  }

  /** The call for the remainder of m steps: the remainder's time columns, sub-model 0. */
  function RemainderCall(cfg: Config, cur: Latent, time: seq<Column>, m: int): Call
  {
    Call(cur, RemainderTime(cfg, time, m), 0)
  }

  /** After the chunk loop: the remainder chunk when m != 0, then torch.cat of the outputs. */
  function Finish(cfg: Config, constEmb: Latent, time: seq<Column>, m: int, s: Chunks): Outcome
  {
    if m == 0 then
      Outcome(if s.outs == [] then Err(EmptyCat) else Ok(Concat(s.outs)), s.calls)
    else
      var call := RemainderCall(cfg, s.cur, time, m);
      match ForwardRecur(cfg, constEmb, call)
      case Err(e) => Outcome(Err(e), s.calls + [call])
      case Ok(y) => Outcome(Ok(Concat(s.outs + [PySlice(y, None, Some(m))])), s.calls + [call])
  }

  /** What _predict computes, and the forward_recur calls it makes. */
  function PredictSpec(cfg: Config, cur: Latent, constEmb: Latent, time: seq<Column>, aft: int,
                       hidI: int, shrink: bool, mode: string): Outcome
  {
    var pre := cfg.preSeqLength;
    if aft == pre then
      var call := Call(cur, PySlice(time, Some(0), Some(cfg.inputTimeLength)), hidI);
      Outcome(ForwardRecur(cfg, constEmb, call), [call])
    else if aft < pre then
      var call := Call(cur, time, 0);
      match ForwardRecur(cfg, constEmb, call)
      case Err(e) => Outcome(Err(e), [call])
      case Ok(y) => Outcome(Ok(PySlice(y, None, Some(aft))), [call])
    else if pre == 0 then Outcome(Err(ZeroDivisionError), [])
    else
      var d, m := FloorDiv(aft, pre), FloorMod(aft, pre);
      var e := ChunkLoop(cfg, constEmb, time, hidI, shrink, mode, 0, d, Chunks(cur, [], []));
      if e.failed.Some? then Outcome(Err(e.failed.value), e.state.calls)
      else Finish(cfg, constEmb, time, m, e.state)
  }

  /** One iteration of the chunk loop, unfolded. */
  lemma ChunkLoopStep(cfg: Config, constEmb: Latent, time: seq<Column>, hidI: int, shrink: bool,
                      mode: string, i: nat, d: int, s: Chunks)
    requires i < d
    ensures var call := Call(ChunkInput(s.cur, i, mode), ChunkTime(cfg, time, i, shrink), hidI);
      var y := ForwardRecur(cfg, constEmb, call);
      ChunkLoop(cfg, constEmb, time, hidI, shrink, mode, i, d, s)
      == if y.Err? then LoopEnd(Chunks(call.x, s.outs, s.calls + [call]), Some(y.error))
         else ChunkLoop(cfg, constEmb, time, hidI, shrink, mode, i + 1, d,
                        Chunks(NextWindow(call.x, y.value, shrink), s.outs + [y.value], s.calls + [call]))
  {
  }

  /** The `for i in range(d)` loop of _predict: the final window, the chunks and the calls, and
    * the exception that ended the loop early, if any. */
  method RunChunks(cfg: Config, constEmb: Latent, time: seq<Column>, hidI: int, shrink: bool,
                   mode: string, d: int, cur: Latent)
    returns (window: Latent, outs: seq<Latent>, calls: seq<Call>, failed: Option<Error>)
    ensures LoopEnd(Chunks(window, outs, calls), failed)
         == ChunkLoop(cfg, constEmb, time, hidI, shrink, mode, 0, d, Chunks(cur, [], []))
  {
    var pre, len := cfg.preSeqLength, cfg.inputTimeLength;
    window, outs, calls := cur, [], [];
    var i: nat := 0;
    while i < d
      invariant ChunkLoop(cfg, constEmb, time, hidI, shrink, mode, i, d, Chunks(window, outs, calls))
             == ChunkLoop(cfg, constEmb, time, hidI, shrink, mode, 0, d, Chunks(cur, [], []))
      decreases d - i
    {
      ghost var before := Chunks(window, outs, calls);
      ChunkLoopStep(cfg, constEmb, time, hidI, shrink, mode, i, d, before);
      if mode == "train" {
        window := Perturb(window, i);                    // the noise draw of chunk i
      }
      var call;
      if shrink {
        call := Call(window, PySlice(time, Some(i * pre), Some(i * pre + len)), hidI);
      } else {
        call := Call(window, PySlice(time, Some(i * len), Some((i + 1) * len)), hidI);
      }
      assert call == Call(ChunkInput(before.cur, i, mode), ChunkTime(cfg, time, i, shrink), hidI);
      calls := calls + [call];
      var out := ForwardRecur(cfg, constEmb, call);
      if out.Err? {
        failed := Some(out.error);
        return;
      }
      if shrink {
        window := PySlice(window, Some(-(|window| - |out.value|)), None) + out.value;
      } else {
        window := out.value;
      }
      assert window == NextWindow(call.x, out.value, shrink);
      outs := outs + [out.value];
      i := i + 1;
    }
    failed := None;
  }

  /** _predict(cur_seq, const_emb, time_data, aft_seq_length, hid_i, shrink, mode), returning the
    * prediction (or the exception it raises) and the forward_recur calls made, in order. */
  method Predict(cfg: Config, cur: Latent, constEmb: Latent, time: seq<Column>, aft: int,
                 hidI: int, shrink: bool, mode: string)
    returns (result: Result<Latent>, calls: seq<Call>)
    ensures Outcome(result, calls) == PredictSpec(cfg, cur, constEmb, time, aft, hidI, shrink, mode)
  {
    var pre, len := cfg.preSeqLength, cfg.inputTimeLength;
    if aft == pre {
      var call := Call(cur, PySlice(time, Some(0 * pre), Some(len + 0 * pre)), hidI);
      calls := [call];
      result := ForwardRecur(cfg, constEmb, call);
      return;
    } else if aft < pre {
      var call := Call(cur, time, 0);
      calls := [call];
      var y := ForwardRecur(cfg, constEmb, call);
      if y.Err? {
        result := Err(y.error);
        return;
      }
      result := Ok(PySlice(y.value, None, Some(aft)));
      return;
    }
    if pre == 0 {
      result, calls := Err(ZeroDivisionError), [];
      return;
    }
    var d := FloorDiv(aft, pre);
    var m := FloorMod(aft, pre);
    var window, outs, failed;
    window, outs, calls, failed := RunChunks(cfg, constEmb, time, hidI, shrink, mode, d, cur);
    if failed.Some? {
      result := Err(failed.value);
      return;
    }
    ghost var ran := Chunks(window, outs, calls);
    assert PredictSpec(cfg, cur, constEmb, time, aft, hidI, shrink, mode)
        == Finish(cfg, constEmb, time, m, ran);
    if m != 0 {
      var call := Call(window, PySlice(time, Some(-(m + len + pre)), Some(-m)), 0);
      assert call == RemainderCall(cfg, ran.cur, time, m);
      calls := calls + [call];
      var y := ForwardRecur(cfg, constEmb, call);
      if y.Err? {
        result := Err(y.error);
        return;
      }
      window := y.value;
      outs := outs + [PySlice(window, None, Some(m))];
    }
    if outs == [] {
      result := Err(EmptyCat);
    } else {
      result := Ok(Concat(outs));
    }
  }

  /** What iterations i..d-1 of the chunk loop, started from s, made of the final state e when
    * every call succeeded: chunk k made call k, read time window k and emitted one step; the
    * window of chunk k+1 is the window after chunk k, perturbed by draw k+1 in train mode. */
  ghost predicate ChunksRan(cfg: Config, constEmb: Latent, time: seq<Column>, hidI: int, shrink: bool,
                            mode: string, i: nat, d: int, s: Chunks, e: Chunks)
  {
    && i <= d && |e.calls| == d && |e.outs| == d && WindowKept(cfg, constEmb, e.cur, shrink)
    && e.calls[..i] == s.calls && e.outs[..i] == s.outs
    && (forall k :: i <= k < d ==>
          e.calls[k].time == ChunkTime(cfg, time, k, shrink) && e.calls[k].hidI == hidI)
    && (forall k :: i <= k < d ==>
          ForwardRecur(cfg, constEmb, e.calls[k]) == Ok(e.outs[k]) && |e.outs[k]| == cfg.hidS)
    && (i < d ==> e.calls[i].x == ChunkInput(s.cur, i, mode))
    && (forall k :: i <= k < d - 1 ==>
          e.calls[k + 1].x == ChunkInput(NextWindow(e.calls[k].x, e.outs[k], shrink), k + 1, mode))
    && e.cur == if i < d then NextWindow(e.calls[d - 1].x, e.outs[d - 1], shrink) else s.cur
  }

  /** A final state that iterations i+1..d-1 made from the state after a successful chunk i was
    * also made by iterations i..d-1 from the state before it. */
  lemma ChunksRanStep(cfg: Config, constEmb: Latent, time: seq<Column>, hidI: int, shrink: bool,
                      mode: string, i: nat, d: int, s: Chunks, call: Call, out: Latent, e: Chunks)
    requires i < d && |s.calls| == i && |s.outs| == i
    requires call == Call(ChunkInput(s.cur, i, mode), ChunkTime(cfg, time, i, shrink), hidI)
    requires ForwardRecur(cfg, constEmb, call) == Ok(out) && |out| == cfg.hidS
    requires ChunksRan(cfg, constEmb, time, hidI, shrink, mode, i + 1, d,
                       Chunks(NextWindow(call.x, out, shrink), s.outs + [out], s.calls + [call]), e)
    ensures ChunksRan(cfg, constEmb, time, hidI, shrink, mode, i, d, s, e)
  {
    assert e.calls[..i] == e.calls[..i + 1][..i];
    assert e.outs[..i] == e.outs[..i + 1][..i];
    assert e.calls[i] == e.calls[..i + 1][i] == call;
    assert e.outs[i] == e.outs[..i + 1][i] == out;
  }

  /** When every call can succeed (time windows the time embedding takes, a valid hid_i, and a
    * window the sub-models accept and that keeps its width), iterations i..d-1 all run, as
    * ChunksRan describes. */
  lemma {:induction false} ChunkLoopRuns(cfg: Config, constEmb: Latent, time: seq<Column>, hidI: int,
                                         shrink: bool, mode: string, i: nat, d: int, s: Chunks)
    requires cfg.hidS > 0 && ValidSubModel(cfg, hidI) && WindowKept(cfg, constEmb, s.cur, shrink)
    requires ChunkTimesFit(cfg, time, shrink, i, d)
    requires i <= d && |s.calls| == i && |s.outs| == i
    ensures ChunkLoop(cfg, constEmb, time, hidI, shrink, mode, i, d, s).failed == None
    ensures ChunksRan(cfg, constEmb, time, hidI, shrink, mode, i, d, s,
                      ChunkLoop(cfg, constEmb, time, hidI, shrink, mode, i, d, s).state)
    decreases d - i
  {
    if i < d {
      var call := Call(ChunkInput(s.cur, i, mode), ChunkTime(cfg, time, i, shrink), hidI);
      assert |call.x| == |s.cur|;
      ForwardRecurShape(cfg, constEmb, call);
      var out := ForwardRecur(cfg, constEmb, call).value;
      SlideWindowShape(call.x, out);
      var s' := Chunks(NextWindow(call.x, out, shrink), s.outs + [out], s.calls + [call]);
      ChunkLoopStep(cfg, constEmb, time, hidI, shrink, mode, i, d, s);
      ChunkLoopRuns(cfg, constEmb, time, hidI, shrink, mode, i + 1, d, s');
      var e := ChunkLoop(cfg, constEmb, time, hidI, shrink, mode, i + 1, d, s');
      assert ChunkLoop(cfg, constEmb, time, hidI, shrink, mode, i, d, s) == e;
      ChunksRanStep(cfg, constEmb, time, hidI, shrink, mode, i, d, s, call, out, e.state);
    } else {
      assert s.calls[..i] == s.calls && s.outs[..i] == s.outs;
    }
  }

  /** After d >= 1 full chunks, the remainder (if any, and with a time window the time embedding
    * takes) makes one more call on the window the chunks left, and the outputs concatenate to d
    * steps plus the remainder's first m channels. */
  lemma FinishRuns(cfg: Config, constEmb: Latent, time: seq<Column>, m: int, s: Chunks)
    requires cfg.hidS > 0 && ValidSubModel(cfg, 0) && |s.cur| >= cfg.hidS && Accepts(cfg, constEmb, s.cur)
    requires m != 0 ==> TimeFits(cfg, |RemainderTime(cfg, time, m)|)
    requires 0 <= m && |s.outs| >= 1
    requires forall k :: 0 <= k < |s.outs| ==> |s.outs[k]| == cfg.hidS
    ensures var o := Finish(cfg, constEmb, time, m, s);
      && o.result.Ok?
      && o.calls == s.calls + (if m != 0 then [RemainderCall(cfg, s.cur, time, m)] else [])
      && |o.result.value|
         == |s.outs| * cfg.hidS + (if m == 0 then 0 else if m < cfg.hidS then m else cfg.hidS)
  {
    ConcatUniform(s.outs, cfg.hidS);
    if m != 0 {
      var call := RemainderCall(cfg, s.cur, time, m);
      ForwardRecurShape(cfg, constEmb, call);
      var y := ForwardRecur(cfg, constEmb, call).value;
      SliceHead(y, m);
      var outs := s.outs + [PySlice(y, None, Some(m))];
      assert outs[..|outs| - 1] == s.outs;
    }
  }

  /** A remainder whose time window the time embedding rejects makes the prediction fail with
    * that shape error, after the remainder's call. */
  lemma FinishRejected(cfg: Config, constEmb: Latent, time: seq<Column>, m: int, s: Chunks)
    requires m != 0 && !TimeFits(cfg, |RemainderTime(cfg, time, m)|)
    ensures var o := Finish(cfg, constEmb, time, m, s);
      o.result == Err(ShapeError) && o.calls == s.calls + [RemainderCall(cfg, s.cur, time, m)]
  {
    assert ForwardRecur(cfg, constEmb, RemainderCall(cfg, s.cur, time, m)) == Err(ShapeError);
  }

  /** aft > pre > 0 with every call able to succeed: the chunk loop runs to its end and the
    * prediction is what the remainder step makes of the loop's final state. */
  lemma PredictUnfold(cfg: Config, cur: Latent, constEmb: Latent, time: seq<Column>, aft: int,
                      hidI: int, shrink: bool, mode: string)
    requires 0 < cfg.preSeqLength < aft
    requires cfg.hidS > 0 && ValidSubModel(cfg, hidI) && WindowKept(cfg, constEmb, cur, shrink)
    requires ChunkTimesFit(cfg, time, shrink, 0, aft / cfg.preSeqLength)
    ensures var pre := cfg.preSeqLength;
      var e := ChunkLoop(cfg, constEmb, time, hidI, shrink, mode, 0, aft / pre, Chunks(cur, [], []));
      && e.failed == None
      && PredictSpec(cfg, cur, constEmb, time, aft, hidI, shrink, mode)
         == Finish(cfg, constEmb, time, aft % pre, e.state)
  {
    ChunkDivision(aft, cfg.preSeqLength);
    ChunkLoopRuns(cfg, constEmb, time, hidI, shrink, mode, 0, aft / cfg.preSeqLength, Chunks(cur, [], []));
  }

  /** Python's `//` and `%` by a positive pre agree with Dafny's, and split aft > pre into
    * d >= 1 whole chunks and a remainder 0 <= m < pre. */
  lemma ChunkDivision(aft: int, pre: int)
    requires 0 < pre < aft
    ensures FloorDiv(aft, pre) == aft / pre && FloorMod(aft, pre) == aft % pre
    ensures aft / pre * pre + aft % pre == aft && 0 <= aft % pre < pre && aft / pre >= 1
  {
  }

  /** The lengths ChunkLoopRuns gives: one call and one step-sized chunk per iteration. */
  lemma ChunkLoopLengths(cfg: Config, constEmb: Latent, time: seq<Column>, hidI: int,
                         shrink: bool, mode: string, d: nat, cur: Latent)
    requires cfg.hidS > 0 && ValidSubModel(cfg, hidI) && WindowKept(cfg, constEmb, cur, shrink)
    requires ChunkTimesFit(cfg, time, shrink, 0, d)
    ensures var e := ChunkLoop(cfg, constEmb, time, hidI, shrink, mode, 0, d, Chunks(cur, [], []));
      && e.failed == None && |e.state.calls| == d && |e.state.outs| == d
      && WindowKept(cfg, constEmb, e.state.cur, shrink)
      && forall k :: 0 <= k < d ==> |e.state.outs[k]| == cfg.hidS
  {
    ChunkLoopRuns(cfg, constEmb, time, hidI, shrink, mode, 0, d, Chunks(cur, [], []));
  }

  /** aft > pre > 0: exactly d = aft // pre chunk calls, plus one for the remainder iff
    * m = aft % pre is not 0, where d*pre + m == aft and 0 <= m < pre. Each chunk contributes one
    * step and the remainder its first m channels. */
  lemma PredictChunkCount(cfg: Config, cur: Latent, constEmb: Latent, time: seq<Column>, aft: int,
                          hidI: int, shrink: bool, mode: string)
    requires 0 < cfg.preSeqLength < aft
    requires cfg.hidS > 0 && ValidSubModel(cfg, hidI) && ValidSubModel(cfg, 0)
    requires WindowKept(cfg, constEmb, cur, shrink)
    requires ChunkTimesFit(cfg, time, shrink, 0, aft / cfg.preSeqLength)
    requires aft % cfg.preSeqLength != 0 ==> TimeFits(cfg, |RemainderTime(cfg, time, aft % cfg.preSeqLength)|)
    ensures var o := PredictSpec(cfg, cur, constEmb, time, aft, hidI, shrink, mode);
      var pre := cfg.preSeqLength;
      var d, m := aft / pre, aft % pre;
      && d * pre + m == aft && 0 <= m < pre && d >= 1
      && o.result.Ok?
      && |o.calls| == d + (if m != 0 then 1 else 0)
      && |o.result.value| == d * cfg.hidS + (if m == 0 then 0 else if m < cfg.hidS then m else cfg.hidS)
  {
    var d := aft / cfg.preSeqLength;
    ChunkDivision(aft, cfg.preSeqLength);
    PredictUnfold(cfg, cur, constEmb, time, aft, hidI, shrink, mode);
    ChunkLoopLengths(cfg, constEmb, time, hidI, shrink, mode, d, cur);
    var e := ChunkLoop(cfg, constEmb, time, hidI, shrink, mode, 0, d, Chunks(cur, [], [])).state;
    FinishRuns(cfg, constEmb, time, aft % cfg.preSeqLength, e);
  }

  /** aft > pre > 0: chunk k reads time window k with sub-model hid_i, on the window the previous
    * chunk left, perturbed by draw k in train mode. */
  lemma PredictChunkWindows(cfg: Config, cur: Latent, constEmb: Latent, time: seq<Column>, aft: int,
                            hidI: int, shrink: bool, mode: string)
    requires 0 < cfg.preSeqLength < aft
    requires cfg.hidS > 0 && ValidSubModel(cfg, hidI) && ValidSubModel(cfg, 0)
    requires WindowKept(cfg, constEmb, cur, shrink)
    requires ChunkTimesFit(cfg, time, shrink, 0, aft / cfg.preSeqLength)
    ensures var o := PredictSpec(cfg, cur, constEmb, time, aft, hidI, shrink, mode);
      var d := aft / cfg.preSeqLength;
      && |o.calls| >= d >= 1
      && (forall k :: 0 <= k < d ==>
            o.calls[k].time == ChunkTime(cfg, time, k, shrink) && o.calls[k].hidI == hidI)
      && o.calls[0].x == ChunkInput(cur, 0, mode)
      && (forall k :: 0 <= k < d - 1 ==>
            ForwardRecur(cfg, constEmb, o.calls[k]).Ok? &&
            o.calls[k + 1].x
            == ChunkInput(NextWindow(o.calls[k].x, ForwardRecur(cfg, constEmb, o.calls[k]).value, shrink), k + 1, mode))
  {
    var d, m := aft / cfg.preSeqLength, aft % cfg.preSeqLength;
    ChunkDivision(aft, cfg.preSeqLength);
    PredictUnfold(cfg, cur, constEmb, time, aft, hidI, shrink, mode);
    ChunkLoopRuns(cfg, constEmb, time, hidI, shrink, mode, 0, d, Chunks(cur, [], []));
    var e := ChunkLoop(cfg, constEmb, time, hidI, shrink, mode, 0, d, Chunks(cur, [], [])).state;
    PredictCallsExtend(cfg, constEmb, time, m, e);
    var o := PredictSpec(cfg, cur, constEmb, time, aft, hidI, shrink, mode);
    assert o.calls[..d] == e.calls;
    forall k | 0 <= k < d
      ensures o.calls[k] == e.calls[k]
    {
      assert o.calls[..d][k] == o.calls[k];
    }
  }

  /** The calls after the chunk loop: those of the loop, then the remainder's call iff m != 0. */
  lemma PredictCallsExtend(cfg: Config, constEmb: Latent, time: seq<Column>, m: int, s: Chunks)
    ensures Finish(cfg, constEmb, time, m, s).calls
            == s.calls + (if m != 0 then [RemainderCall(cfg, s.cur, time, m)] else [])
  {
  }

  /** aft > pre > 0 with a remainder m != 0: the last call reads `[-(m+I+pre):-m]` with
    * sub-model 0 on the window the last chunk left. */
  lemma PredictRemainderWindow(cfg: Config, cur: Latent, constEmb: Latent, time: seq<Column>, aft: int,
                               hidI: int, shrink: bool, mode: string)
    requires 0 < cfg.preSeqLength < aft && aft % cfg.preSeqLength != 0
    requires cfg.hidS > 0 && ValidSubModel(cfg, hidI) && ValidSubModel(cfg, 0)
    requires WindowKept(cfg, constEmb, cur, shrink)
    requires ChunkTimesFit(cfg, time, shrink, 0, aft / cfg.preSeqLength)
    ensures var o := PredictSpec(cfg, cur, constEmb, time, aft, hidI, shrink, mode);
      var d, m := aft / cfg.preSeqLength, aft % cfg.preSeqLength;
      && |o.calls| == d + 1 && d >= 1
      && ForwardRecur(cfg, constEmb, o.calls[d - 1]).Ok?
      && o.calls[d] == RemainderCall(cfg, NextWindow(o.calls[d - 1].x, ForwardRecur(cfg, constEmb, o.calls[d - 1]).value, shrink), time, m)
  {
    var d, m := aft / cfg.preSeqLength, aft % cfg.preSeqLength;
    ChunkDivision(aft, cfg.preSeqLength);
    PredictUnfold(cfg, cur, constEmb, time, aft, hidI, shrink, mode);
    ChunkLoopRuns(cfg, constEmb, time, hidI, shrink, mode, 0, d, Chunks(cur, [], []));
    var e := ChunkLoop(cfg, constEmb, time, hidI, shrink, mode, 0, d, Chunks(cur, [], [])).state;
    PredictCallsExtend(cfg, constEmb, time, m, e);
    var o := PredictSpec(cfg, cur, constEmb, time, aft, hidI, shrink, mode);
    assert o.calls[d - 1] == e.calls[d - 1];
  }

  /** A window the sub-models accept, with a first time window the time embedding takes, but
    * that does not keep its width makes the second call fail: in shrink mode a window of exactly
    * one step doubles (`cur[:, -0:]` is all of cur), and otherwise a longer window is replaced by
    * the one step the chunk returned. Either way the next call, a second chunk or the remainder,
    * raises a shape error (the sub-model's, if its time window fits). */
  lemma PredictWindowDrifts(cfg: Config, cur: Latent, constEmb: Latent, time: seq<Column>, aft: int,
                            hidI: int, shrink: bool, mode: string)
    requires 0 < cfg.preSeqLength < aft
    requires cfg.hidS > 0 && ValidSubModel(cfg, hidI) && ValidSubModel(cfg, 0)
    requires TimeFits(cfg, |ChunkTime(cfg, time, 0, shrink)|)
    requires Accepts(cfg, constEmb, cur) && |cur| >= cfg.hidS && !WindowKept(cfg, constEmb, cur, shrink)
    ensures var o := PredictSpec(cfg, cur, constEmb, time, aft, hidI, shrink, mode);
      o.result == Err(ShapeError) && |o.calls| == 2
  {
    var pre := cfg.preSeqLength;
    var d, m := aft / pre, aft % pre;
    ChunkDivision(aft, pre);
    var s0 := Chunks(cur, [], []);
    var call := Call(ChunkInput(cur, 0, mode), ChunkTime(cfg, time, 0, shrink), hidI);
    assert |call.x| == |cur|;
    ForwardRecurShape(cfg, constEmb, call);
    var out := ForwardRecur(cfg, constEmb, call).value;
    SlideWindowShape(call.x, out);
    var w := NextWindow(call.x, out, shrink);
    assert |w| != |cur|;
    assert !Accepts(cfg, constEmb, w);
    var s1 := Chunks(w, [out], [call]);
    ChunkLoopStep(cfg, constEmb, time, hidI, shrink, mode, 0, d, s0);
    assert s0.outs + [out] == [out] && s0.calls + [call] == [call];
    if d >= 2 {
      var call1 := Call(ChunkInput(w, 1, mode), ChunkTime(cfg, time, 1, shrink), hidI);
      assert |call1.x| == |w|;
      ForwardRecurShape(cfg, constEmb, call1);
      ChunkLoopStep(cfg, constEmb, time, hidI, shrink, mode, 1, d, s1);
    } else {
      ForwardRecurShape(cfg, constEmb, RemainderCall(cfg, w, time, m));
    }
  }

  /** aft <= pre: a single forward_recur call. With aft == pre it reads the time window
    * `[0, I)` with sub-model hid_i and returns the step as is; with aft < pre it reads all the
    * time data with sub-model 0 and keeps the first aft channels. */
  lemma PredictSingleCall(cfg: Config, cur: Latent, constEmb: Latent, time: seq<Column>, aft: int,
                          hidI: int, shrink: bool, mode: string)
    requires aft <= cfg.preSeqLength
    ensures var o := PredictSpec(cfg, cur, constEmb, time, aft, hidI, shrink, mode);
      && |o.calls| == 1
      && o.result.Ok? == ForwardRecur(cfg, constEmb, o.calls[0]).Ok?
      && (aft == cfg.preSeqLength ==>
            o.calls[0] == Call(cur, PySlice(time, Some(0), Some(cfg.inputTimeLength)), hidI) &&
            o.result == ForwardRecur(cfg, constEmb, o.calls[0]))
      && (aft < cfg.preSeqLength ==>
            o.calls[0] == Call(cur, time, 0) &&
            (0 <= aft ==> o.result.Ok? ==>
               var y := ForwardRecur(cfg, constEmb, o.calls[0]).value;
               o.result.value == if aft < |y| then y[..aft] else y))
  {
    if aft < cfg.preSeqLength && 0 <= aft {
      var y := ForwardRecur(cfg, constEmb, Call(cur, time, 0));
      if y.Ok? {
        SliceHead(y.value, aft);
      }
    }
  }

  /** Chunk k <= d - 1 ends no later than chunk d - 1. */
  lemma ChunkEndMono(k: int, d: int, w: nat)
    requires 0 <= k <= d - 1
    ensures 0 <= k * w <= (d - 1) * w
  {
  }

  /** With as many time covariates per column as the time embedding was built for, and time data
    * long enough for the last chunk's window (`[(d-1)*pre, (d-1)*pre + I)` in shrink mode,
    * `[(d-1)*I, d*I)` otherwise), every chunk's time window fits. */
  lemma ChunkTimesFitLong(cfg: Config, cur: Latent, time: seq<Column>, shrink: bool, d: int)
    requires 0 <= cfg.inputTimeLength && 0 <= cfg.preSeqLength && 1 <= d
    requires cfg.timeFeatures == cfg.timeEmbNum
    requires shrink ==> (d - 1) * cfg.preSeqLength + cfg.inputTimeLength <= |time|
    requires !shrink ==> d * cfg.inputTimeLength <= |time|
    ensures ChunkTimesFit(cfg, time, shrink, 0, d)
  {
    var pre, len := cfg.preSeqLength, cfg.inputTimeLength;
    forall k | 0 <= k < d
      ensures TimeFits(cfg, |ChunkTime(cfg, time, k, shrink)|)
    {
      ChunkEndMono(k, d, pre);
      ChunkEndMono(k, d, len);
      assert (d - 1) * len + len == d * len;
      TimeWindowWidths(cfg, cur, time, k, 1, shrink);
    }
  }

  /** With as many time covariates per column as the time embedding was built for, and time data
    * long enough for `[-(m+I+pre):-m]` to lie inside it, the remainder's I + pre columns do
    * not fit the time embedding. */
  lemma RemainderTooWide(cfg: Config, cur: Latent, time: seq<Column>, m: int)
    requires cfg.timeFeatures == cfg.timeEmbNum > 0
    requires 0 <= cfg.inputTimeLength && 0 < cfg.preSeqLength && 0 < m
    requires m + cfg.inputTimeLength + cfg.preSeqLength <= |time|
    ensures !TimeFits(cfg, |RemainderTime(cfg, time, m)|)
  {
    TimeWindowWidths(cfg, cur, time, 0, m, true);
    TimeFitsColumns(cfg, |RemainderTime(cfg, time, m)|);
  }

  /** aft > pre > 0 with a remainder m != 0 whose time window the time embedding rejects, while
    * every chunk call can succeed: the d chunks run and the remainder's call raises a shape
    * error, d + 1 calls in all. */
  lemma PredictRemainderRejected(cfg: Config, cur: Latent, constEmb: Latent, time: seq<Column>, aft: int,
                                 hidI: int, shrink: bool, mode: string)
    requires 0 < cfg.preSeqLength < aft && aft % cfg.preSeqLength != 0
    requires cfg.hidS > 0 && ValidSubModel(cfg, hidI) && WindowKept(cfg, constEmb, cur, shrink)
    requires ChunkTimesFit(cfg, time, shrink, 0, aft / cfg.preSeqLength)
    requires !TimeFits(cfg, |RemainderTime(cfg, time, aft % cfg.preSeqLength)|)
    ensures var o := PredictSpec(cfg, cur, constEmb, time, aft, hidI, shrink, mode);
      o.result == Err(ShapeError) && |o.calls| == aft / cfg.preSeqLength + 1
  {
    var d, m := aft / cfg.preSeqLength, aft % cfg.preSeqLength;
    PredictUnfold(cfg, cur, constEmb, time, aft, hidI, shrink, mode);
    ChunkLoopLengths(cfg, constEmb, time, hidI, shrink, mode, d, cur);
    FinishRejected(cfg, constEmb, time, m, ChunkLoop(cfg, constEmb, time, hidI, shrink, mode, 0, d, Chunks(cur, [], [])).state);
  }

  /** The training path in shrink mode, with time data of I + aft columns (the input window
    * and the horizon) carrying time_emb_num covariates each: every chunk call can succeed, but
    * a horizon that is not a multiple of pre makes the remainder raise a shape error. */
  lemma ShrinkRemainderFails(cfg: Config, cur: Latent, constEmb: Latent, time: seq<Column>, aft: int,
                             hidI: int, mode: string)
    requires 0 < cfg.preSeqLength < aft && aft % cfg.preSeqLength != 0
    requires 0 <= cfg.inputTimeLength && |time| == cfg.inputTimeLength + aft
    requires cfg.timeFeatures == cfg.timeEmbNum > 0
    requires cfg.hidS > 0 && ValidSubModel(cfg, hidI) && WindowKept(cfg, constEmb, cur, true)
    ensures var o := PredictSpec(cfg, cur, constEmb, time, aft, hidI, true, mode);
      o.result == Err(ShapeError) && |o.calls| == aft / cfg.preSeqLength + 1
  {
    var pre := cfg.preSeqLength;
    var d, m := aft / pre, aft % pre;
    ChunkDivision(aft, pre);
    assert (d - 1) * pre + pre == d * pre;
    ChunkTimesFitLong(cfg, cur, time, true, d);
    RemainderTooWide(cfg, cur, time, m);
    PredictRemainderRejected(cfg, cur, constEmb, time, aft, hidI, true, mode);
  }

  /** With enough time data, every full chunk reads exactly I time columns, but the remainder
    * reads the I + pre columns of `[-(m+I+pre):-m]`. */
  lemma TimeWindowWidths(cfg: Config, cur: Latent, time: seq<Column>, k: int, m: int, shrink: bool)
    requires 0 <= cfg.inputTimeLength && 0 <= cfg.preSeqLength && 0 <= k && 0 < m
    ensures shrink && k * cfg.preSeqLength + cfg.inputTimeLength <= |time| ==>
      |ChunkTime(cfg, time, k, shrink)| == cfg.inputTimeLength
    ensures !shrink && (k + 1) * cfg.inputTimeLength <= |time| ==>
      |ChunkTime(cfg, time, k, shrink)| == cfg.inputTimeLength
    ensures m + cfg.inputTimeLength + cfg.preSeqLength <= |time| ==>
      |RemainderCall(cfg, cur, time, m).time| == cfg.inputTimeLength + cfg.preSeqLength
  {
    var pre, len := cfg.preSeqLength, cfg.inputTimeLength;
    assert 0 <= k * pre && 0 <= k * len;
    assert (k + 1) * len == k * len + len;
  }
}
