/** Pred_Model._predict_pangu2: the inference-path recurrence. A buffer of latent steps (hid_S
  * channels each) grows by one step per iteration; step pred_i feeds two earlier steps, and the
  * time columns at their positions, to the sub-model of one interval, following a fixed
  * hierarchical schedule over the intervals 4, 2 and 1. */
module Pangu {
  import opened PyOps
  import opened Tensors
  import opened Recur

  /** One `[start:stop]` slice of the buffer along dim 1. */
  datatype Slice = Slice(start: Option<int>, stop: Option<int>)

  /** What one step selects: the buffer slices concatenated into the sub-model input, the time
    * columns passed with them, and the interval whose sub-model runs. */
  datatype Branch = Branch(slices: seq<Slice>, cols: seq<int>, interval: int)

  /** The branch of step predI, where pos is `pred_i % max_inte`. */
  function Schedule(cfg: Config, predI: int, pos: int): Branch
  {
    var h, len := cfg.hidS as int, cfg.inputTimeLength;
    if predI == 1 || predI == 2 then
      var recent := if predI == 2 then Slice(Some(-pos * h), Some(-(pos - 1) * h))
                    else Slice(Some(-pos * h), None);
      Branch([Slice(Some(-pos * 2 * h), Some(-(pos * 2 - 1) * h)), recent], [len - pos - 1, len - 1], pos)
    else if predI == 3 then
      Branch([Slice(Some(-2 * h), None)], [len, len + 1], 1)
    else
      Branch([Slice(Some(-8 * h), Some(-7 * h)), Slice(Some(-4 * h), Some(-3 * h))],
             [len + predI - 8 - 1, len + predI - 4 - 1], 4)
  }

  /** `torch.cat` of the selected slices of the buffer. */
  function Gather(buf: Latent, slices: seq<Slice>): Latent
    decreases |slices|
  {
    if slices == [] then []
    else PySlice(buf, slices[0].start, slices[0].stop) + Gather(buf, slices[1..])
  }

  /** Gathering two slices is concatenating them. */
  lemma GatherTwo(buf: Latent, a: Slice, b: Slice)
    ensures Gather(buf, [a, b]) == PySlice(buf, a.start, a.stop) + PySlice(buf, b.start, b.stop)
  {
    assert [a, b][1..] == [b];
    assert Gather(buf, [b]) == PySlice(buf, b.start, b.stop) + Gather(buf, []);
  }

  /** The forward_recur call of step predI on the current buffer. `pred_i % max_inte` fails first,
    * then the time-column gather, then the interval lookup in time_inte_dict. */
  function StepCall(cfg: Config, buf: Latent, timeData: seq<Column>, maxInte: int, predI: int): Result<Call>
  {
    if maxInte == 0 then Err(ZeroDivisionError)
    else
      var br := Schedule(cfg, predI, FloorMod(predI, maxInte));
      var time :- PyGather(timeData, br.cols);
      var j :- LastIndexOf(cfg.timeInte, br.interval);
      Ok(Call(Gather(buf, br.slices), time, j))
  }

  /** Where the step loop stopped: the buffer, the calls made, and the exception, if any. */
  datatype Run = Run(buf: Latent, calls: seq<Call>, failed: Option<Error>)

  /** Iterations predI, predI+1, ..., aft of `for pred_i in range(1, aft_seq_length + 1)`. */
  function StepLoop(cfg: Config, constEmb: Latent, timeData: seq<Column>, maxInte: int, predI: int,
                    aft: int, buf: Latent, calls: seq<Call>): Run
    decreases aft - predI + 1
  {
    if predI > aft then Run(buf, calls, None)
    else
      match StepCall(cfg, buf, timeData, maxInte, predI)
      case Err(e) => Run(buf, calls, Some(e))
      case Ok(call) =>
        match ForwardRecur(cfg, constEmb, call)
        case Err(e) => Run(buf, calls + [call], Some(e))
        case Ok(y) => StepLoop(cfg, constEmb, timeData, maxInte, predI + 1, aft, buf + y, calls + [call])
  }

  /** What _predict_pangu2 computes, and the forward_recur calls it makes. */
  function Pangu2Spec(cfg: Config, cur: Latent, constEmb: Latent, timeData: seq<Column>, aft: int): Outcome
  {
    match PyMax(cfg.timeInte)
    case Err(e) => Outcome(Err(e), [])
    case Ok(maxInte) =>
      var run := StepLoop(cfg, constEmb, timeData, maxInte, 1, aft, cur, []);
      if run.failed.Some? then Outcome(Err(run.failed.value), run.calls)
      else Outcome(Ok(PySlice(run.buf, Some(cfg.inLenVal * cfg.hidS), None)), run.calls)
  }

  /** One iteration of the step loop, unfolded. */
  lemma StepLoopStep(cfg: Config, constEmb: Latent, timeData: seq<Column>, maxInte: int, predI: int,
                     aft: int, buf: Latent, calls: seq<Call>)
    requires predI <= aft
    ensures var c := StepCall(cfg, buf, timeData, maxInte, predI);
      StepLoop(cfg, constEmb, timeData, maxInte, predI, aft, buf, calls)
      == if c.Err? then Run(buf, calls, Some(c.error))
         else if ForwardRecur(cfg, constEmb, c.value).Err?
         then Run(buf, calls + [c.value], Some(ForwardRecur(cfg, constEmb, c.value).error))
         else StepLoop(cfg, constEmb, timeData, maxInte, predI + 1, aft,
                       buf + ForwardRecur(cfg, constEmb, c.value).value, calls + [c.value])
  {
  }

  /** _predict_pangu2(cur_seq, const_emb, time_data, aft_seq_length), returning the prediction (or
    * the exception it raises) and the forward_recur calls made, in order. */
  method PredictPangu2(cfg: Config, cur: Latent, constEmb: Latent, timeData: seq<Column>, aft: int)
    returns (result: Result<Latent>, calls: seq<Call>)
    ensures Outcome(result, calls) == Pangu2Spec(cfg, cur, constEmb, timeData, aft)
  {
    var predY := cur;
    calls := [];
    var mx := PyMax(cfg.timeInte);
    if mx.Err? {
      result := Err(mx.error);
      return;
    }
    var maxInte := mx.value;
    var predI := 1;
    while predI <= aft
      invariant StepLoop(cfg, constEmb, timeData, maxInte, predI, aft, predY, calls)
             == StepLoop(cfg, constEmb, timeData, maxInte, 1, aft, cur, [])
      decreases aft - predI + 1
    {
      StepLoopStep(cfg, constEmb, timeData, maxInte, predI, aft, predY, calls);
      var call := StepCall(cfg, predY, timeData, maxInte, predI);
      if call.Err? {
        result := Err(call.error);
        return;
      }
      calls := calls + [call.value];
      var y := ForwardRecur(cfg, constEmb, call.value);
      if y.Err? {
        result := Err(y.error);
        return;
      }
      predY := predY + y.value;
      predI := predI + 1;
    }
    result := Ok(PySlice(predY, Some(cfg.inLenVal * cfg.hidS), None));
  }

  /** The interval of step predI in the hierarchical schedule over [4, 2, 1]: the first and third
    * steps use interval 1, the second interval 2, and every later step interval 4. */
  function Interval(predI: int): int
  {
    if predI == 1 || predI == 3 then 1 else if predI == 2 then 2 else 4
  }

  /** With max(time_inte) >= 3, `pred_i % max_inte` is pred_i itself on the first two steps, so
    * steps 1, 2, 3 and every later step use the intervals 1, 2, 1 and 4. */
  lemma ScheduleIntervals(cfg: Config, maxInte: int, predI: int)
    requires maxInte >= 3 && predI >= 1
    ensures Schedule(cfg, predI, FloorMod(predI, maxInte)).interval == Interval(predI)
  {
    if predI <= 2 {
      FloorModSmall(predI, maxInte);
    }
  }

  /** With max(time_inte) == 2 the second step has `pred_pos == 0`: both of its slices are
    * `[-0:h]`, the OLDEST step of the buffer twice, with time column I-1 twice and interval 0. */
  lemma ScheduleMaxTwo(cfg: Config, buf: Latent)
    requires cfg.hidS > 0 && |buf| >= cfg.hidS
    ensures var br := Schedule(cfg, 2, FloorMod(2, 2));
      && br.interval == 0
      && br.cols == [cfg.inputTimeLength - 1, cfg.inputTimeLength - 1]
      && Gather(buf, br.slices) == buf[..cfg.hidS] + buf[..cfg.hidS]
  {
    var h := cfg.hidS as int;
    assert FloorMod(2, 2) == 0;
    var first := Slice(Some(0), Some(h));
    assert Schedule(cfg, 2, 0).slices == [first, first];
    GatherTwo(buf, first, first);
  }

  /** The offsets of the a-th of n steps of h channels, counted from the end. */
  lemma StepOffsets(n: int, a: int, h: nat)
    requires 1 <= a <= n
    ensures -a * h == -(a * h) && -(a - 1) * h == -((a - 1) * h)
    ensures (a - 1) * h == a * h - h && (n - a) * h == n * h - a * h
    ensures (n - a + 1) * h == (n - a) * h + h
    ensures 0 <= (a - 1) * h && a * h <= n * h
  {
    MulMono(a, n, h);
    MulMono(0, a - 1, h);
  }

  /** The a-th step from the end of a buffer of n steps, as the slices the schedule writes. */
  lemma StepFromEnd(buf: Latent, h: nat, n: int, a: int)
    requires h > 0 && 1 <= a <= n && |buf| == n * h
    ensures 0 <= (n - a) * h && (n - a + 1) * h <= |buf|
    ensures a >= 2 ==> PySlice(buf, Some(-a * h), Some(-(a - 1) * h)) == StepAt(buf, h, n - a)
    ensures a == 1 ==> PySlice(buf, Some(-(h as int)), None) == StepAt(buf, h, n - 1)
  {
    StepOffsets(n, a, h);
    if a >= 2 {
      SliceFromEnd(buf, a * h, (a - 1) * h);
    } else {
      SliceTail(buf, h);
    }
  }

  /** `buf[-2*h:]` is the last two steps. */
  lemma LastTwoSteps(buf: Latent, h: nat, n: int)
    requires h > 0 && 2 <= n && |buf| == n * h
    ensures PySlice(buf, Some(-2 * h), None) == StepAt(buf, h, n - 2) + StepAt(buf, h, n - 1)
  {
    assert (n - 2) * h == n * h - 2 * h;
    assert (n - 1) * h == n * h - h;
    SliceTail(buf, 2 * h);
  }

  /** The alignment of one step: on a buffer of p steps, step predI reads the steps p - 2*iv and
    * p - iv, where iv is its interval, and passes exactly those two positions as time columns. */
  predicate ReadsAligned(cfg: Config, buf: Latent, br: Branch, predI: int)
  {
    var iv, p := Interval(predI), cfg.inputTimeLength + predI - 1;
    && br.interval == iv && br.cols == [p - 2 * iv, p - iv] && 0 <= p - 2 * iv
    && |buf| == p * cfg.hidS
    && Gather(buf, br.slices) == StepAt(buf, cfg.hidS, p - 2 * iv) + StepAt(buf, cfg.hidS, p - iv)
  }

  /** Steps 1 and 2: `pred_pos` is 1 or 2, so the slices are steps I-2, I-1 and then I-3, I-1. */
  lemma FirstStepsAligned(cfg: Config, buf: Latent, maxInte: int, predI: int)
    requires cfg.hidS > 0 && cfg.inputTimeLength >= 5 && maxInte >= 3 && (predI == 1 || predI == 2)
    requires |buf| == (cfg.inputTimeLength + predI - 1) * cfg.hidS
    ensures ReadsAligned(cfg, buf, Schedule(cfg, predI, FloorMod(predI, maxInte)), predI)
  {
    var h, n, len := cfg.hidS, cfg.inputTimeLength + predI - 1, cfg.inputTimeLength;
    FloorModSmall(predI, maxInte);
    if predI == 1 {
      var older := Slice(Some(-2 * (h as int)), Some(-1 * (h as int)));
      var recent := Slice(Some(-1 * (h as int)), None);
      assert Schedule(cfg, 1, 1) == Branch([older, recent], [len - 2, len - 1], 1);
      GatherTwo(buf, older, recent);
      StepFromEnd(buf, h, n, 2);
      StepFromEnd(buf, h, n, 1);
    } else {
      var older := Slice(Some(-4 * (h as int)), Some(-3 * (h as int)));
      var recent := Slice(Some(-2 * (h as int)), Some(-1 * (h as int)));
      assert Schedule(cfg, 2, 2) == Branch([older, recent], [len - 3, len - 1], 2);
      GatherTwo(buf, older, recent);
      StepFromEnd(buf, h, n, 4);
      StepFromEnd(buf, h, n, 2);
    }
  }

  /** Step 3: the last two steps, I and I+1. */
  lemma ThirdStepAligned(cfg: Config, buf: Latent, maxInte: int)
    requires cfg.hidS > 0 && cfg.inputTimeLength >= 5 && maxInte >= 3
    requires |buf| == (cfg.inputTimeLength + 2) * cfg.hidS
    ensures ReadsAligned(cfg, buf, Schedule(cfg, 3, FloorMod(3, maxInte)), 3)
  {
    var h, n := cfg.hidS, cfg.inputTimeLength + 2;
    var br := Schedule(cfg, 3, FloorMod(3, maxInte));
    LastTwoSteps(buf, h, n);
    assert Gather(buf, br.slices) == PySlice(buf, Some(-2 * (h as int)), None) + Gather(buf, []);
  }

  /** Steps from 4 on: the steps eight and four back. */
  lemma LaterStepAligned(cfg: Config, buf: Latent, maxInte: int, predI: int)
    requires cfg.hidS > 0 && cfg.inputTimeLength >= 5 && maxInte >= 3 && predI >= 4
    requires |buf| == (cfg.inputTimeLength + predI - 1) * cfg.hidS
    ensures ReadsAligned(cfg, buf, Schedule(cfg, predI, FloorMod(predI, maxInte)), predI)
  {
    var h, n := cfg.hidS, cfg.inputTimeLength + predI - 1;
    var older := Slice(Some(-8 * (h as int)), Some(-7 * (h as int)));
    var recent := Slice(Some(-4 * (h as int)), Some(-3 * (h as int)));
    assert Schedule(cfg, predI, FloorMod(predI, maxInte)) == Branch([older, recent], [n - 8, n - 4], 4);
    GatherTwo(buf, older, recent);
    StepFromEnd(buf, h, n, 8);
    StepFromEnd(buf, h, n, 4);
    assert Interval(predI) == 4;
  }

  /** Under the alignment preconditions (I >= 5, max(time_inte) >= 3, a buffer of I + predI - 1
    * steps), every step reads two buffer steps spaced by its interval, the second one interval
    * before the step it appends, with their positions as its time columns. */
  lemma StepAligned(cfg: Config, buf: Latent, maxInte: int, predI: int)
    requires cfg.hidS > 0 && cfg.inputTimeLength >= 5 && maxInte >= 3 && predI >= 1
    requires |buf| == (cfg.inputTimeLength + predI - 1) * cfg.hidS
    ensures ReadsAligned(cfg, buf, Schedule(cfg, predI, FloorMod(predI, maxInte)), predI)
  {
    if predI <= 2 {
      FirstStepsAligned(cfg, buf, maxInte, predI);
    } else if predI == 3 {
      ThirdStepAligned(cfg, buf, maxInte);
    } else {
      LaterStepAligned(cfg, buf, maxInte, predI);
    }
  }

  lemma MulMono(a: int, b: int, h: nat)
    requires a <= b
    ensures a * h <= b * h
    ensures 0 <= a ==> 0 <= a * h
  {
  }

  lemma SameSteps(a: int, b: int, h: nat)
    requires a == b
    ensures a * h == b * h
  {
  }

  /** `buf[:, k*h:]` on a buffer of n steps of h channels drops its first k steps, leaving
    * (n - k) * h channels. */
  lemma DropSteps(buf: Latent, n: int, k: int, h: nat)
    requires 0 <= k <= n && |buf| == n * h
    ensures 0 <= k * h <= |buf| && PySlice(buf, Some(k * h), None) == buf[k * h..]
    ensures |buf[k * h..]| == (n - k) * h
  {
    MulMono(k, n, h);
    SliceDrop(buf, k * h);
  }

  /** Step q of h channels ends where step q + 1 begins. */
  lemma StepEnd(q: nat, h: nat)
    ensures 0 <= q * h && q * h + h == (q + 1) * h
  {
  }

  /** Step k of a buffer (hid_S channels each) is unchanged by appending to the buffer. */
  lemma StepAtPrefix(buf: Latent, big: Latent, h: nat, q: nat)
    requires (q + 1) * h <= |buf| <= |big| && big[..|buf|] == buf
    ensures StepAt(big, h, q) == StepAt(buf, h, q)
  {
    StepEnd(q, h);
    var lo, hi := q * h, q * h + h;
    assert big[lo..hi] == big[..|buf|][lo..hi];
  }

  /** Appending one step y to a buffer of p steps makes y its step p. */
  lemma StepAtAppend(buf: Latent, y: Latent, h: nat, p: nat)
    requires |buf| == p * h && |y| == h
    ensures (p + 1) * h <= |buf + y| && StepAt(buf + y, h, p) == y
  {
    assert (p + 1) * h == p * h + h;
  }

  /** The call of step predI reads the aligned buffer steps: with iv its interval and p = I + predI - 1
    * the number of steps before it, steps p - 2*iv and p - iv, the time columns at those same
    * positions, and the last sub-model of interval iv in time_inte. */
  predicate CallReads(cfg: Config, timeData: seq<Column>, buf: Latent, call: Call, predI: int)
  {
    var h, iv, p := cfg.hidS, Interval(predI), cfg.inputTimeLength + predI - 1;
    && 0 <= p - 2 * iv && p - iv < |timeData|
    && (p - 2 * iv + 1) * h <= |buf| && (p - iv + 1) * h <= |buf|
    && call.x == StepAt(buf, h, p - 2 * iv) + StepAt(buf, h, p - iv)
    && call.time == [timeData[p - 2 * iv], timeData[p - iv]]
    && LastIndexOf(cfg.timeInte, iv) == Ok(call.hidI)
  }

  /** What the call of step predI of an aligned run made of the buffer: the buffer holds at least
    * p + 1 steps, p = I + predI - 1; on those first p + 1 steps the call reads as CallReads says,
    * and its output is step p. */
  predicate AlignedCall(cfg: Config, constEmb: Latent, timeData: seq<Column>, buf: Latent, call: Call,
                        predI: int)
  {
    var h, p := cfg.hidS, cfg.inputTimeLength + predI - 1;
    && 0 <= (p + 1) * h <= |buf|
    && CallReads(cfg, timeData, buf[..(p + 1) * h], call, predI)
    && ForwardRecur(cfg, constEmb, call) == Ok(StepAt(buf[..(p + 1) * h], h, p))
  }

  /** An aligned call stays aligned when the buffer grows: its steps are a prefix of both. */
  lemma AlignedCallPrefix(cfg: Config, constEmb: Latent, timeData: seq<Column>, buf: Latent, big: Latent,
                          call: Call, predI: int)
    requires AlignedCall(cfg, constEmb, timeData, buf, call, predI)
    requires |buf| <= |big| && big[..|buf|] == buf
    ensures AlignedCall(cfg, constEmb, timeData, big, call, predI)
  {
    var n := (cfg.inputTimeLength + predI - 1 + 1) * cfg.hidS;
    assert big[..n] == big[..|buf|][..n];
  }

  /** A call of step predI that reads the aligned steps of a buffer of I + predI - 1 steps, and
    * whose output y is one step, is aligned on the buffer with y appended. */
  lemma AppendAligned(cfg: Config, constEmb: Latent, timeData: seq<Column>, buf: Latent, y: Latent,
                      call: Call, predI: int)
    requires cfg.hidS > 0 && predI >= 1
    requires CallReads(cfg, timeData, buf, call, predI)
    requires |buf| == (cfg.inputTimeLength + predI - 1) * cfg.hidS && |y| == cfg.hidS
    requires ForwardRecur(cfg, constEmb, call) == Ok(y)
    ensures AlignedCall(cfg, constEmb, timeData, buf + y, call, predI)
  {
    CallReadsAppend(cfg, timeData, buf, y, call, predI);
  }

  /** A call that reads the aligned steps of a buffer of I + predI - 1 steps still reads them with
    * one step y appended, and y is then step I + predI - 1. */
  lemma CallReadsAppend(cfg: Config, timeData: seq<Column>, buf: Latent, y: Latent, call: Call, predI: int)
    requires cfg.hidS > 0 && predI >= 1
    requires CallReads(cfg, timeData, buf, call, predI)
    requires |buf| == (cfg.inputTimeLength + predI - 1) * cfg.hidS && |y| == cfg.hidS
    ensures var h, p := cfg.hidS, cfg.inputTimeLength + predI - 1;
      && 0 <= (p + 1) * h == |buf + y| && (buf + y)[..(p + 1) * h] == buf + y
      && StepAt(buf + y, h, p) == y && CallReads(cfg, timeData, buf + y, call, predI)
  {
    var h, iv, p := cfg.hidS, Interval(predI), cfg.inputTimeLength + predI - 1;
    AppendSteps(buf, y, h, p, p - 2 * iv, p - iv);
  }

  /** Appending one step y to a buffer of p steps keeps its earlier steps a and b and makes y
    * step p. */
  lemma AppendSteps(buf: Latent, y: Latent, h: nat, p: nat, a: nat, b: nat)
    requires |buf| == p * h && |y| == h && (a + 1) * h <= |buf| && (b + 1) * h <= |buf|
    ensures (p + 1) * h == |buf + y| && (buf + y)[..(p + 1) * h] == buf + y
    ensures StepAt(buf + y, h, p) == y
    ensures StepAt(buf + y, h, a) == StepAt(buf, h, a) && StepAt(buf + y, h, b) == StepAt(buf, h, b)
  {
    StepAtAppend(buf, y, h, p);
    assert (buf + y)[..|buf|] == buf;
    StepAtPrefix(buf, buf + y, h, a);
    StepAtPrefix(buf, buf + y, h, b);
  }

  /** Steps p - 2*iv and p - iv lie inside a buffer of p steps. */
  lemma StepBounds(h: nat, p: int, iv: int, n: int)
    requires 1 <= iv && n == p * h
    ensures (p - 2 * iv + 1) * h <= n && (p - iv + 1) * h <= n
  {
    MulMono(p - 2 * iv + 1, p, h);
    MulMono(p - iv + 1, p, h);
  }

  /** Every step passes two buffer steps and two time columns: the two columns fit the time
    * embedding, and the steps, with const_emb and the time embedding beside them, have the
    * sub-models' input width. */
  predicate PairAccepted(cfg: Config, constEmb: Latent)
  {
    TimeFits(cfg, 2) && 2 * cfg.hidS + |constEmb| + cfg.hidS / 2 == SubModelWidth(cfg)
  }

  /** With the constant embedding Pred_Model builds (hid_S//2 channels) and an even hid_S, two
    * steps have the sub-models' width exactly when the sub-models were built for T == 2; the
    * two time columns fit exactly when 2*time_features == input_time_length*time_emb_num, which
    * with time_emb_num covariates per column means input_time_length == 2. */
  lemma PairAcceptedFrames(cfg: Config, constEmb: Latent)
    requires cfg.hidS > 0 && cfg.hidS % 2 == 0 && |constEmb| == cfg.hidS / 2
    ensures PairAccepted(cfg, constEmb) <==> cfg.frames == 2 && TimeFits(cfg, 2)
    ensures cfg.timeFeatures == cfg.timeEmbNum > 0 ==>
      (PairAccepted(cfg, constEmb) <==> cfg.frames == 2 && cfg.inputTimeLength == 2)
  {
    if cfg.timeFeatures == cfg.timeEmbNum > 0 {
      TimeFitsColumns(cfg, 2);
    }
    var h := cfg.hidS;
    assert 2 * h + |constEmb| + h / 2 == 3 * h;
    if cfg.frames < 2 {
      MulMono(cfg.frames + 1, 2, h);
    } else if cfg.frames > 2 {
      MulMono(4, cfg.frames + 1, h);
    }
  }

  /** Under the alignment preconditions, with the step's interval present in time_inte and its
    * time columns present in time_data, step predI's call reads the aligned buffer steps. */
  lemma StepCallAligned(cfg: Config, timeData: seq<Column>, maxInte: int, predI: int, buf: Latent)
    requires cfg.hidS > 0 && cfg.inputTimeLength >= 5 && maxInte >= 3 && predI >= 1
    requires Interval(predI) in cfg.timeInte
    requires |buf| == (cfg.inputTimeLength + predI - 1) * cfg.hidS
    requires cfg.inputTimeLength + predI - 1 <= |timeData|
    ensures var c := StepCall(cfg, buf, timeData, maxInte, predI);
      c.Ok? && CallReads(cfg, timeData, buf, c.value, predI)
  {
    var h, iv, p := cfg.hidS, Interval(predI), cfg.inputTimeLength + predI - 1;
    StepAligned(cfg, buf, maxInte, predI);
    StepBounds(h, p, iv, |buf|);
    GatherPair(timeData, p - 2 * iv, p - iv);
  }

  /** ... and, when the pair has the sub-models' width, the call succeeds and appends an aligned
    * step. */
  lemma StepRuns(cfg: Config, constEmb: Latent, timeData: seq<Column>, maxInte: int, predI: int, buf: Latent)
    requires cfg.hidS > 0 && cfg.inputTimeLength >= 5 && maxInte >= 3 && predI >= 1
    requires PairAccepted(cfg, constEmb)
    requires Interval(predI) in cfg.timeInte
    requires |buf| == (cfg.inputTimeLength + predI - 1) * cfg.hidS
    requires cfg.inputTimeLength + predI - 1 <= |timeData|
    ensures var c := StepCall(cfg, buf, timeData, maxInte, predI);
      && c.Ok? && ForwardRecur(cfg, constEmb, c.value).Ok?
      && |ForwardRecur(cfg, constEmb, c.value).value| == cfg.hidS
      && AlignedCall(cfg, constEmb, timeData, buf + ForwardRecur(cfg, constEmb, c.value).value, c.value, predI)
  {
    StepCallAligned(cfg, timeData, maxInte, predI, buf);
    var call := StepCall(cfg, buf, timeData, maxInte, predI).value;
    assert |call.x| == 2 * cfg.hidS && |call.time| == 2;
    ForwardRecurShape(cfg, constEmb, call);
    AppendAligned(cfg, constEmb, timeData, buf, ForwardRecur(cfg, constEmb, call).value, call, predI);
  }

  /** What iterations predI..aft of an aligned step loop, started from buf and calls, made of the
    * run r where it ended: one call per step and one appended step per call, buf and calls as
    * prefixes, and every call from step predI on aligned. */
  ghost predicate StepsRan(cfg: Config, constEmb: Latent, timeData: seq<Column>, predI: int, aft: int,
                           buf: Latent, calls: seq<Call>, r: Run)
  {
    && r.failed == None && |r.calls| == aft && |r.buf| == (cfg.inputTimeLength + aft) * cfg.hidS
    && |buf| <= |r.buf| && r.buf[..|buf|] == buf && |calls| <= aft && r.calls[..|calls|] == calls
    && forall k :: predI - 1 <= k < aft ==> 0 <= k && AlignedCall(cfg, constEmb, timeData, r.buf, r.calls[k], k + 1)
  }

  /** A run that went on from the buffer buf + y and the calls calls + [call], with the call of
    * step predI aligned, also went on from buf and calls. */
  lemma StepsRanStep(cfg: Config, constEmb: Latent, timeData: seq<Column>, predI: int, aft: int,
                     buf: Latent, y: Latent, calls: seq<Call>, call: Call, r: Run)
    requires 1 <= predI <= aft && |calls| == predI - 1
    requires AlignedCall(cfg, constEmb, timeData, buf + y, call, predI)
    requires StepsRan(cfg, constEmb, timeData, predI + 1, aft, buf + y, calls + [call], r)
    ensures StepsRan(cfg, constEmb, timeData, predI, aft, buf, calls, r)
  {
    assert r.buf[..|buf + y|][..|buf|] == r.buf[..|buf|];
    assert r.calls[..|calls| + 1][..|calls|] == r.calls[..|calls|];
    assert r.calls[predI - 1] == r.calls[..|calls| + 1][predI - 1] == call;
    AlignedCallPrefix(cfg, constEmb, timeData, buf + y, r.buf, call, predI);
  }

  /** Under the alignment preconditions one iteration succeeds: the loop goes on from the buffer
    * one step longer and one more call. */
  lemma StepAdvances(cfg: Config, constEmb: Latent, timeData: seq<Column>, maxInte: int, predI: int,
                     aft: int, buf: Latent, calls: seq<Call>)
    returns (next: Latent, made: seq<Call>)
    requires cfg.hidS > 0 && cfg.inputTimeLength >= 5 && maxInte >= 3 && 1 <= predI <= aft
    requires PairAccepted(cfg, constEmb) && Interval(predI) in cfg.timeInte
    requires |buf| == (cfg.inputTimeLength + predI - 1) * cfg.hidS && |calls| == predI - 1
    requires cfg.inputTimeLength + predI - 1 <= |timeData|
    ensures |next| == (cfg.inputTimeLength + (predI + 1) - 1) * cfg.hidS && |made| == predI
    ensures StepLoop(cfg, constEmb, timeData, maxInte, predI, aft, buf, calls)
         == StepLoop(cfg, constEmb, timeData, maxInte, predI + 1, aft, next, made)
  {
    StepRuns(cfg, constEmb, timeData, maxInte, predI, buf);
    var call := StepCall(cfg, buf, timeData, maxInte, predI).value;
    next, made := buf + ForwardRecur(cfg, constEmb, call).value, calls + [call];
    StepLoopStep(cfg, constEmb, timeData, maxInte, predI, aft, buf, calls);
    assert (cfg.inputTimeLength + (predI + 1) - 1) * cfg.hidS == |buf| + cfg.hidS;
  }

  /** Under the alignment preconditions, iterations predI..aft all succeed, as StepsRan describes. */
  lemma {:induction false} StepLoopRuns(cfg: Config, constEmb: Latent, timeData: seq<Column>, maxInte: int,
                                        predI: int, aft: int, buf: Latent, calls: seq<Call>)
    requires cfg.hidS > 0 && cfg.inputTimeLength >= 5 && maxInte >= 3 && PairAccepted(cfg, constEmb)
    requires 1 <= predI <= aft + 1
    requires forall q :: predI <= q <= aft ==> Interval(q) in cfg.timeInte
    requires |buf| == (cfg.inputTimeLength + predI - 1) * cfg.hidS && |calls| == predI - 1
    requires cfg.inputTimeLength + aft - 1 <= |timeData|
    ensures StepsRan(cfg, constEmb, timeData, predI, aft, buf, calls,
                     StepLoop(cfg, constEmb, timeData, maxInte, predI, aft, buf, calls))
    decreases aft - predI + 1
  {
    if predI <= aft {
      StepRuns(cfg, constEmb, timeData, maxInte, predI, buf);
      var c := StepCall(cfg, buf, timeData, maxInte, predI);
      var call := c.value;
      var y := ForwardRecur(cfg, constEmb, call).value;
      StepLoopStep(cfg, constEmb, timeData, maxInte, predI, aft, buf, calls);
      SameSteps(cfg.inputTimeLength + (predI + 1) - 1, cfg.inputTimeLength + predI, cfg.hidS);
      assert (cfg.inputTimeLength + predI) * cfg.hidS == |buf| + cfg.hidS;
      assert |buf + y| == (cfg.inputTimeLength + (predI + 1) - 1) * cfg.hidS;
      var r := StepLoop(cfg, constEmb, timeData, maxInte, predI + 1, aft, buf + y, calls + [call]);
      assert StepLoop(cfg, constEmb, timeData, maxInte, predI, aft, buf, calls) == r;
      StepLoopRuns(cfg, constEmb, timeData, maxInte, predI + 1, aft, buf + y, calls + [call]);
      StepsRanStep(cfg, constEmb, timeData, predI, aft, buf, y, calls, call, r);
    } else {
      SameSteps(cfg.inputTimeLength + predI - 1, cfg.inputTimeLength + aft, cfg.hidS);
      assert buf[..|buf|] == buf && calls[..|calls|] == calls;
    }
  }

  /** When max(time_inte) exists and the step loop succeeds, _predict_pangu2 returns the final
    * buffer from channel in_len_val*hid_S on. */
  lemma Pangu2Unfold(cfg: Config, cur: Latent, constEmb: Latent, timeData: seq<Column>, aft: int)
    requires PyMax(cfg.timeInte).Ok?
    requires StepLoop(cfg, constEmb, timeData, PyMax(cfg.timeInte).value, 1, aft, cur, []).failed == None
    ensures var run := StepLoop(cfg, constEmb, timeData, PyMax(cfg.timeInte).value, 1, aft, cur, []);
      Pangu2Spec(cfg, cur, constEmb, timeData, aft)
      == Outcome(Ok(PySlice(run.buf, Some(cfg.inLenVal * cfg.hidS), None)), run.calls)
  {
  }

  /** Under the alignment preconditions (an initial buffer of I >= 5 steps, {1, 2, 4} within
    * time_inte, max(time_inte) >= 3, the time columns up to I + aft - 2, and sub-models that
    * accept two steps with const_emb and the time embedding), the step loop of
    * _predict_pangu2 makes exactly aft calls, grows the buffer to I + aft steps with the input as
    * its prefix, and every call is aligned. */
  lemma Pangu2Aligned(cfg: Config, cur: Latent, constEmb: Latent, timeData: seq<Column>, aft: int,
                      maxInte: int)
    requires cfg.hidS > 0 && cfg.inputTimeLength >= 5 && PairAccepted(cfg, constEmb)
    requires 1 in cfg.timeInte && 2 in cfg.timeInte && 4 in cfg.timeInte
    requires PyMax(cfg.timeInte) == Ok(maxInte) && maxInte >= 3
    requires aft >= 0 && |cur| == cfg.inputTimeLength * cfg.hidS
    requires cfg.inputTimeLength + aft - 1 <= |timeData|
    ensures var run := StepLoop(cfg, constEmb, timeData, maxInte, 1, aft, cur, []);
      && run.failed == None && |run.calls| == aft
      && |run.buf| == (cfg.inputTimeLength + aft) * cfg.hidS && |cur| <= |run.buf| && run.buf[..|cur|] == cur
      && forall k :: 0 <= k < aft ==> AlignedCall(cfg, constEmb, timeData, run.buf, run.calls[k], k + 1)
  {
    StepLoopRuns(cfg, constEmb, timeData, maxInte, 1, aft, cur, []);
  }

  /** Under the same preconditions _predict_pangu2 succeeds with the calls of that loop, and the
    * prediction is the grown buffer without its first in_len_val steps: with in_len_val == I,
    * exactly the aft appended steps. */
  lemma Pangu2Result(cfg: Config, cur: Latent, constEmb: Latent, timeData: seq<Column>, aft: int,
                     maxInte: int)
    requires cfg.hidS > 0 && cfg.inputTimeLength >= 5 && PairAccepted(cfg, constEmb)
    requires 1 in cfg.timeInte && 2 in cfg.timeInte && 4 in cfg.timeInte
    requires PyMax(cfg.timeInte) == Ok(maxInte) && maxInte >= 3
    requires aft >= 0 && |cur| == cfg.inputTimeLength * cfg.hidS
    requires cfg.inputTimeLength + aft - 1 <= |timeData|
    requires 0 <= cfg.inLenVal <= cfg.inputTimeLength + aft
    ensures var o := Pangu2Spec(cfg, cur, constEmb, timeData, aft);
      var run := StepLoop(cfg, constEmb, timeData, maxInte, 1, aft, cur, []);
      && o.result.Ok? && o.calls == run.calls && |o.calls| == aft
      && 0 <= cfg.inLenVal * cfg.hidS <= |run.buf|
      && o.result.value == run.buf[cfg.inLenVal * cfg.hidS..]
      && |o.result.value| == (cfg.inputTimeLength + aft - cfg.inLenVal) * cfg.hidS
  {
    Pangu2Aligned(cfg, cur, constEmb, timeData, aft, maxInte);
    Pangu2Unfold(cfg, cur, constEmb, timeData, aft);
    FinalSteps(cfg, aft, StepLoop(cfg, constEmb, timeData, maxInte, 1, aft, cur, []),
               Pangu2Spec(cfg, cur, constEmb, timeData, aft));
  }

  /** What `pred_y[:, in_len_val*hid_S:]` returns of a finished loop of aft steps. */
  lemma FinalSteps(cfg: Config, aft: int, run: Run, o: Outcome)
    requires 0 <= cfg.inLenVal <= cfg.inputTimeLength + aft
    requires |run.buf| == (cfg.inputTimeLength + aft) * cfg.hidS && |run.calls| == aft
    requires o == Outcome(Ok(PySlice(run.buf, Some(cfg.inLenVal * cfg.hidS), None)), run.calls)
    ensures && o.result.Ok? && o.calls == run.calls && |o.calls| == aft
      && 0 <= cfg.inLenVal * cfg.hidS <= |run.buf|
      && o.result.value == run.buf[cfg.inLenVal * cfg.hidS..]
      && |o.result.value| == (cfg.inputTimeLength + aft - cfg.inLenVal) * cfg.hidS
  {
    DropSteps(run.buf, cfg.inputTimeLength + aft, cfg.inLenVal, cfg.hidS);
  }

  /** For any inputs, a step loop that finishes has made one call for each of the steps
    * predI..aft and only appended to the buffer. */
  lemma {:induction false} StepLoopCount(cfg: Config, constEmb: Latent, timeData: seq<Column>, maxInte: int,
                                         predI: int, aft: int, buf: Latent, calls: seq<Call>)
    ensures var r := StepLoop(cfg, constEmb, timeData, maxInte, predI, aft, buf, calls);
      r.failed == None ==>
        && |r.calls| == |calls| + (if predI <= aft then aft - predI + 1 else 0)
        && |buf| <= |r.buf| && r.buf[..|buf|] == buf
    decreases aft - predI + 1
  {
    if predI <= aft {
      StepLoopStep(cfg, constEmb, timeData, maxInte, predI, aft, buf, calls);
      var c := StepCall(cfg, buf, timeData, maxInte, predI);
      if c.Ok? && ForwardRecur(cfg, constEmb, c.value).Ok? {
        var y := ForwardRecur(cfg, constEmb, c.value).value;
        StepLoopCount(cfg, constEmb, timeData, maxInte, predI + 1, aft, buf + y, calls + [c.value]);
        var r := StepLoop(cfg, constEmb, timeData, maxInte, predI + 1, aft, buf + y, calls + [c.value]);
        if r.failed == None {
          assert r.buf[..|buf + y|][..|buf|] == r.buf[..|buf|];
        }
      }
    }
  }

  /** For any inputs, when _predict_pangu2 returns a prediction it has called forward_recur
    * exactly once per step of the horizon. */
  lemma Pangu2Count(cfg: Config, cur: Latent, constEmb: Latent, timeData: seq<Column>, aft: int)
    ensures var o := Pangu2Spec(cfg, cur, constEmb, timeData, aft);
      o.result.Ok? ==> |o.calls| == if aft >= 1 then aft else 0
  {
    if PyMax(cfg.timeInte).Ok? {
      StepLoopCount(cfg, constEmb, timeData, PyMax(cfg.timeInte).value, 1, aft, cur, []);
    }
  }

  /** A loop that stopped on KeyError at step q, after the q - 1 calls before it. */
  predicate FailsAt(r: Run, q: int)
  {
    r.failed == Some(KeyError) && |r.calls| == q - 1
  }

  /** On an aligned buffer, a step whose interval is missing from time_inte gathers its time
    * columns and then fails on the lookup `time_inte_dict[interval]`. */
  lemma StepCallMissing(cfg: Config, timeData: seq<Column>, maxInte: int, predI: int, buf: Latent)
    requires cfg.hidS > 0 && cfg.inputTimeLength >= 5 && maxInte >= 3 && predI >= 1
    requires Interval(predI) !in cfg.timeInte
    requires |buf| == (cfg.inputTimeLength + predI - 1) * cfg.hidS
    requires cfg.inputTimeLength + predI - 1 - Interval(predI) < |timeData|
    ensures StepCall(cfg, buf, timeData, maxInte, predI) == Err(KeyError)
  {
    var iv, p := Interval(predI), cfg.inputTimeLength + predI - 1;
    StepAligned(cfg, buf, maxInte, predI);
    GatherPair(timeData, p - 2 * iv, p - iv);
  }

  /** A loop at step predI of an aligned run, whose steps predI..q-1 have their intervals in
    * time_inte and whose step q does not, raises KeyError at step q after the calls for steps
    * predI..q-1. */
  lemma {:induction false} StepLoopMissing(cfg: Config, constEmb: Latent, timeData: seq<Column>,
                                           maxInte: int, predI: int, q: int, aft: int, buf: Latent,
                                           calls: seq<Call>)
    requires cfg.hidS > 0 && cfg.inputTimeLength >= 5 && maxInte >= 3 && PairAccepted(cfg, constEmb)
    requires 1 <= predI <= q <= aft
    requires forall k :: predI <= k < q ==> Interval(k) in cfg.timeInte
    requires Interval(q) !in cfg.timeInte
    requires |buf| == (cfg.inputTimeLength + predI - 1) * cfg.hidS && |calls| == predI - 1
    requires cfg.inputTimeLength + q - 2 <= |timeData|
    requires cfg.inputTimeLength + q - 1 - Interval(q) < |timeData|
    ensures FailsAt(StepLoop(cfg, constEmb, timeData, maxInte, predI, aft, buf, calls), q)
    decreases q - predI
  {
    if predI == q {
      StepCallMissing(cfg, timeData, maxInte, q, buf);
      StepLoopStep(cfg, constEmb, timeData, maxInte, q, aft, buf, calls);
    } else {
      assert Interval(predI) in cfg.timeInte;
      var next, made := StepAdvances(cfg, constEmb, timeData, maxInte, predI, aft, buf, calls);
      StepLoopMissing(cfg, constEmb, timeData, maxInte, predI + 1, q, aft, next, made);
    }
  }

  /** When step q is the first step of the horizon whose interval is missing from time_inte,
    * _predict_pangu2 raises KeyError at that step, after exactly q - 1 forward_recur calls. */
  lemma Pangu2MissingInterval(cfg: Config, cur: Latent, constEmb: Latent, timeData: seq<Column>, aft: int,
                              maxInte: int, q: int)
    requires cfg.hidS > 0 && cfg.inputTimeLength >= 5 && PairAccepted(cfg, constEmb)
    requires PyMax(cfg.timeInte) == Ok(maxInte) && maxInte >= 3
    requires 1 <= q <= aft && |cur| == cfg.inputTimeLength * cfg.hidS
    requires forall k :: 1 <= k < q ==> Interval(k) in cfg.timeInte
    requires Interval(q) !in cfg.timeInte
    requires cfg.inputTimeLength + q - 2 <= |timeData|
    requires cfg.inputTimeLength + q - 1 - Interval(q) < |timeData|
    ensures var o := Pangu2Spec(cfg, cur, constEmb, timeData, aft);
      o.result == Err(KeyError) && |o.calls| == q - 1
  {
    StepLoopMissing(cfg, constEmb, timeData, maxInte, 1, q, aft, cur, []);
  }

  /** The three ways an interval of the schedule can be missing: without 1 the first step raises
    * KeyError before any call; with 1 but without 2 the second step raises after one call; with
    * 1 and 2 but without 4 the fourth step raises after three calls. */
  lemma Pangu2MissingCases(cfg: Config, cur: Latent, constEmb: Latent, timeData: seq<Column>, aft: int,
                           maxInte: int)
    requires cfg.hidS > 0 && cfg.inputTimeLength >= 5 && PairAccepted(cfg, constEmb)
    requires PyMax(cfg.timeInte) == Ok(maxInte) && maxInte >= 3
    requires |cur| == cfg.inputTimeLength * cfg.hidS && cfg.inputTimeLength + 2 <= |timeData|
    ensures var o := Pangu2Spec(cfg, cur, constEmb, timeData, aft);
      && (1 !in cfg.timeInte && aft >= 1 ==> o.result == Err(KeyError) && o.calls == [])
      && (1 in cfg.timeInte && 2 !in cfg.timeInte && aft >= 2 ==>
            o.result == Err(KeyError) && |o.calls| == 1)
      && (1 in cfg.timeInte && 2 in cfg.timeInte && 4 !in cfg.timeInte && aft >= 4 ==>
            o.result == Err(KeyError) && |o.calls| == 3)
  {
    if 1 !in cfg.timeInte && aft >= 1 {
      Pangu2MissingInterval(cfg, cur, constEmb, timeData, aft, maxInte, 1);
    }
    if 1 in cfg.timeInte && 2 !in cfg.timeInte && aft >= 2 {
      Pangu2MissingInterval(cfg, cur, constEmb, timeData, aft, maxInte, 2);
    }
    if 1 in cfg.timeInte && 2 in cfg.timeInte && 4 !in cfg.timeInte && aft >= 4 {
      assert forall k :: 1 <= k < 4 ==> Interval(k) in cfg.timeInte;
      Pangu2MissingInterval(cfg, cur, constEmb, timeData, aft, maxInte, 4);
    }
  }

  /** When two time columns do not fit the time embedding, or two steps with const_emb and the
    * time embedding do not have the sub-models' input width, the first call (whose lookup of
    * interval 1 succeeds) raises a shape error, so _predict_pangu2 fails after one call. */
  lemma Pangu2PairRejected(cfg: Config, cur: Latent, constEmb: Latent, timeData: seq<Column>, aft: int,
                           maxInte: int)
    requires cfg.hidS > 0 && cfg.inputTimeLength >= 5 && !PairAccepted(cfg, constEmb)
    requires 1 in cfg.timeInte && PyMax(cfg.timeInte) == Ok(maxInte) && maxInte >= 3
    requires aft >= 1 && |cur| == cfg.inputTimeLength * cfg.hidS && cfg.inputTimeLength <= |timeData|
    ensures var o := Pangu2Spec(cfg, cur, constEmb, timeData, aft);
      o.result == Err(ShapeError) && |o.calls| == 1
  {
    StepCallAligned(cfg, timeData, maxInte, 1, cur);
    var call := StepCall(cfg, cur, timeData, maxInte, 1).value;
    assert |call.x| == 2 * cfg.hidS && |call.time| == 2;
    ForwardRecurShape(cfg, constEmb, call);
    StepLoopStep(cfg, constEmb, timeData, maxInte, 1, aft, cur, []);
  }

  /** With time data that carries time_emb_num covariates per column, as the training path's
    * I-column windows need, the two columns of every step fit the time embedding only for
    * input_time_length == 2; so under the alignment preconditions (I >= 5) the first call
    * raises the time embedding's shape error and _predict_pangu2 fails after one call. */
  lemma Pangu2TimeRejected(cfg: Config, cur: Latent, constEmb: Latent, timeData: seq<Column>, aft: int,
                           maxInte: int)
    requires cfg.hidS > 0 && cfg.inputTimeLength >= 5 && cfg.timeFeatures == cfg.timeEmbNum > 0
    requires 1 in cfg.timeInte && PyMax(cfg.timeInte) == Ok(maxInte) && maxInte >= 3
    requires aft >= 1 && |cur| == cfg.inputTimeLength * cfg.hidS && cfg.inputTimeLength <= |timeData|
    ensures !TimeFits(cfg, 2)
    ensures var o := Pangu2Spec(cfg, cur, constEmb, timeData, aft);
      o.result == Err(ShapeError) && o.calls != [] && o.calls[0].time == [timeData[cfg.inputTimeLength - 2], timeData[cfg.inputTimeLength - 1]]
  {
    TimeFitsColumns(cfg, 2);
    Pangu2PairRejected(cfg, cur, constEmb, timeData, aft, maxInte);
    StepCallAligned(cfg, timeData, maxInte, 1, cur);
    StepLoopStep(cfg, constEmb, timeData, maxInte, 1, aft, cur, []);
  }
}
