/**
 * The discrete token-update rules of the masked-token scheduler in
 * modules/meissonic/scheduler.py: the descending timestep sequence and its
 * temperatures, the unknown-token map, the mask-length clamp, the two `where`
 * selections of step, the reshaping of 2-D token grids, and add_noise's masked copy.
 *
 * Sampling stays abstract: the tokens torch.multinomial draws, the masking
 * decision of mask_by_random_topk, the uniform draws of torch.rand and the value
 * of the cosine schedule are inputs.
 */
module Meissonic {
  import opened Common

  // ---------------------------------------------------------------------------
  // Timesteps and temperatures
  // ---------------------------------------------------------------------------

  /** torch.arange(n): 0, 1, ..., n - 1. */
  function Arange(n: nat): (r: seq<int>)
    ensures |r| == n
    ensures forall i :: 0 <= i < n ==> r[i] == i
  {
    if n == 0 then [] else Arange(n - 1) + [n - 1]
  }

  /** Tensor.flip(0) on a sequence. */
  function Flip(s: seq<int>): (r: seq<int>)
    ensures |r| == |s|
  {
    if s == [] then [] else [s[|s| - 1]] + Flip(s[..|s| - 1])
  }

  lemma {:induction false} FlipAt(s: seq<int>, i: nat)
    requires i < |s|
    ensures Flip(s)[i] == s[|s| - 1 - i]
  {
    if i > 0 {
      FlipAt(s[..|s| - 1], i - 1);
    }
  }

  /** set_timesteps' timesteps: arange(n) flipped is n - 1, n - 2, ..., 0. */
  lemma TimestepsDescend(n: nat)
    ensures forall i :: 0 <= i < n ==> Flip(Arange(n))[i] == n - 1 - i
    ensures forall i, j :: 0 <= i < j < n ==> Flip(Arange(n))[i] > Flip(Arange(n))[j]
  {
    forall i | 0 <= i < n
      ensures Flip(Arange(n))[i] == n - 1 - i
    {
      FlipAt(Arange(n), i);
    }
  }

  /** torch.linspace(start, end, steps), in exact arithmetic. */
  function Linspace(start: real, end: real, steps: nat): (r: seq<real>)
    ensures |r| == steps
    ensures steps >= 1 ==> r[0] == start
    ensures steps >= 2 ==> r[steps - 1] == end
  {
    LinspaceLast(start, end, steps);
    seq(steps, i requires 0 <= i < steps => LinspaceAt(start, end, steps, i))
  }

  /** The last of at least two values is the end point. */
  lemma LinspaceLast(start: real, end: real, steps: nat)
    ensures steps >= 2 ==> LinspaceAt(start, end, steps, steps - 1) == end
  {
    if steps >= 2 {
      var d := (steps - 1) as real;
      var a := end - start;
      assert (a * d) / d == a;
    }
  }

  /** The i-th of `steps` evenly spaced values from start to end. */
  function LinspaceAt(start: real, end: real, steps: nat, i: nat): real
  {
    if steps <= 1 then start else start + (end - start) * (i as real) / ((steps - 1) as real)
  }

  /** From a higher start to a lower end, the temperatures never rise. */
  lemma LinspaceDescends(start: real, end: real, steps: nat, i: nat, j: nat)
    requires end <= start && i <= j < steps
    ensures Linspace(start, end, steps)[j] <= Linspace(start, end, steps)[i]
  {
    LinspaceAtDescends(start, end, steps, i, j);
  }

  lemma LinspaceAtDescends(start: real, end: real, steps: nat, i: nat, j: nat)
    requires end <= start && i <= j
    ensures LinspaceAt(start, end, steps, j) <= LinspaceAt(start, end, steps, i)
  {
    if steps > 1 {
      var d := (steps - 1) as real;
      var x := (end - start) * (j as real);
      var y := (end - start) * (i as real);
      assert x <= y by {
        ScaleAntitone(end - start, i as real, j as real);
      }
      assert x / d <= y / d by {
        DivideMonotone(x, y, d);
      }
    }
  }

  lemma ScaleAntitone(c: real, x: real, y: real)
    requires c <= 0.0 && x <= y
    ensures c * y <= c * x
  {
    assert c * x - c * y == c * (x - y);
  }

  lemma DivideMonotone(x: real, y: real, d: real)
    requires d > 0.0 && x <= y
    ensures x / d <= y / d
  {
  }

  /** The temperature argument: one number, or a tuple/list whose first two values are used. */
  datatype Temperature = Scalar(t: real) | Sequence(values: seq<real>)

  datatype SchedulerError =
    | TemperatureIndex                 // a tuple/list temperature with fewer than two values
    | TimestepsNotSet                  // step or add_noise before set_timesteps
    | TimestepNotFound(t: int)         // a timestep the schedule does not contain
    | UnknownSchedule(name: string)    // ValueError: unknown masking schedule
    | GeneratorMismatch(count: nat, batch: nat)
    | EmptyBatch                       // torch.stack of no rows
    | TemperaturesNotSet
    | GeneratorNotSubscriptable        // add_noise's generator[0] on None or on a single generator
    | GeneratorIndex                   // add_noise's generator[0] on an empty list
    | RandGeneratorType                // torch.rand given a list as its generator

  /** The temperatures set_timesteps stores for n steps. */
  function Temperatures(temperature: Temperature, n: nat): (r: Result<seq<real>, SchedulerError>)
    ensures r.Ok? ==> |r.value| == n
    ensures r.Err? <==> temperature.Sequence? && |temperature.values| < 2
    ensures temperature.Scalar? ==> r == Ok(Linspace(temperature.t, 0.01, n))
    ensures temperature.Sequence? && |temperature.values| >= 2 ==>
              r == Ok(Linspace(temperature.values[0], temperature.values[1], n))
  {
    match temperature
    case Scalar(t) => Ok(Linspace(t, 0.01, n))
    case Sequence(vs) => if |vs| < 2 then Err(TemperatureIndex) else Ok(Linspace(vs[0], vs[1], n))
  }

  /** (timesteps == t).nonzero(): the position of t in the schedule, if present. */
  function StepIndex(ts: seq<int>, t: int): (r: Option<nat>)
    ensures r.Some? ==> r.value < |ts| && ts[r.value] == t && forall k :: 0 <= k < r.value ==> ts[k] != t
    ensures r.None? <==> t !in ts
  {
    if ts == [] then None
    else if ts[0] == t then Some(0)
    else
      var rest := StepIndex(ts[1..], t);
      assert t in ts <==> t in ts[1..] by {
        assert ts == [ts[0]] + ts[1..];
      }
      if rest.None? then None else Some(rest.value + 1)
  }

  /** In the descending schedule of n steps, timestep t sits at position n - 1 - t. */
  lemma StepIndexOfTimestep(n: nat, t: int)
    requires 0 <= t < n
    ensures StepIndex(Flip(Arange(n)), t) == Some(n - 1 - t)
  {
    var ts := Flip(Arange(n));
    FlipAt(Arange(n), n - 1 - t);
    assert ts[n - 1 - t] == t;
    var v := StepIndex(ts, t).value;
    FlipAt(Arange(n), v);
    assert ts[v] == n - 1 - v && ts[v] == t;
  }

  // ---------------------------------------------------------------------------
  // Masking schedule
  // ---------------------------------------------------------------------------

  /**
   * The masking schedule at step index idx of n: ratio = (idx + 1) / n, then
   * cos(ratio * pi / 2) (the value `cosine` gives for ratio) or 1 - ratio;
   * any other schedule name is a ValueError.
   */
  function MaskRatio(schedule: string, idx: nat, n: nat, cosine: real -> real): (r: Result<real, SchedulerError>)
    requires idx < n
    ensures r.Err? <==> schedule != "cosine" && schedule != "linear"
    ensures r.Err? ==> r.error == UnknownSchedule(schedule)
    ensures schedule == "linear" ==> r == Ok(1.0 - (idx + 1) as real / n as real)
    ensures schedule == "cosine" ==> r == Ok(cosine((idx + 1) as real / n as real))
  {
    var ratio := (idx + 1) as real / n as real;
    if schedule == "cosine" then Ok(cosine(ratio))
    else if schedule == "linear" then Ok(1.0 - ratio)
    else Err(UnknownSchedule(schedule))
  }

  /** Under the linear schedule, timestep t of n keeps the fraction t / n of the tokens masked. */
  lemma LinearRatioOfTimestep(n: nat, t: int, cosine: real -> real)
    requires 0 <= t < n
    ensures MaskRatio("linear", n - 1 - t, n, cosine) == Ok(t as real / n as real)
    ensures 0.0 <= t as real / n as real < 1.0
  {
    var nr := n as real;
    var tr := t as real;
    assert (n - 1 - t + 1) as real == nr - tr;
    assert (nr - tr) / nr == nr / nr - tr / nr;
    assert nr / nr == 1.0;
    DivideMonotone(tr, nr, nr);
    assert tr / nr < 1.0 by {
      assert tr < nr;
      assert (tr / nr) * nr == tr;
    }
  }

  /** starting_mask_ratio * mask_ratio. */
  function Scaled(startingMaskRatio: real, ratio: real): real
  {
    startingMaskRatio * ratio
  }

  /** unknown_map.sum(dim=-1): how many positions of a row hold the mask id. */
  function UnknownCount(row: seq<int>, maskId: int): (r: nat)
    ensures r <= |row|
    ensures r == 0 <==> maskId !in row
  {
    multiset(row)[maskId]
  }

  /**
   * mask_len for one row: floor(seq_len * mask_ratio), capped at one less than the
   * row's masked count, then raised to at least 1.
   */
  function MaskLen(seqLen: nat, maskRatio: real, unknown: nat): (r: int)
    ensures r >= 1
    ensures unknown >= 2 ==> r <= unknown - 1
    ensures unknown <= 1 ==> r == 1
  {
    var capped := Min(unknown - 1, Wanted(seqLen, maskRatio));
    Max(1, capped)
  }

  /** floor(seq_len * mask_ratio): how many tokens the schedule asks to mask. */
  function Wanted(seqLen: nat, maskRatio: real): int
  {
    (seqLen as real * maskRatio).Floor
  }

  /** Between the bounds, the mask length is exactly what the schedule asks for; below 1 it is 1. */
  lemma MaskLenFollowsRatio(seqLen: nat, maskRatio: real, unknown: nat)
    ensures 1 <= Wanted(seqLen, maskRatio) <= unknown - 1 ==> MaskLen(seqLen, maskRatio, unknown) == Wanted(seqLen, maskRatio)
    ensures Wanted(seqLen, maskRatio) < 1 ==> MaskLen(seqLen, maskRatio, unknown) == 1
    ensures Wanted(seqLen, maskRatio) > unknown - 1 && unknown >= 2 ==> MaskLen(seqLen, maskRatio, unknown) == unknown - 1
  {
  }

  function Min(a: int, b: int): int { if a <= b then a else b }

  function Max(a: int, b: int): int { if a >= b then a else b }

  // ---------------------------------------------------------------------------
  // The `where` selections
  // ---------------------------------------------------------------------------

  /** A batch of rows of one length: the shape of a (batch, seq_len) tensor. */
  predicate Rect<T>(rows: seq<seq<T>>, len: nat)
  {
    forall i :: 0 <= i < |rows| ==> |rows[i]| == len
  }

  /** torch.where(unknown_map, sampled, sample): drawn tokens only where the input was masked. */
  function KeepGiven(sample: seq<seq<int>>, sampled: seq<seq<int>>, maskId: int, len: nat): (r: seq<seq<int>>)
    requires Rect(sample, len) && Rect(sampled, len) && |sampled| == |sample|
    ensures |r| == |sample| && Rect(r, len)
  {
    seq(|sample|, i requires 0 <= i < |sample| =>
      seq(len, j requires 0 <= j < len => if sample[i][j] == maskId then sampled[i][j] else sample[i][j]))
  }

  /** Every token given in the input survives prediction; every masked one is the drawn token. */
  lemma GivenTokensSurvive(sample: seq<seq<int>>, sampled: seq<seq<int>>, maskId: int, len: nat, i: nat, j: nat)
    requires Rect(sample, len) && Rect(sampled, len) && |sampled| == |sample|
    requires i < |sample| && j < len
    ensures sample[i][j] != maskId ==> KeepGiven(sample, sampled, maskId, len)[i][j] == sample[i][j]
    ensures sample[i][j] == maskId ==> KeepGiven(sample, sampled, maskId, len)[i][j] == sampled[i][j]
  {
  }

  /** torch.where(masking, mask_token_id, pred): the mask id where masking holds, the prediction elsewhere. */
  function Remask(masking: seq<seq<bool>>, pred: seq<seq<int>>, maskId: int, len: nat): (r: seq<seq<int>>)
    requires Rect(masking, len) && Rect(pred, len) && |masking| == |pred|
    ensures |r| == |pred| && Rect(r, len)
  {
    seq(|pred|, i requires 0 <= i < |pred| =>
      seq(len, j requires 0 <= j < len => if masking[i][j] then maskId else pred[i][j]))
  }

  /** Every token of prev_sample is the mask id (exactly where masking holds) or the predicted token. */
  lemma RemaskIsMaskOrPred(masking: seq<seq<bool>>, pred: seq<seq<int>>, maskId: int, len: nat, i: nat, j: nat)
    requires Rect(masking, len) && Rect(pred, len) && |masking| == |pred|
    requires i < |pred| && j < len
    ensures masking[i][j] ==> Remask(masking, pred, maskId, len)[i][j] == maskId
    ensures !masking[i][j] ==> Remask(masking, pred, maskId, len)[i][j] == pred[i][j]
    ensures Remask(masking, pred, maskId, len)[i][j] == maskId || Remask(masking, pred, maskId, len)[i][j] == pred[i][j]
  {
  }

  // ---------------------------------------------------------------------------
  // 2-D token grids
  // ---------------------------------------------------------------------------

  /** sample.reshape(batch, height * width) for one batch item: the rows of the grid, concatenated. */
  function Flatten(grid: seq<seq<int>>): (r: seq<int>)
  {
    if grid == [] then [] else grid[0] + Flatten(grid[1..])
  }

  /** reshape(batch, height, width) for one batch item: `height` consecutive runs of `width` tokens. */
  function Unflatten(row: seq<int>, height: nat, width: nat): (r: seq<seq<int>>)
    requires |row| == height * width
    ensures |r| == height && Rect(r, width)
  {
    if height == 0 then []
    else
      RowSplit(height, width);
      [row[..width]] + Unflatten(row[width..], height - 1, width)
  }

  /** One row of width tokens taken off a grid of height rows leaves height - 1 rows. */
  lemma RowSplit(height: nat, width: nat)
    requires height > 0
    ensures height * width == width + (height - 1) * width
  {
  }

  lemma {:induction false} FlattenLength(grid: seq<seq<int>>, width: nat)
    requires Rect(grid, width)
    ensures |Flatten(grid)| == |grid| * width
  {
    if grid != [] {
      FlattenLength(grid[1..], width);
      RowSplit(|grid|, width);
    }
  }

  /** Flattening a grid and reshaping it back gives the grid again. */
  lemma {:induction false} UnflattenFlatten(grid: seq<seq<int>>, width: nat)
    requires Rect(grid, width)
    ensures |Flatten(grid)| == |grid| * width
    ensures Unflatten(Flatten(grid), |grid|, width) == grid
  {
    FlattenLength(grid, width);
    if grid != [] {
      var rest := grid[1..];
      UnflattenFlatten(rest, width);
      var f := Flatten(grid);
      assert f == grid[0] + Flatten(rest);
      assert f[..width] == grid[0];
      assert f[width..] == Flatten(rest);
      calc {
        Unflatten(f, |grid|, width);
        [f[..width]] + Unflatten(f[width..], |grid| - 1, width);
        [grid[0]] + Unflatten(Flatten(rest), |rest|, width);
        [grid[0]] + rest;
        grid;
      }
    }
  }

  /** Reshaping a row into a grid and flattening it gives the row again. */
  lemma {:induction false} FlattenUnflatten(row: seq<int>, height: nat, width: nat)
    requires |row| == height * width
    ensures Flatten(Unflatten(row, height, width)) == row
  {
    if height > 0 {
      RowSplit(height, width);
      var first, rest := row[..width], row[width..];
      FlattenUnflatten(rest, height - 1, width);
      var g := Unflatten(row, height, width);
      assert g == [first] + Unflatten(rest, height - 1, width);
      calc {
        Flatten(g);
        g[0] + Flatten(g[1..]);
        { assert g[1..] == Unflatten(rest, height - 1, width); }
        first + Flatten(Unflatten(rest, height - 1, width));
        first + rest;
        row;
      }
    }
  }

  /** A token tensor: (batch, seq_len) rows, or a (batch, height, width) grid. */
  datatype Tokens = Flat(rows: seq<seq<int>>) | Grid(cells: seq<seq<seq<int>>>, height: nat, width: nat)

  /** The shape step accepts: rows of seq_len tokens, or grids of height rows of width tokens with height * width == seq_len. */
  predicate WellShaped(t: Tokens, len: nat)
  {
    match t
    case Flat(rows) => Rect(rows, len)
    case Grid(cells, height, width) =>
      len == height * width && forall b :: 0 <= b < |cells| ==> |cells[b]| == height && Rect(cells[b], width)
  }

  /** The (batch, seq_len) view step works on. */
  function Rows(t: Tokens): seq<seq<int>>
  {
    match t
    case Flat(rows) => rows
    case Grid(cells, _, _) => seq(|cells|, b requires 0 <= b < |cells| => Flatten(cells[b]))
  }

  /** Back to the input's own shape. */
  function Reshaped(rows: seq<seq<int>>, like: Tokens, len: nat): (r: Tokens)
    requires WellShaped(like, len) && Rect(rows, len)
  {
    match like
    case Flat(_) => Flat(rows)
    case Grid(_, height, width) =>
      Grid(seq(|rows|, b requires 0 <= b < |rows| => Unflatten(rows[b], height, width)), height, width)
  }

  lemma RowsShape(t: Tokens, len: nat)
    requires WellShaped(t, len)
    ensures Rect(Rows(t), len)
  {
    if t.Grid? {
      forall b | 0 <= b < |t.cells|
        ensures |Rows(t)[b]| == len
      {
        FlattenLength(t.cells[b], t.width);
      }
    }
  }

  /** A grid flattened for step and reshaped for output is the grid it was. */
  lemma ReshapedRows(t: Tokens, len: nat)
    requires WellShaped(t, len)
    ensures Rect(Rows(t), len) && Reshaped(Rows(t), t, len) == t
  {
    RowsShape(t, len);
    if t.Grid? {
      var back := Reshaped(Rows(t), t, len);
      forall b | 0 <= b < |t.cells|
        ensures back.cells[b] == t.cells[b]
      {
        UnflattenFlatten(t.cells[b], t.width);
      }
    }
  }

  // ---------------------------------------------------------------------------
  // step
  // ---------------------------------------------------------------------------

  /** The generator argument: a single generator (or None), or a list of them. */
  datatype Generators = Single | GeneratorList(count: nat)

  /** How many generators the sampling loop runs over: a single one and a one-element list are replicated per batch item. */
  function GeneratorCount(g: Generators, batch: nat): (r: nat)
    ensures g.Single? ==> r == batch
    ensures g.GeneratorList? && g.count == 1 ==> r == batch
    ensures g.GeneratorList? && g.count != 1 ==> r == g.count
  {
    match g
    case Single => batch
    case GeneratorList(c) => if c == 1 && c != batch then batch else c
  }

  /** What step returns, plus the mask lengths it hands to the random top-k masking. */
  datatype StepOutput = StepOutput(prevSample: Tokens, predOriginalSample: Tokens, maskLens: seq<int>)

  /** mask_len for every row. */
  function MaskLens(rows: seq<seq<int>>, maskId: int, len: nat, maskRatio: real): (r: seq<int>)
    ensures |r| == |rows|
    ensures forall i :: 0 <= i < |rows| ==> r[i] == MaskLen(len, maskRatio, UnknownCount(rows[i], maskId))
  {
    seq(|rows|, i requires 0 <= i < |rows| => MaskLen(len, maskRatio, UnknownCount(rows[i], maskId)))
  }

  /**
   * The outcome of Scheduler.step, as a function of the scheduler's configuration and
   * state, the input tokens, the drawn tokens (`sampled`), the random top-k masking
   * (`masking`) and the cosine value.
   */
  function StepResult(maskId: int, schedule: string, timesteps: Option<seq<int>>, temperatures: Option<seq<real>>,
                      sample: Tokens, len: nat, timestep: int, startingMaskRatio: real, g: Generators,
                      sampled: seq<seq<int>>, masking: seq<seq<bool>>, cosine: real -> real)
    : (r: Result<StepOutput, SchedulerError>)
    requires WellShaped(sample, len)
    requires |sampled| == |Rows(sample)| && Rect(sampled, len)
    requires |masking| == |Rows(sample)| && Rect(masking, len)
  {
    RowsShape(sample, len);
    var rows := Rows(sample);
    if GeneratorCount(g, |rows|) != |rows| then Err(GeneratorMismatch(GeneratorCount(g, |rows|), |rows|))
    else if |rows| == 0 then Err(EmptyBatch)
    else StepAfterSampling(maskId, schedule, timesteps, temperatures, sample, len, timestep, startingMaskRatio,
                           KeepGiven(rows, sampled, maskId, len), masking, cosine)
  }

  /** The rest of step once pred_original_sample is known. */
  function StepAfterSampling(maskId: int, schedule: string, timesteps: Option<seq<int>>, temperatures: Option<seq<real>>,
                             sample: Tokens, len: nat, timestep: int, startingMaskRatio: real,
                             pred: seq<seq<int>>, masking: seq<seq<bool>>, cosine: real -> real)
    : (r: Result<StepOutput, SchedulerError>)
    requires WellShaped(sample, len)
    requires |pred| == |Rows(sample)| && Rect(pred, len)
    requires |masking| == |Rows(sample)| && Rect(masking, len)
  {
    if timestep == 0 then Ok(Outputs(sample, len, pred, pred, []))
    else if timesteps.None? then Err(TimestepsNotSet)
    else
      var ts := timesteps.value;
      var idx := StepIndex(ts, timestep);
      if schedule != "cosine" && schedule != "linear" then Err(UnknownSchedule(schedule))
      else if idx.None? then Err(TimestepNotFound(timestep))
      else MaskAt(maskId, schedule, ts, temperatures, sample, len, idx.value, startingMaskRatio, pred, masking, cosine)
  }

  /** prev_sample and pred_original_sample, both in the input's shape. */
  function Outputs(sample: Tokens, len: nat, prev: seq<seq<int>>, pred: seq<seq<int>>, lens: seq<int>): StepOutput
    requires WellShaped(sample, len) && Rect(prev, len) && Rect(pred, len)
  {
    StepOutput(Reshaped(prev, sample, len), Reshaped(pred, sample, len), lens)
  }

  /** The re-masking at step index idx of the schedule ts. */
  function MaskAt(maskId: int, schedule: string, ts: seq<int>, temperatures: Option<seq<real>>,
                  sample: Tokens, len: nat, idx: nat, startingMaskRatio: real,
                  pred: seq<seq<int>>, masking: seq<seq<bool>>, cosine: real -> real)
    : (r: Result<StepOutput, SchedulerError>)
    requires WellShaped(sample, len) && idx < |ts|
    requires |pred| == |Rows(sample)| && Rect(pred, len)
    requires |masking| == |Rows(sample)| && Rect(masking, len)
  {
    var ratio := MaskRatio(schedule, idx, |ts|, cosine);
    if ratio.Err? then Err(ratio.error)
    else
      if temperatures.None? then Err(TemperaturesNotSet)
      else if idx >= |temperatures.value| then Err(TemperatureIndex)
      else
        var lens := MaskLens(Rows(sample), maskId, len, Scaled(startingMaskRatio, ratio.value));
        Ok(Outputs(sample, len, Remask(masking, pred, maskId, len), pred, lens))
  }

  /** At timestep 0 nothing is re-masked: prev_sample is pred_original_sample. */
  lemma LastStepKeepsPrediction(maskId: int, schedule: string, timesteps: Option<seq<int>>,
                                temperatures: Option<seq<real>>, sample: Tokens, len: nat, startingMaskRatio: real,
                                g: Generators, sampled: seq<seq<int>>, masking: seq<seq<bool>>, cosine: real -> real)
    requires WellShaped(sample, len)
    requires |sampled| == |Rows(sample)| && Rect(sampled, len)
    requires |masking| == |Rows(sample)| && Rect(masking, len)
    requires GeneratorCount(g, |Rows(sample)|) == |Rows(sample)| > 0
    ensures var r := StepResult(maskId, schedule, timesteps, temperatures, sample, len, 0, startingMaskRatio, g,
                                sampled, masking, cosine);
            r.Ok? && r.value.prevSample == r.value.predOriginalSample
  {
  }

  /** Any schedule name but "cosine" and "linear" makes every step but the last one fail. */
  lemma UnknownScheduleFails(maskId: int, schedule: string, ts: seq<int>, temperatures: Option<seq<real>>,
                             sample: Tokens, len: nat, timestep: int, startingMaskRatio: real, g: Generators,
                             sampled: seq<seq<int>>, masking: seq<seq<bool>>, cosine: real -> real)
    requires WellShaped(sample, len)
    requires |sampled| == |Rows(sample)| && Rect(sampled, len)
    requires |masking| == |Rows(sample)| && Rect(masking, len)
    requires GeneratorCount(g, |Rows(sample)|) == |Rows(sample)| > 0
    requires schedule != "cosine" && schedule != "linear" && timestep != 0
    ensures StepResult(maskId, schedule, Some(ts), temperatures, sample, len, timestep, startingMaskRatio, g,
                       sampled, masking, cosine) == Err(UnknownSchedule(schedule))
  {
  }

  /** An empty batch fails: either the generator list does not match it, or there are no rows to stack. */
  lemma EmptyBatchFails(maskId: int, schedule: string, timesteps: Option<seq<int>>, temperatures: Option<seq<real>>,
                        len: nat, timestep: int, startingMaskRatio: real, g: Generators, cosine: real -> real)
    ensures var r := StepResult(maskId, schedule, timesteps, temperatures, Flat([]), len, timestep,
                                startingMaskRatio, g, [], [], cosine);
            r.Err? && (r.error.EmptyBatch? || r.error.GeneratorMismatch?)
    ensures g.Single? ==> StepResult(maskId, schedule, timesteps, temperatures, Flat([]), len, timestep,
                                     startingMaskRatio, g, [], [], cosine) == Err(EmptyBatch)
  {
  }

  /**
   * On flat input, a successful step keeps every given token in pred_original_sample,
   * puts the drawn token at every masked position, and leaves in prev_sample only the
   * mask id or the predicted token; every mask length is at least 1 and, where at
   * least two tokens were masked, below the masked count.
   */
  lemma StepTokens(maskId: int, schedule: string, timesteps: Option<seq<int>>, temperatures: Option<seq<real>>,
                   rows: seq<seq<int>>, len: nat, timestep: int, startingMaskRatio: real, g: Generators,
                   sampled: seq<seq<int>>, masking: seq<seq<bool>>, cosine: real -> real)
    requires Rect(rows, len)
    requires |sampled| == |rows| && Rect(sampled, len)
    requires |masking| == |rows| && Rect(masking, len)
    requires StepResult(maskId, schedule, timesteps, temperatures, Flat(rows), len, timestep, startingMaskRatio, g,
                        sampled, masking, cosine).Ok?
    ensures var out := StepResult(maskId, schedule, timesteps, temperatures, Flat(rows), len, timestep,
                                  startingMaskRatio, g, sampled, masking, cosine).value;
            && out.prevSample.Flat? && out.predOriginalSample.Flat?
            && |out.prevSample.rows| == |rows| && |out.predOriginalSample.rows| == |rows|
            && Rect(out.prevSample.rows, len) && Rect(out.predOriginalSample.rows, len)
            && (forall i, j :: 0 <= i < |rows| && 0 <= j < len && rows[i][j] != maskId ==>
                  out.predOriginalSample.rows[i][j] == rows[i][j])
            && (forall i, j :: 0 <= i < |rows| && 0 <= j < len && rows[i][j] == maskId ==>
                  out.predOriginalSample.rows[i][j] == sampled[i][j])
            && (forall i, j :: 0 <= i < |rows| && 0 <= j < len ==>
                  out.prevSample.rows[i][j] == maskId || out.prevSample.rows[i][j] == out.predOriginalSample.rows[i][j])
            && (forall i :: 0 <= i < |out.maskLens| ==> out.maskLens[i] >= 1)
            && (forall i :: 0 <= i < |out.maskLens| && UnknownCount(rows[i], maskId) >= 2 ==>
                  out.maskLens[i] <= UnknownCount(rows[i], maskId) - 1)
  {
  }

  /** The masked-token scheduler: its configuration and the schedule set_timesteps stores. */
  class Scheduler {
    const maskTokenId: int
    const maskingSchedule: string
    var timesteps: Option<seq<int>>
    var temperatures: Option<seq<real>>

    constructor(maskTokenId: int, maskingSchedule: string)
      ensures this.maskTokenId == maskTokenId && this.maskingSchedule == maskingSchedule
      ensures timesteps.None? && temperatures.None?
    {
      this.maskTokenId, this.maskingSchedule := maskTokenId, maskingSchedule;
      timesteps, temperatures := None, None;
    }

    /**
     * set_timesteps: the timesteps become n - 1, ..., 0 and the temperatures a linspace
     * of n values; a tuple or list temperature with fewer than two values fails after
     * the timesteps were already replaced.
     */
    method SetTimesteps(n: nat, temperature: Temperature) returns (err: Option<SchedulerError>)
      modifies this
      ensures timesteps == Some(Flip(Arange(n)))
      ensures Temperatures(temperature, n).Ok? ==> err.None? && temperatures == Some(Temperatures(temperature, n).value)
      ensures Temperatures(temperature, n).Err? ==> err == Some(TemperatureIndex) && temperatures == old(temperatures)
    {
      timesteps := Some(Flip(Arange(n)));
      var temps := Temperatures(temperature, n);
      if temps.Err? {
        return Some(temps.error);
      }
      temperatures := Some(temps.value);
      err := None;
    }

    /**
     * step: a 2-D grid is flattened and the rows are collected one per generator, as
     * the loop over generators does; the drawn tokens are an input (`sampled`), so the
     * loop only picks up each row's draw and fails when the generators do not match the
     * batch. Then given tokens are kept and, unless the timestep is 0, the tokens the
     * top-k masking selects are masked again.
     */
    method Step(sample: Tokens, len: nat, timestep: int, startingMaskRatio: real, g: Generators,
                sampled: seq<seq<int>>, masking: seq<seq<bool>>, cosine: real -> real)
      returns (r: Result<StepOutput, SchedulerError>)
      requires WellShaped(sample, len)
      requires |sampled| == |Rows(sample)| && Rect(sampled, len)
      requires |masking| == |Rows(sample)| && Rect(masking, len)
      ensures r == StepResult(maskTokenId, maskingSchedule, timesteps, temperatures, sample, len, timestep,
                              startingMaskRatio, g, sampled, masking, cosine)
    {
      RowsShape(sample, len);
      var rows := Rows(sample);
      var count := GeneratorCount(g, |rows|);
      var drawn: seq<seq<int>> := [];
      var i := 0;
      while i < count
        invariant 0 <= i <= count && i <= |rows|
        invariant drawn == sampled[..i]
      {
        if i >= |rows| {
          return Err(GeneratorMismatch(count, |rows|));
        }
        drawn := drawn + [sampled[i]];
        i := i + 1;
      }
      if count != |rows| {
        return Err(GeneratorMismatch(count, |rows|));
      }
      if |drawn| == 0 {
        return Err(EmptyBatch);
      }
      assert drawn == sampled;
      var pred := KeepGiven(rows, drawn, maskTokenId, len);
      r := StepAfterSampling(maskTokenId, maskingSchedule, timesteps, temperatures, sample, len, timestep,
                             startingMaskRatio, pred, masking, cosine);
    }

    /**
     * add_noise, with the generator handling corrected (see NoiseRatioFor): with the mask
     * ratio of the given timestep, every position whose uniform draw is below it becomes
     * the mask id in a fresh copy of the sample; the sample itself is left alone. The
     * generator only seeds the draws, which are an input.
     */
    method AddNoise(sample: array<int>, t: int, g: NoiseGenerator, draws: seq<real>, cosine: real -> real)
      returns (r: Result<array<int>, SchedulerError>)
      requires |draws| == sample.Length
      ensures r.Ok? ==> fresh(r.value)
      ensures r.Ok? <==> NoiseRatioFor(maskingSchedule, timesteps, t, g, cosine).Ok?
      ensures r.Err? ==> r.error == NoiseRatioFor(maskingSchedule, timesteps, t, g, cosine).error
      ensures r.Ok? ==> r.value[..] == MaskedCopy(sample[..], draws, NoiseRatioFor(maskingSchedule, timesteps, t, g, cosine).value,
                                                  maskTokenId)
    {
      var ratio := NoiseRatioFor(maskingSchedule, timesteps, t, g, cosine);
      if ratio.Err? {
        return Err(ratio.error);
      }
      var masked := new int[sample.Length](k requires 0 <= k < sample.Length reads sample => sample[k]);
      var k := 0;
      while k < masked.Length
        invariant 0 <= k <= masked.Length
        invariant forall j :: 0 <= j < k ==> masked[j] == if draws[j] < ratio.value then maskTokenId else sample[j]
        invariant forall j :: k <= j < masked.Length ==> masked[j] == sample[j]
      {
        if draws[k] < ratio.value {
          masked[k] := maskTokenId;
        }
        k := k + 1;
      }
      assert masked[..] == MaskedCopy(sample[..], draws, ratio.value, maskTokenId);
      r := Ok(masked);
    }
  }

  /** The generator argument of add_noise: None (the default), one generator, or a list of them. */
  datatype NoiseGenerator = NoGenerator | OneGenerator | GeneratorSeq(count: nat)

  /**
   * add_noise as scheduler.py writes it, up to the uniform draw: after the mask ratio it
   * reads `generator[0]` for the device and hands `generator` itself to torch.rand. None
   * and a single generator cannot be indexed, an empty list has no element 0, and
   * torch.rand takes no list as its generator. Ok(ratio) would mean the draw is reached.
   */
  function AddNoiseAsWritten(schedule: string, timesteps: Option<seq<int>>, t: int, g: NoiseGenerator,
                             cosine: real -> real): (r: Result<real, SchedulerError>)
  {
    var ratio := NoiseRatio(schedule, timesteps, t, cosine);
    if ratio.Err? then Err(ratio.error)
    else
      match g
      case NoGenerator => Err(GeneratorNotSubscriptable)
      case OneGenerator => Err(GeneratorNotSubscriptable)
      case GeneratorSeq(n) => if n == 0 then Err(GeneratorIndex) else Err(RandGeneratorType)
  }

  /** As written, add_noise never reaches its draw: every argument fails, the default None included. */
  lemma AddNoiseAsWrittenNeverDraws(schedule: string, timesteps: Option<seq<int>>, t: int, g: NoiseGenerator,
                                    cosine: real -> real)
    ensures AddNoiseAsWritten(schedule, timesteps, t, g, cosine).Err?
    ensures NoiseRatio(schedule, timesteps, t, cosine).Ok? && g.NoGenerator? ==>
              AddNoiseAsWritten(schedule, timesteps, t, g, cosine) == Err(GeneratorNotSubscriptable)
  {
  }

  /**
   * The evidently intended generator handling (the device of the generator itself, as
   * torch.rand expects one generator or None): None and a single generator reach the draw
   * with the schedule's ratio; a list is still refused by torch.rand.
   */
  function NoiseRatioFor(schedule: string, timesteps: Option<seq<int>>, t: int, g: NoiseGenerator,
                         cosine: real -> real): (r: Result<real, SchedulerError>)
    ensures !g.GeneratorSeq? ==> r == NoiseRatio(schedule, timesteps, t, cosine)
    ensures g.GeneratorSeq? && NoiseRatio(schedule, timesteps, t, cosine).Ok? ==> r == Err(RandGeneratorType)
    ensures g.GeneratorSeq? && NoiseRatio(schedule, timesteps, t, cosine).Err? ==> r == NoiseRatio(schedule, timesteps, t, cosine)
  {
    var ratio := NoiseRatio(schedule, timesteps, t, cosine);
    if ratio.Err? then ratio
    else if g.GeneratorSeq? then Err(RandGeneratorType)
    else ratio
  }

  /**
   * The correction changes only the generator failures: wherever the code as written fails
   * for another reason the two agree, and with None or a single generator the corrected
   * add_noise reaches the draw exactly when the mask ratio exists.
   */
  lemma {:induction false} NoiseRatioForCorrects(schedule: string, timesteps: Option<seq<int>>, t: int,
                                                 g: NoiseGenerator, cosine: real -> real)
    ensures NoiseRatio(schedule, timesteps, t, cosine).Err? ==>
              NoiseRatioFor(schedule, timesteps, t, g, cosine) == AddNoiseAsWritten(schedule, timesteps, t, g, cosine)
    ensures !g.GeneratorSeq? ==>
              (NoiseRatioFor(schedule, timesteps, t, g, cosine).Ok? <==> NoiseRatio(schedule, timesteps, t, cosine).Ok?)
    ensures g.GeneratorSeq? && g.count > 0 ==>
              NoiseRatioFor(schedule, timesteps, t, g, cosine) == AddNoiseAsWritten(schedule, timesteps, t, g, cosine)
  {
  }

  /** A concrete case: linear schedule of two steps, timestep 1, the default generator None. */
  lemma DefaultGeneratorCounterexample(cosine: real -> real)
    ensures NoiseRatio("linear", Some([1, 0]), 1, cosine) == Ok(0.5)
    ensures AddNoiseAsWritten("linear", Some([1, 0]), 1, NoGenerator, cosine) == Err(GeneratorNotSubscriptable)
    ensures NoiseRatioFor("linear", Some([1, 0]), 1, NoGenerator, cosine) == Ok(0.5)
  {
    assert StepIndex([1, 0], 1) == Some(0);
  }

  /** add_noise's mask ratio: the step index of t, then the schedule; no starting ratio here. */
  function NoiseRatio(schedule: string, timesteps: Option<seq<int>>, t: int, cosine: real -> real): (r: Result<real, SchedulerError>)
    ensures timesteps.None? ==> r == Err(TimestepsNotSet)
    ensures timesteps.Some? && schedule != "cosine" && schedule != "linear" ==> r == Err(UnknownSchedule(schedule))
  {
    if timesteps.None? then Err(TimestepsNotSet)
    else if schedule != "cosine" && schedule != "linear" then Err(UnknownSchedule(schedule))
    else
      var idx := StepIndex(timesteps.value, t);
      if idx.None? then Err(TimestepNotFound(t))
      else MaskRatio(schedule, idx.value, |timesteps.value|, cosine)
  }

  /** The sample with exactly the positions whose draw is below the ratio set to the mask id. */
  function MaskedCopy(sample: seq<int>, draws: seq<real>, ratio: real, maskId: int): (r: seq<int>)
    requires |draws| == |sample|
    ensures |r| == |sample|
  {
    seq(|sample|, k requires 0 <= k < |sample| => if draws[k] < ratio then maskId else sample[k])
  }

  /** Only the selected positions change, and each of them becomes the mask id. */
  lemma MaskedCopyChangesOnlySelected(sample: seq<int>, draws: seq<real>, ratio: real, maskId: int, k: nat)
    requires |draws| == |sample| && k < |sample|
    ensures draws[k] < ratio ==> MaskedCopy(sample, draws, ratio, maskId)[k] == maskId
    ensures !(draws[k] < ratio) ==> MaskedCopy(sample, draws, ratio, maskId)[k] == sample[k]
  {
  }

  /** A second pass with the same draws changes nothing. */
  lemma MaskedCopyIdempotent(sample: seq<int>, draws: seq<real>, ratio: real, maskId: int)
    requires |draws| == |sample|
    ensures MaskedCopy(MaskedCopy(sample, draws, ratio, maskId), draws, ratio, maskId)
            == MaskedCopy(sample, draws, ratio, maskId)
  {
  }
}
