/** The run control of gain.py: restore the parameters from a checkpoint or
    initialise them, run exactly `iterations` minibatch steps (each a
    discriminator update followed by a generator update), and save the
    parameters unless in predict mode. The two networks, their Adam solvers
    and the samplers are inputs: a step is what the solvers make of the
    current parameters and the minibatch they are fed. */
module GainTraining {
  import opened Matrices
  import opened GainMasks

  /** The variables held by the TensorFlow session, split by solver: `gen`
      is theta_G together with the generator's Adam state (its moment slots
      and beta-power counters), `disc` is theta_D together with the
      discriminator's Adam state, each flattened into one vector. The saver
      saves and restores all of them, so a step is a function of these two
      vectors and the batch alone. */
  datatype Params = Params(gen: seq<real>, disc: seq<real>)

  /** The `feed_dict` of one step: generator input X, mask M and hint H. */
  datatype Batch = Batch(x: Matrix, m: Matrix, h: Matrix)

  /** What the three samplers return in one iteration: the row indices of
      `sample_batch_index`, the noise of `uniform_sampler(0, 0.01, ..)` and
      the 0/1 draw of `binary_sampler(hint_rate, ..)`. */
  datatype Draw = Draw(idx: seq<nat>, z: Matrix, b: Matrix)

  /** One Adam step of each solver: the new theta_D (with the
      discriminator's Adam state) after a step on D_loss, and the new theta_G
      (with the generator's Adam state) after a step on G_loss, given the
      session's variables and the minibatch fed. */
  datatype Solvers = Solvers(dSolver: (Params, Batch) -> seq<real>, gSolver: (Params, Batch) -> seq<real>)

  /** `len(range(n))`: a negative iteration count runs no step at all. */
  function RangeLen(n: int): (r: nat)
    ensures n >= 0 ==> r == n
    ensures n < 0 ==> r == 0
  {
    if n < 0 then 0 else n
  }

  /** A draw fits a data matrix of `no` rows and `dim` columns: every index is
      a row of it, noise and hint draw have one row per index, and the hint
      draw is 0/1. */
  predicate DrawFits(d: Draw, no: nat, dim: nat) {
    && (forall k :: 0 <= k < |d.idx| ==> d.idx[k] < no)
    && IsShape(d.z, |d.idx|, dim)
    && IsShape(d.b, |d.idx|, dim)
    && IsBinary(d.b)
  }

  /** Lines 160-170 of one iteration: slice data and mask by the batch
      indices, build the hint `M_mb * B` and the generator input
      `M_mb * X_mb + (1 - M_mb) * Z_mb`. Row k of the batch is row idx[k] of
      the data at every observed cell and noise at every missing cell, its
      mask is row idx[k] of the mask, and its hint lies inside that mask. */
  function MakeBatch(normX: Matrix, m: Matrix, dim: nat, d: Draw): (b: Batch)
    requires IsShape(normX, |normX|, dim) && IsShape(m, |normX|, dim) && IsBinary(m)
    requires DrawFits(d, |normX|, dim)
    ensures IsShape(b.x, |d.idx|, dim) && IsShape(b.m, |d.idx|, dim) && IsShape(b.h, |d.idx|, dim)
    ensures IsBinary(b.m) && IsBinary(b.h)
    ensures forall k, j :: 0 <= k < |d.idx| && 0 <= j < dim ==>
      && b.m[k][j] == m[d.idx[k]][j]
      && (b.m[k][j] == 1.0 ==> b.x[k][j] == normX[d.idx[k]][j])
      && (b.m[k][j] == 0.0 ==> b.x[k][j] == d.z[k][j])
      && b.h[k][j] == b.m[k][j] * d.b[k][j]
      && (b.h[k][j] == 1.0 <==> b.m[k][j] == 1.0 && d.b[k][j] == 1.0)
      && (b.h[k][j] == 0.0 || b.h[k][j] == b.m[k][j])
  {
    var xb := Rows(normX, d.idx);
    var mb := Rows(m, d.idx);
    assert IsBinary(mb) by {
      forall k, j | 0 <= k < |mb| && 0 <= j < |mb[k]|
        ensures mb[k][j] == 0.0 || mb[k][j] == 1.0
      {
        assert mb[k] == m[d.idx[k]];
      }
    }
    HintContainment(mb, d.b);
    MergeSelects(mb, xb, d.z);
    Batch(Merge(mb, xb, d.z), mb, Product(mb, d.b))
  }

  /** The batches of a whole run, one per draw, in order. */
  function Batches(normX: Matrix, m: Matrix, dim: nat, draws: seq<Draw>): (bs: seq<Batch>)
    requires IsShape(normX, |normX|, dim) && IsShape(m, |normX|, dim) && IsBinary(m)
    requires forall k :: 0 <= k < |draws| ==> DrawFits(draws[k], |normX|, dim)
    ensures |bs| == |draws|
    ensures forall k :: 0 <= k < |draws| ==> bs[k] == MakeBatch(normX, m, dim, draws[k])
  {
    seq(|draws|, k requires 0 <= k < |draws| => MakeBatch(normX, m, dim, draws[k]))
  }

  /** One iteration's two `sess.run` calls: the discriminator solver updates
      theta_D only; the generator solver then runs against the already
      updated theta_D and updates theta_G only. */
  function TrainStep(s: Solvers, p: Params, b: Batch): (q: Params)
    ensures q.disc == s.dSolver(p, b)
    ensures q.gen == s.gSolver(Params(p.gen, s.dSolver(p, b)), b)
  {
    var afterD := p.(disc := s.dSolver(p, b));
    afterD.(gen := s.gSolver(afterD, b))
  }

  /** The parameters after running the steps for `batches`, first to last:
      nothing changes without a batch, and a single batch is a single step. */
  function Trained(s: Solvers, p: Params, batches: seq<Batch>): (r: Params)
    ensures batches == [] ==> r == p
    ensures |batches| == 1 ==> r == TrainStep(s, p, batches[0])
    decreases |batches|
  {
    if batches == [] then p else Trained(s, TrainStep(s, p, batches[0]), batches[1..])
  }

  /** Training is a fold: running the batches of one run and then, from the
      parameters that run ends with, the batches of another is the same as
      one run over both. A predict-mode run restored from the checkpoint of
      an earlier run therefore continues that run's training. */
  lemma {:induction false} TrainedAppend(s: Solvers, p: Params, first: seq<Batch>, second: seq<Batch>)
    ensures Trained(s, p, first + second) == Trained(s, Trained(s, p, first), second)
    decreases |first|
  {
    if first == [] {
      assert first + second == second;
    } else {
      assert (first + second)[1..] == first[1..] + second;
      TrainedAppend(s, TrainStep(s, p, first[0]), first[1..], second);
    }
  }

  /** The last batch fed is the last step taken: running `batches` and then
      `b` is one step on `b` from where `batches` left off. */
  lemma {:induction false} TrainedSnoc(s: Solvers, p: Params, batches: seq<Batch>, b: Batch)
    ensures Trained(s, p, batches + [b]) == TrainStep(s, Trained(s, p, batches), b)
  {
    TrainedAppend(s, p, batches, [b]);
  }

  /** The saved models, keyed by the model path `model/<data_name>`: a key is
      present exactly when `<path>.ckpt.meta` exists on disk. */
  class ModelStore {
    var checkpoints: map<string, Params>

    constructor (saved: map<string, Params>)
      ensures checkpoints == saved
    {
      checkpoints := saved;
    }

    /** `os.path.exists(model_path + '.ckpt.meta')`. */
    predicate Exists(path: string)
      reads this
    {
      path in checkpoints
    }

    /** `saver.restore(sess, model_path + '.ckpt')`: the saved parameters. */
    method Restore(path: string) returns (p: Params)
      requires Exists(path)
      ensures p == checkpoints[path]
    {
      p := checkpoints[path];
    }

    /** `saver.save(sess, model_path + '.ckpt')`: overwrite or create the
        checkpoint of `path`, leave every other checkpoint as it was. */
    method Save(path: string, p: Params)
      modifies this
      ensures checkpoints == old(checkpoints)[path := p]
    {
      checkpoints := checkpoints[path := p];
    }
  }

  /** The TensorFlow session of one call of `gain`: the live parameters, and
      as ghost state whether they were restored, what they started from and
      the batches fed so far (whose length is the number of steps run). */
  class Session {
    const solvers: Solvers
    var params: Params
    ghost var restored: bool
    ghost var start: Params
    ghost var fed: seq<Batch>

    /** The live parameters are the starting parameters trained on every
        batch fed so far. */
    ghost predicate Valid()
      reads this
    {
      params == Trained(solvers, start, fed)
    }

    /** Lines 148-154: restore from the checkpoint when in predict mode and a
        checkpoint exists, otherwise run the initialiser (whose xavier and
        zero values are `init`). */
    constructor (solvers: Solvers, store: ModelStore, path: string, predict: bool, init: Params)
      ensures Valid() && fed == [] && this.solvers == solvers
      ensures restored == (predict && path in store.checkpoints)
      ensures start == params == (if restored then store.checkpoints[path] else init)
    {
      this.solvers := solvers;
      if predict && store.Exists(path) {
        var saved := store.Restore(path);
        params := saved;
        restored := true;
      } else {
        params := init;
        restored := false;
      }
      start := params;
      fed := [];
    }

    /** One iteration's two solver runs on batch `b`. */
    method Step(b: Batch)
      requires Valid()
      modifies this`params, this`fed
      ensures Valid() && fed == old(fed) + [b]
      ensures params == TrainStep(solvers, old(params), b)
    {
      // sess.run([D_solver, ..]): only theta_D changes
      params := params.(disc := solvers.dSolver(params, b));
      // sess.run([G_solver, ..]): only theta_G changes, against the new theta_D
      params := params.(gen := solvers.gSolver(params, b));
      fed := fed + [b];
      TrainedSnoc(solvers, start, old(fed), b);
    }

    /** Lines 157-176: `for it in range(iterations)` with no early exit, one
        fresh draw per iteration. Exactly `RangeLen(iterations)` steps run,
        and the batches fed are those the draws give, in order. */
    method Train(normX: Matrix, m: Matrix, dim: nat, iterations: int, draws: seq<Draw>)
      requires Valid()
      requires IsShape(normX, |normX|, dim) && IsShape(m, |normX|, dim) && IsBinary(m)
      requires |draws| == RangeLen(iterations)
      requires forall k :: 0 <= k < |draws| ==> DrawFits(draws[k], |normX|, dim)
      modifies this`params, this`fed
      ensures Valid()
      ensures fed == old(fed) + Batches(normX, m, dim, draws)
      ensures |fed| == |old(fed)| + RangeLen(iterations)
    {
      for it := 0 to RangeLen(iterations)
        invariant Valid()
        invariant fed == old(fed) + Batches(normX, m, dim, draws[..it])
      {
        var b := MakeBatch(normX, m, dim, draws[it]);
        Step(b);
        assert Batches(normX, m, dim, draws[..it + 1]) == Batches(normX, m, dim, draws[..it]) + [b];
      }
      assert draws[..RangeLen(iterations)] == draws;
    }
  }
}
