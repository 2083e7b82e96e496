/** The `gain` function of gain.py end to end: read the parameter dictionary,
    derive the mask, normalise and zero-fill, restore or initialise, train,
    save, run the generator once over the whole data, merge, and post-process.
    The helpers of utils.py (normalization, renormalization, rounding,
    reverse_encoding) and the trained generator are inputs. */
module Gain {
  import opened Results
  import opened Matrices
  import opened GainMasks
  import opened GainTraining

  /** The settings `gain` reads from its `gain_parameters` dictionary. */
  datatype GainConfig = GainConfig(
    dataName: string, batchSize: int, hintRate: real, alpha: real,
    iterations: int, onehot: int, predict: bool)

  /** A value of the parameter dictionary. */
  datatype Param = PStr(s: string) | PInt(i: int) | PReal(r: real) | PBool(b: bool)

  /** Why reading the dictionary fails: a key is absent (Python's KeyError),
      or its value is not of the kind the key needs. */
  datatype ConfigError = KeyError(key: string) | WrongKind(key: string)

  /** The keys `gain` reads, in the order it reads them. */
  const ConfigKeys: seq<string> :=
    ["data_name", "batch_size", "hint_rate", "alpha", "iterations", "onehot", "predict"]

  function GetStr(p: map<string, Param>, key: string): Result<string, ConfigError> {
    if key !in p then Err(KeyError(key))
    else if p[key].PStr? then Ok(p[key].s) else Err(WrongKind(key))
  }

  function GetInt(p: map<string, Param>, key: string): Result<int, ConfigError> {
    if key !in p then Err(KeyError(key))
    else if p[key].PInt? then Ok(p[key].i) else Err(WrongKind(key))
  }

  /** A float setting; a Python int is accepted where a float is expected. */
  function GetReal(p: map<string, Param>, key: string): Result<real, ConfigError> {
    if key !in p then Err(KeyError(key))
    else if p[key].PReal? then Ok(p[key].r)
    else if p[key].PInt? then Ok(p[key].i as real)
    else Err(WrongKind(key))
  }

  function GetBool(p: map<string, Param>, key: string): Result<bool, ConfigError> {
    if key !in p then Err(KeyError(key))
    else if p[key].PBool? then Ok(p[key].b) else Err(WrongKind(key))
  }

  /** Key `k` is present with a value of the kind `gain` needs for it: a
      string for `data_name`, a bool for `predict`, a float or an int for
      `hint_rate` and `alpha`, and an int for every other key. */
  predicate KindOk(p: map<string, Param>, k: string) {
    && k in p
    && if k == "data_name" then p[k].PStr?
       else if k == "predict" then p[k].PBool?
       else if k == "hint_rate" || k == "alpha" then p[k].PReal? || p[k].PInt?
       else p[k].PInt?
  }

  /** All seven keys are present, each with a value of the kind it needs. */
  predicate WellKinded(p: map<string, Param>) {
    forall k :: k in ConfigKeys ==> KindOk(p, k)
  }

  /** Lines 45-51: read the seven settings in order; the first key that is
      absent raises `KeyError`, and the first that is present with a value of
      the wrong kind is reported as `WrongKind`. A dictionary holding all
      seven keys with values of the right kinds is read without error, and
      extra keys are ignored. */
  function ReadConfig(p: map<string, Param>): (r: Result<GainConfig, ConfigError>)
    ensures r.Err? ==> r.error.key in ConfigKeys
    ensures r.Err? && r.error.KeyError? ==> r.error.key !in p
    ensures r.Ok? ==> forall k :: k in ConfigKeys ==> k in p
    ensures r.Ok? ==>
      && p["data_name"] == PStr(r.value.dataName)
      && p["batch_size"] == PInt(r.value.batchSize)
      && GetReal(p, "hint_rate") == Ok(r.value.hintRate)
      && GetReal(p, "alpha") == Ok(r.value.alpha)
      && p["iterations"] == PInt(r.value.iterations)
      && p["onehot"] == PInt(r.value.onehot)
      && p["predict"] == PBool(r.value.predict)
    ensures WellKinded(p) ==> r.Ok?
    ensures forall i :: 0 <= i < |ConfigKeys| && (forall j :: 0 <= j < i ==> KindOk(p, ConfigKeys[j])) ==>
      && (ConfigKeys[i] !in p ==> r == Err(KeyError(ConfigKeys[i])))
      && (ConfigKeys[i] in p && !KindOk(p, ConfigKeys[i]) ==> r == Err(WrongKind(ConfigKeys[i])))
  {
    match GetStr(p, "data_name")
    case Err(e) => Err(e)
    case Ok(dataName) =>
      match GetInt(p, "batch_size")
      case Err(e) => Err(e)
      case Ok(batchSize) =>
        match GetReal(p, "hint_rate")
        case Err(e) => Err(e)
        case Ok(hintRate) =>
          match GetReal(p, "alpha")
          case Err(e) => Err(e)
          case Ok(alpha) =>
            match GetInt(p, "iterations")
            case Err(e) => Err(e)
            case Ok(iterations) =>
              match GetInt(p, "onehot")
              case Err(e) => Err(e)
              case Ok(onehot) =>
                match GetBool(p, "predict")
                case Err(e) => Err(e)
                case Ok(predict) =>
                  Ok(GainConfig(dataName, batchSize, hintRate, alpha, iterations, onehot, predict))
  }

  /** `model_path = 'model/' + data_name`. */
  function ModelPath(dataName: string): (path: string)
    ensures |path| == |dataName| + 6 && path[..6] == "model/" && path[6..] == dataName
  {
    "model/" + dataName
  }

  /** The per-feature (min, max) pairs `normalization` returns. */
  datatype NormParams = NormParams(minVal: seq<real>, maxVal: seq<real>)

  /** The fitted one-hot encoder handed through to `reverse_encoding`. */
  datatype Encoder = Encoder(categories: seq<seq<string>>)

  /** The helpers imported from utils.py. */
  datatype Utils = Utils(
    normalization: CellMatrix -> (CellMatrix, NormParams),
    renormalization: (Matrix, NormParams) -> Matrix,
    rounding: (Matrix, CellMatrix) -> Matrix,
    reverseEncoding: (Matrix, seq<string>, Encoder, int, nat) -> Matrix)

  /** The generator network as a function of theta_G and its inputs X, M,
      and the two solvers. */
  datatype Network = Network(generator: (seq<real>, Matrix, Matrix) -> Matrix, solvers: Solvers)

  /** The generator maps `no x dim` inputs to a `no x dim` output, whatever
      its parameters. */
  ghost predicate GeneratorFits(generator: (seq<real>, Matrix, Matrix) -> Matrix, no: nat, dim: nat) {
    forall theta, x, m :: IsShape(x, no, dim) && IsShape(m, no, dim) ==> IsShape(generator(theta, x, m), no, dim)
  }

  /** Lines 190-199: renormalise, round, and reverse-encode only when
      `onehot > 0`; otherwise the rounded matrix is the result. */
  function Finish(u: Utils, imputed: Matrix, np: NormParams, dataX: CellMatrix,
                  featureName: seq<string>, encoder: Encoder, onehot: int, oriDim: nat): (r: Matrix)
    ensures onehot <= 0 ==> r == u.rounding(u.renormalization(imputed, np), dataX)
    ensures onehot > 0 ==>
      r == u.reverseEncoding(u.rounding(u.renormalization(imputed, np), dataX), featureName, encoder, onehot, oriDim)
  {
    var rounded := u.rounding(u.renormalization(imputed, np), dataX);
    if onehot > 0 then u.reverseEncoding(rounded, featureName, encoder, onehot, oriDim) else rounded
  }

  /** `gain(data_x, feature_name, onehotencoder, ori_data_dim, gain_parameters)`
      with the dictionary already read into `cfg`. The random draws of the
      loop (`draws`, one per iteration) and of the final pass (`zFull`), the
      initial parameters and the networks are inputs.

      The parameters are restored exactly when `predict` holds and a
      checkpoint exists; exactly `RangeLen(iterations)` steps run on the
      batches the draws give; the store gains or overwrites the checkpoint
      exactly when `predict` is false; the result is the post-processed
      merge of the zero-filled normalised data (at observed cells) with one
      generator pass (at missing cells). */
  method Gain(dataX: CellMatrix, dim: nat, featureName: seq<string>, encoder: Encoder, oriDim: nat,
              cfg: GainConfig, u: Utils, net: Network, store: ModelStore, init: Params,
              draws: seq<Draw>, zFull: Matrix)
    returns (imputed: Matrix, sess: Session)
    requires IsShape(dataX, |dataX|, dim)
    requires IsShape(u.normalization(dataX).0, |dataX|, dim)
    requires GeneratorFits(net.generator, |dataX|, dim)
    requires |draws| == RangeLen(cfg.iterations)
    requires forall k :: 0 <= k < |draws| ==> DrawFits(draws[k], |dataX|, dim)
    requires IsShape(zFull, |dataX|, dim)
    modifies store
    ensures fresh(sess) && sess.Valid() && sess.solvers == net.solvers
    ensures sess.restored == (cfg.predict && ModelPath(cfg.dataName) in old(store.checkpoints))
    ensures sess.start == if sess.restored then old(store.checkpoints)[ModelPath(cfg.dataName)] else init
    ensures var m, normX := MaskOf(dataX), NanToNum(u.normalization(dataX).0);
      && |sess.fed| == RangeLen(cfg.iterations)
      && sess.fed == Batches(normX, m, dim, draws)
      && sess.params == Trained(net.solvers, sess.start, sess.fed)
      && imputed == Finish(u, Merge(m, normX, net.generator(sess.params.gen, Merge(m, normX, zFull), m)),
                           u.normalization(dataX).1, dataX, featureName, encoder, cfg.onehot, oriDim)
    ensures store.checkpoints ==
      if cfg.predict then old(store.checkpoints)
      else old(store.checkpoints)[ModelPath(cfg.dataName) := sess.params]
  {
    // Define mask matrix
    var dataM := MaskOf(dataX);
    var modelPath := ModelPath(cfg.dataName);

    // Normalization, then zero-fill
    var (normData, normParameters) := u.normalization(dataX);
    var normDataX := NanToNum(normData);

    // Restore or initialise, then iterate
    sess := new Session(net.solvers, store, modelPath, cfg.predict, init);
    sess.Train(normDataX, dataM, dim, cfg.iterations, draws);
    if !cfg.predict {
      store.Save(modelPath, sess.params);
    }

    // One generator pass over the full data, merged with the observed values
    var xIn := Merge(dataM, normDataX, zFull);
    var g := net.generator(sess.params.gen, xIn, dataM);
    var merged := Merge(dataM, normDataX, g);

    imputed := Finish(u, merged, normParameters, dataX, featureName, encoder, cfg.onehot, oriDim);
  }

  /** A training run followed by a predict-mode run on the same store: the
      second run restores what the first one saved, so its parameters are
      those of one run over the batches of both. */
  method TrainThenPredict(dataX: CellMatrix, dim: nat, featureName: seq<string>, encoder: Encoder, oriDim: nat,
                          cfg: GainConfig, u: Utils, net: Network, store: ModelStore, init: Params,
                          draws1: seq<Draw>, z1: Matrix, draws2: seq<Draw>, z2: Matrix)
    returns (first: Session, second: Session)
    requires !cfg.predict
    requires IsShape(dataX, |dataX|, dim)
    requires IsShape(u.normalization(dataX).0, |dataX|, dim)
    requires GeneratorFits(net.generator, |dataX|, dim)
    requires |draws1| == |draws2| == RangeLen(cfg.iterations)
    requires forall k :: 0 <= k < |draws1| ==> DrawFits(draws1[k], |dataX|, dim) && DrawFits(draws2[k], |dataX|, dim)
    requires IsShape(z1, |dataX|, dim) && IsShape(z2, |dataX|, dim)
    modifies store
    ensures !first.restored && first.start == init
    ensures second.restored && second.start == first.params
    ensures second.params == Trained(net.solvers, init, first.fed + second.fed)
    ensures store.checkpoints == old(store.checkpoints)[ModelPath(cfg.dataName) := first.params]
  {
    var imputed1, imputed2;
    imputed1, first := Gain(dataX, dim, featureName, encoder, oriDim, cfg, u, net, store, init, draws1, z1);
    imputed2, second := Gain(dataX, dim, featureName, encoder, oriDim, cfg.(predict := true), u, net, store, init, draws2, z2);
    TrainedAppend(net.solvers, init, first.fed, second.fed);
  }
}
