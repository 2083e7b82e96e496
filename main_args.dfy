/** main.py: the `str2bool` validator of the `--predict` option and the
    `gain_parameters` dictionary handed to `gain`. */
module MainArgs {
  import opened Results
  import Gain

  /** What argparse hands `str2bool`: the default (a bool) or the text typed
      on the command line. */
  datatype ArgValue = BoolArg(b: bool) | StrArg(s: string)

  datatype ArgumentTypeError = ArgumentTypeError(message: string)

  /** `str.lower()` of one character, on the letters A to Z. */
  function LowerChar(c: char): char {
    if 'A' <= c <= 'Z' then (c as int + 32) as char else c
  }

  /** `str.lower()`: every character lowered, nothing added or removed. */
  function Lower(s: string): (r: string)
    ensures |r| == |s| && forall i :: 0 <= i < |s| ==> r[i] == LowerChar(s[i])
  {
    seq(|s|, i requires 0 <= i < |s| => LowerChar(s[i]))
  }

  const TrueWords: set<string> := {"yes", "true", "t", "y", "1"}
  const FalseWords: set<string> := {"no", "false", "f", "n", "0"}

  /** Two strings that differ only in the case of their letters. */
  predicate SameIgnoringCase(s: string, t: string) {
    |s| == |t| && forall i :: 0 <= i < |s| ==> LowerChar(s[i]) == LowerChar(t[i])
  }

  /** Lines 17-25: a bool is returned as it is; a string is lowered and
      looked up in the true-words, then the false-words; anything else
      raises `ArgumentTypeError('Boolean value expected.')`. */
  function Str2Bool(v: ArgValue): (r: Result<bool, ArgumentTypeError>)
    ensures v.BoolArg? ==> r == Ok(v.b)
    ensures v.StrArg? ==> (r == Ok(true) <==> Lower(v.s) in TrueWords)
    ensures v.StrArg? ==> (r == Ok(false) <==> Lower(v.s) in FalseWords)
    ensures r.Err? <==> v.StrArg? && Lower(v.s) !in TrueWords + FalseWords
    ensures r.Err? ==> r.error == ArgumentTypeError("Boolean value expected.")
  {
    match v
    case BoolArg(b) => Ok(b)
    case StrArg(s) =>
      if Lower(s) in TrueWords then Ok(true)
      else if Lower(s) in FalseWords then Ok(false)
      else Err(ArgumentTypeError("Boolean value expected."))
  }

  /** Lowering twice lowers no further. */
  lemma LowerIdempotent(s: string)
    ensures Lower(Lower(s)) == Lower(s)
  {
    var once := Lower(s);
    assert forall i :: 0 <= i < |s| ==> Lower(once)[i] == once[i];
  }

  /** Strings that differ only in letter case get the same answer. */
  lemma CaseInsensitive(s: string, t: string)
    requires SameIgnoringCase(s, t)
    ensures Str2Bool(StrArg(s)) == Str2Bool(StrArg(t))
  {
    assert Lower(s) == Lower(t);
  }

  /** Every accepted word is already in lower case. */
  lemma WordsAreLower()
    ensures forall w :: w in TrueWords + FalseWords ==> Lower(w) == w
  {
    assert Lower("yes") == "yes";
    assert Lower("true") == "true";
    assert Lower("t") == "t";
    assert Lower("y") == "y";
    assert Lower("1") == "1";
    assert Lower("no") == "no";
    assert Lower("false") == "false";
    assert Lower("f") == "f";
    assert Lower("n") == "n";
    assert Lower("0") == "0";
  }

  /** 'yes', 'true', 't', 'y', '1' in any letter case give True;
      'no', 'false', 'f', 'n', '0' in any letter case give False. */
  lemma AcceptsAnyCase(s: string, w: string)
    requires SameIgnoringCase(s, w)
    ensures w in TrueWords ==> Str2Bool(StrArg(s)) == Ok(true)
    ensures w in FalseWords ==> Str2Bool(StrArg(s)) == Ok(false)
  {
    WordsAreLower();
    CaseInsensitive(s, w);
  }

  /** A string that is none of the ten words in any letter case raises and
      never yields a bool. */
  lemma RejectsOthers(s: string)
    requires forall w :: w in TrueWords + FalseWords ==> !SameIgnoringCase(s, w)
    ensures Str2Bool(StrArg(s)) == Err(ArgumentTypeError("Boolean value expected."))
  {
    var low := Lower(s);
    assert SameIgnoringCase(s, low) by {
      forall i | 0 <= i < |s|
        ensures LowerChar(s[i]) == LowerChar(low[i])
      {
      }
    }
  }

  /** The true-words and the false-words have nothing in common, so no
      string is both accepted as True and as False. */
  lemma WordsDisjoint()
    ensures TrueWords * FalseWords == {}
  {
  }

  /** A few answers worked out. */
  lemma Str2BoolExamples()
    ensures Str2Bool(StrArg("TRUE")) == Ok(true)
    ensures Str2Bool(StrArg("No")) == Ok(false)
    ensures Str2Bool(StrArg("maybe")).Err?
    ensures Str2Bool(BoolArg(false)) == Ok(false)
  {
    assert Lower("TRUE") == "true";
    assert Lower("No") == "no";
    assert Lower("maybe") == "maybe";
  }

  /** A number argparse hands back: `type=float` converts a value given on
      the command line, but a default that is not a string is kept as it is,
      so an absent `--alpha` stays the int `100` (lines 89-93). */
  datatype Number = IntNumber(i: int) | RealNumber(r: real)

  /** The value a Python float expression sees: an int widens to a float. */
  function AsReal(n: Number): real {
    match n
    case IntNumber(i) => i as real
    case RealNumber(r) => r
  }

  /** The parsed command line (`args`). */
  datatype Args = Args(
    dataName: string, missRate: real, batchSize: int, hintRate: real,
    alpha: Number, iterations: int, onehot: int, predict: bool)

  /** Lines 47-53: the dictionary of the seven GAIN settings, each under its
      own name, with `alpha` an int or a float as argparse left it.
      `miss_rate` is not among them. */
  function GainParameters(a: Args): (p: map<string, Gain.Param>)
    ensures p.Keys == set k | k in Gain.ConfigKeys
    ensures p["alpha"].PInt? <==> a.alpha.IntNumber?
  {
    map[
      "data_name" := Gain.PStr(a.dataName),
      "batch_size" := Gain.PInt(a.batchSize),
      "hint_rate" := Gain.PReal(a.hintRate),
      "alpha" := (match a.alpha
                  case IntNumber(i) => Gain.PInt(i)
                  case RealNumber(r) => Gain.PReal(r)),
      "iterations" := Gain.PInt(a.iterations),
      "onehot" := Gain.PInt(a.onehot),
      "predict" := Gain.PBool(a.predict)]
  }

  /** What `gain` reads back from the dictionary is the command line's value
      of the same name, unchanged, for every one of the seven settings; an
      int `alpha` is read as the float of the same value. */
  lemma ParametersRoundTrip(a: Args)
    ensures Gain.ReadConfig(GainParameters(a)) ==
      Ok(Gain.GainConfig(a.dataName, a.batchSize, a.hintRate, AsReal(a.alpha), a.iterations, a.onehot, a.predict))
  {
  }
}
