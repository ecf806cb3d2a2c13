/**
 * The main sweep of the script: for each error rate of the grid it builds
 * and runs the circuit a hundred times, takes the most frequent outcome
 * string of each run, parses it as a binary number, compares it with the
 * bit the chosen logical state should give, and records the fraction of
 * successes.
 *
 * The simulator is out of reach: the counts a run returns are supplied as
 * `run(i, attempt)`, and the random samples of the error step of that
 * attempt as `draw(i, attempt)`.
 */
module Scoring {
  import opened Wrappers
  import opened Binary
  import opened FiveQubitCode
  import Builder

  /** The counts of one run, `get_counts()`: outcome strings with their
      numbers of shots, in the order the dict yields them. */
  type Counts = seq<(string, nat)>

  /** Attempts per grid point. */
  const Attempts: nat := 100

  // ---------------------------------------------------------------------
  // Most frequent outcome
  // ---------------------------------------------------------------------

  /** Item `i` has the largest count, and every item before it a smaller one. */
  predicate IsFirstMax(c: Counts, i: nat)
  {
    i < |c| &&
    (forall j :: 0 <= j < |c| ==> c[j].1 <= c[i].1) &&
    (forall j :: 0 <= j < i ==> c[j].1 < c[i].1)
  }

  /** `max(counts, key=counts.get)` as Python scans: left to right, a later
      item replaces the best one only when its count is strictly larger. */
  function MaxIndex(c: Counts): (i: nat)
    requires |c| > 0
    ensures i < |c|
  {
    if |c| == 1 then 0
    else
      var b := MaxIndex(c[..|c| - 1]);
      if c[|c| - 1].1 > c[b].1 then |c| - 1 else b
  }

  /** The scan finds the first item with the largest count, and that item
      is the only one with this property. */
  lemma {:induction false} MaxIndexIsFirstMax(c: Counts)
    requires |c| > 0
    ensures IsFirstMax(c, MaxIndex(c))
    ensures forall i :: IsFirstMax(c, i) ==> i == MaxIndex(c)
  {
    if |c| > 1 {
      var init := c[..|c| - 1];
      MaxIndexIsFirstMax(init);
      assert forall j :: 0 <= j < |init| ==> init[j] == c[j];
    }
  }

  /** The outcome string `max` returns, or the `ValueError` it raises on
      empty counts. */
  function MostFrequent(counts: Counts): (r: Result<string, PyError>)
    ensures r.Err? <==> |counts| == 0
    ensures r.Err? ==> r.error == ValueError
    ensures r.Ok? ==> exists i: nat :: IsFirstMax(counts, i) && r.value == counts[i].0
  {
    if |counts| == 0 then Err(ValueError)
    else
      MaxIndexIsFirstMax(counts);
      Ok(counts[MaxIndex(counts)].0)
  }

  // ---------------------------------------------------------------------
  // Parse and success test
  // ---------------------------------------------------------------------

  /** `int(bit_str.replace(" ", ""), 2)`, or the `ValueError` it raises. */
  function ParseOutcome(bitStr: string): Result<nat, PyError>
  {
    match ParseBinary(RemoveSpaces(bitStr))
    case None => Err(ValueError)
    case Some(v) => Ok(v)
  }

  /** The value the parse must give for a logical success: 0 for the flags
      (0, 0) and (1, 0), 1 for every other pair. */
  function ExpectedBit(x1: int, x2: int): nat
  {
    if (x1, x2) == (0, 0) || (x1, x2) == (1, 0) then 0 else 1
  }

  /** The outcome of one attempt: the error it raises, or whether it counts
      as a success. The builder is called first, so a preparation error
      comes before any error of the scoring. */
  function AttemptResult(x1: int, x2: int, counts: Counts): Result<bool, PyError>
  {
    match PreparationError(x1, x2)
    case Some(e) => Err(e)
    case None =>
      match MostFrequent(counts)
      case Err(e) => Err(e)
      case Ok(bitStr) =>
        match ParseOutcome(bitStr)
        case Err(e) => Err(e)
        case Ok(bit) => Ok(bit == ExpectedBit(x1, x2))
  }

  /** An attempt raises nothing exactly when the flags are (0, 0), the
      counts are non-empty and the most frequent string, without its
      spaces, is a binary numeral; any other attempt raises the error of
      the preparation, or `ValueError`. */
  lemma AttemptOk(x1: int, x2: int, counts: Counts)
    ensures AttemptResult(x1, x2, counts).Ok? <==>
      x1 == 0 && x2 == 0 && |counts| > 0 &&
      IsBinaryDigits(RemoveSpaces(counts[MaxIndex(counts)].0))
    ensures AttemptResult(x1, x2, counts).Err? ==>
      AttemptResult(x1, x2, counts).error ==
        if PreparationError(x1, x2).Some? then PreparationError(x1, x2).value else ValueError
  {
  }

  /** An attempt succeeds exactly when the parse gives the expected bit:
      for the expected bit 0, the spaceless string is all '0'; for 1, it
      is '0's followed by a single '1'. The syndrome bits are part of the
      string, so a fired syndrome makes the attempt fail. */
  lemma AttemptSucceeds(x1: int, x2: int, counts: Counts)
    requires x1 == 0 && x2 == 0 && |counts| > 0
    ensures AttemptResult(x1, x2, counts) == Ok(true) <==>
      ParseBinary(RemoveSpaces(counts[MaxIndex(counts)].0)) == Some(ExpectedBit(x1, x2))
    ensures AttemptResult(x1, x2, counts) == Ok(true) <==>
      var s := RemoveSpaces(counts[MaxIndex(counts)].0);
      |s| > 0 && forall k :: 0 <= k < |s| ==> s[k] == '0'
  {
    var s := RemoveSpaces(counts[MaxIndex(counts)].0);
    ParsesToZero(s);
  }

  /** For the flags other than (0, 0) and (1, 0) the expected parse is 1:
      a single '1' in the last position with '0's before it. */
  lemma ExpectedOne(x1: int, x2: int, s: string)
    requires (x1, x2) != (0, 0) && (x1, x2) != (1, 0)
    ensures ParseBinary(s) == Some(ExpectedBit(x1, x2)) <==>
      |s| > 0 && s[|s| - 1] == '1' && forall k :: 0 <= k < |s| - 1 ==> s[k] == '0'
  {
    ParsesToOne(s);
  }

  // ---------------------------------------------------------------------
  // Successes per grid point
  // ---------------------------------------------------------------------

  /** The outcome of every attempt: `f(i, j)` for attempt `j` at grid
      point `i`. */
  type Table = (nat, nat) -> Result<bool, PyError>

  /** The counter `successes` after the first `n` attempts at grid point
      `i`: it starts at 0 and goes up by one per success, until an attempt
      raises. */
  function Score(f: Table, i: nat, n: nat): (r: Result<nat, PyError>)
    ensures r.Ok? ==> r.value <= n
  {
    if n == 0 then Ok(0)
    else
      match Score(f, i, n - 1)
      case Err(e) => Err(e)
      case Ok(k) =>
        match f(i, n - 1)
        case Err(e) => Err(e)
        case Ok(b) => Ok(if b then k + 1 else k)
  }

  /** The successful attempts among the first `n` at grid point `i`. */
  function Successes(f: Table, i: nat, n: nat): set<nat>
  {
    set j: nat | j < n && f(i, j) == Ok(true)
  }

  /** The counter raises nothing exactly when no attempt raises, and then
      it is the number of successful attempts. */
  lemma {:induction false} ScoreCountsSuccesses(f: Table, i: nat, n: nat)
    ensures Score(f, i, n).Ok? <==> forall j :: 0 <= j < n ==> f(i, j).Ok?
    ensures Score(f, i, n).Ok? ==> Score(f, i, n).value == |Successes(f, i, n)|
  {
    if n > 0 {
      ScoreCountsSuccesses(f, i, n - 1);
      var prev := Successes(f, i, n - 1);
      var cur := Successes(f, i, n);
      if f(i, n - 1) == Ok(true) {
        assert cur == prev + {n - 1};
        assert n - 1 !in prev;
      } else {
        assert cur == prev;
      }
    }
  }

  /** An error is that of the first attempt that raises. */
  lemma {:induction false} ScoreError(f: Table, i: nat, n: nat)
    requires Score(f, i, n).Err?
    ensures exists j :: (0 <= j < n && f(i, j) == Err(Score(f, i, n).error) &&
      forall j' :: 0 <= j' < j ==> f(i, j').Ok?)
  {
    if Score(f, i, n - 1).Err? {
      ScoreError(f, i, n - 1);
    } else {
      ScoreCountsSuccesses(f, i, n - 1);
      assert f(i, n - 1) == Err(Score(f, i, n).error);
    }
  }

  /** Once an attempt has raised, later attempts do not change the outcome. */
  lemma {:induction false} ScoreErrorStays(f: Table, i: nat, a: nat, n: nat)
    requires a <= n && Score(f, i, a).Err?
    ensures Score(f, i, n) == Score(f, i, a)
    decreases n - a
  {
    if a < n {
      ScoreErrorStays(f, i, a, n - 1);
    }
  }

  // ---------------------------------------------------------------------
  // The sweep
  // ---------------------------------------------------------------------

  /** The list `sprobs` after the first `n` grid points of `m` attempts
      each: each counter divided by 100 is appended in turn, until a grid
      point raises. */
  function SweepResult(f: Table, n: nat, m: nat): (r: Result<seq<real>, PyError>)
    ensures r.Ok? ==> |r.value| == n
  {
    if n == 0 then Ok([])
    else
      match SweepResult(f, n - 1, m)
      case Err(e) => Err(e)
      case Ok(s) =>
        match Score(f, n - 1, m)
        case Err(e) => Err(e)
        case Ok(k) => Ok(s + [k as real / 100.0])
  }

  /** The sweep raises nothing exactly when no attempt raises; then it
      holds one value per grid point, the number of successful attempts of
      that point alone divided by 100, and each value lies in [0, 1]. */
  lemma {:induction false} SweepProbabilities(f: Table, n: nat, m: nat)
    requires m <= 100
    ensures SweepResult(f, n, m).Ok? <==>
      forall i :: 0 <= i < n ==> Score(f, i, m).Ok?
    ensures SweepResult(f, n, m).Ok? ==>
      forall i :: 0 <= i < n ==>
        SweepResult(f, n, m).value[i] == |Successes(f, i, m)| as real / 100.0 &&
        0.0 <= SweepResult(f, n, m).value[i] <= 1.0
  {
    if n > 0 {
      SweepProbabilities(f, n - 1, m);
      ScoreCountsSuccesses(f, n - 1, m);
      if SweepResult(f, n, m).Ok? {
        var s := SweepResult(f, n, m).value;
        var prev := SweepResult(f, n - 1, m).value;
        assert s == prev + [Score(f, n - 1, m).value as real / 100.0];
        forall i | 0 <= i < n
          ensures s[i] == |Successes(f, i, m)| as real / 100.0 && 0.0 <= s[i] <= 1.0
        {
          if i < n - 1 {
            assert s[i] == prev[i];
          }
        }
      }
    }
  }

  /** Once a grid point has raised, the sweep ends with that error. */
  lemma {:induction false} SweepErrorStays(f: Table, a: nat, n: nat, m: nat)
    requires a <= n && SweepResult(f, a, m).Err?
    ensures SweepResult(f, n, m) == SweepResult(f, a, m)
    decreases n - a
  {
    if a < n {
      SweepErrorStays(f, a, n - 1, m);
    }
  }

  /** One attempt, lines 157-171: build the circuit, take the most frequent
      outcome of the supplied counts, parse it, and test it. */
  method RunAttempt(x1: int, x2: int, p: real, r: nat -> real, counts: Counts)
    returns (res: Result<bool, PyError>)
    ensures res == AttemptResult(x1, x2, counts)
  {
    var built := Builder.FiveQubitsWithRandomPauli(x1, x2, p, r);
    if built.Err? {
      return Err(built.error);
    }
    var best := MostFrequent(counts);
    if best.Err? {
      return Err(best.error);
    }
    var bit := ParseOutcome(best.value);
    if bit.Err? {
      return Err(bit.error);
    }
    var value := bit.value;
    if (x1, x2) == (0, 0) || (x1, x2) == (1, 0) {
      res := Ok(value == 0);
    } else {
      res := Ok(value == 1);
    }
  }

  /** The outcome table the supplied runs determine. */
  function Results(x1: int, x2: int, run: (nat, nat) -> Counts): Table
  {
    (i: nat, j: nat) => AttemptResult(x1, x2, run(i, j))
  }

  /** The attempts at one grid point, lines 156-171: reset the counter,
      then run the attempts and count those that succeed. `f` is the
      outcome table of the runs. */
  method RunPoint(x1: int, x2: int, p: real, i: nat, draw: (nat, nat) -> (nat -> real), run: (nat, nat) -> Counts,
                  ghost f: Table)
    returns (res: Result<nat, PyError>)
    requires forall j {:trigger run(i, j)} :: f(i, j) == AttemptResult(x1, x2, run(i, j))
    ensures res == Score(f, i, Attempts)
  {
    var successes: nat := 0;
    for attempt := 0 to Attempts
      invariant Score(f, i, attempt) == Ok(successes)
    {
      var outcome := RunAttempt(x1, x2, p, draw(i, attempt), run(i, attempt));
      if outcome.Err? {
        res := Err(outcome.error);
        AttemptFails(f, i, attempt, Attempts, res.error);
        return;
      }
      if outcome.value {
        successes := successes + 1;
      }
    }
    res := Ok(successes);
  }

  /** The main loop, lines 155-175: for every grid point, run its attempts
      and append the success fraction. */
  method Sweep(x1: int, x2: int, grid: seq<real>, draw: (nat, nat) -> (nat -> real), run: (nat, nat) -> Counts,
               ghost f: Table)
    returns (res: Result<seq<real>, PyError>)
    requires forall i, j {:trigger run(i, j)} :: f(i, j) == AttemptResult(x1, x2, run(i, j))
    ensures res == SweepResult(f, |grid|, Attempts)
  {
    var sprobs: seq<real> := [];
    for i := 0 to |grid|
      invariant SweepResult(f, i, Attempts) == Ok(sprobs)
    {
      var successes := RunPoint(x1, x2, grid[i], i, draw, run, f);
      if successes.Err? {
        res := Err(successes.error);
        PointFails(f, i, Attempts, |grid|, res.error);
        return;
      }
      var sprob := successes.value as real / 100.0;
      sprobs := sprobs + [sprob];
    }
    res := Ok(sprobs);
  }

  /** The script's own sweep, with the flags `x1, x2 = 0, 0` of line 147:
      it completes exactly when every grid point does, and then holds one
      success fraction in [0, 1] per grid point. */
  method ScriptSweep(grid: seq<real>, draw: (nat, nat) -> (nat -> real), run: (nat, nat) -> Counts)
    returns (res: Result<seq<real>, PyError>)
    ensures res.Ok? <==> forall i :: 0 <= i < |grid| ==> Score(Results(0, 0, run), i, Attempts).Ok?
    ensures res.Ok? ==> |res.value| == |grid|
    ensures res.Ok? ==> forall i :: 0 <= i < |grid| ==>
      res.value[i] == |Successes(Results(0, 0, run), i, Attempts)| as real / 100.0 &&
      0.0 <= res.value[i] <= 1.0
  {
    ghost var f := Results(0, 0, run);
    res := Sweep(0, 0, grid, draw, run, f);
    SweepProbabilities(f, |grid|, Attempts);
  }

  /** An attempt that raises ends its grid point with its error. */
  lemma AttemptFails(f: Table, i: nat, a: nat, m: nat, e: PyError)
    requires a < m && Score(f, i, a).Ok? && f(i, a) == Err(e)
    ensures Score(f, i, m) == Err(e)
  {
    ScoreErrorStays(f, i, a + 1, m);
  }

  /** A grid point that raises ends the whole sweep with its error. */
  lemma PointFails(f: Table, i: nat, m: nat, n: nat, e: PyError)
    requires i < n && SweepResult(f, i, m).Ok? && Score(f, i, m) == Err(e)
    ensures SweepResult(f, n, m) == Err(e)
  {
    SweepErrorStays(f, i + 1, n, m);
  }
}
