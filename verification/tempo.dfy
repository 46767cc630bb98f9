/**
 * Speed change: the video timestamps are scaled once by `1/speed`, while
 * the audio speed is split into a chain of `atempo` stages because one
 * stage only accepts factors in [0.5, 2.0].
 */
module Tempo {
  import opened Common

  /** The tempo filter's accepted range for one stage. */
  const MinStage: real := 0.5
  const MaxStage: real := 2.0

  /** Remainders this close to 1 are dropped instead of emitted as a last stage. */
  const SlowCutoff: real := 0.99
  const FastCutoff: real := 1.01

  datatype SpeedError = NonPositiveSpeed | InputNotFound(path: string)

  function SpeedErrorMessage(e: SpeedError): string
  {
    match e
    case NonPositiveSpeed => "Error: Speed factor must be positive."
    case InputNotFound(path) => "Error: Input video file not found at " + path
  }

  /** The plan: `setpts` multiplier for the video, `atempo` stages for the audio, in order. */
  datatype SpeedPlan = SpeedPlan(ptsFactor: real, stages: seq<real>)

  function Product(s: seq<real>): real
  {
    if |s| == 0 then 1.0 else s[0] * Product(s[1..])
  }

  lemma {:induction false} ProductAppend(s: seq<real>, x: real)
    ensures Product(s + [x]) == Product(s) * x
  {
    if |s| != 0 {
      assert (s + [x])[1..] == s[1..] + [x];
      ProductAppend(s[1..], x);
    }
  }

  lemma {:induction false} ProductPositive(s: seq<real>)
    requires InRange(s)
    ensures Product(s) > 0.0
  {
    if |s| != 0 {
      assert InRange(s[1..]) by {
        forall i | 0 <= i < |s[1..]| ensures MinStage <= s[1..][i] <= MaxStage { assert s[1..][i] == s[i + 1]; }
      }
      ProductPositive(s[1..]);
      assert s[0] > 0.0;
    }
  }

  /** Multiplying by a positive factor keeps the order of two reals. */
  lemma MulMono(a: real, b: real, p: real)
    requires p > 0.0
    ensures a < b ==> a * p < b * p
    ensures a <= b ==> a * p <= b * p
  {
    assert b * p - a * p == (b - a) * p;
  }

  /** The bounds a remainder `v` in `[lo, hi]` puts on the factor `f == v * p`. */
  lemma RemainderBounds(v: real, p: real, f: real, lo: real, hi: real)
    requires p > 0.0 && v * p == f && lo <= v <= hi
    ensures lo * p <= f <= hi * p
    ensures lo < v ==> lo * p < f
    ensures v < hi ==> f < hi * p
  {
    MulMono(lo, v, p);
    MulMono(v, hi, p);
  }

  /** A dropped slow remainder leaves the chain's product slightly above the factor. */
  lemma DroppedSlow(stages: seq<real>, v: real, f: real)
    requires InRange(stages) && v * Product(stages) == f && SlowCutoff <= v < 1.0
    ensures SlowCutoff * Product(stages) <= f < Product(stages)
  {
    ProductPositive(stages);
    RemainderBounds(v, Product(stages), f, SlowCutoff, 1.0);
    assert 1.0 * Product(stages) == Product(stages);
  }

  /** A dropped fast remainder leaves the chain's product slightly below the factor. */
  lemma DroppedFast(stages: seq<real>, v: real, f: real)
    requires InRange(stages) && v * Product(stages) == f && 1.0 < v <= FastCutoff
    ensures Product(stages) < f <= FastCutoff * Product(stages)
  {
    ProductPositive(stages);
    RemainderBounds(v, Product(stages), f, 1.0, FastCutoff);
    assert 1.0 * Product(stages) == Product(stages);
  }

  function Pow2(k: nat): (r: real)
    ensures r >= 1.0
  {
    if k == 0 then 1.0 else 2.0 * Pow2(k - 1)
  }

  lemma {:induction false} Pow2AtLeast(k: nat)
    ensures Pow2(k) >= k as real
  {
    if k > 0 {
      Pow2AtLeast(k - 1);
    }
  }

  /** Enough doublings lift any positive factor to 0.5. */
  lemma DoublingsReach(f: real) returns (n: nat)
    requires 0.0 < f
    ensures f * Pow2(n) >= MinStage
  {
    var q := MinStage / f;
    assert q * f == MinStage;
    n := q.Floor + 1;
    Pow2AtLeast(n);
    assert q < Pow2(n);
    MulMono(q, Pow2(n), f);
    assert Pow2(n) * f == f * Pow2(n);
  }

  /** Enough halvings bring any factor down to 2.0. */
  lemma HalvingsReach(f: real) returns (n: nat)
    requires 0.0 < f
    ensures f <= MaxStage * Pow2(n)
  {
    n := f.Floor + 1;
    Pow2AtLeast(n);
    assert f < Pow2(n);
    MulMono(1.0, MaxStage, Pow2(n));
  }

  /** One more doubling: the remainder `f * 2^n` divided by 0.5 is `f * 2^(n+1)`. */
  lemma DoublingStep(f: real, n: nat)
    ensures (f * Pow2(n)) / MinStage == f * Pow2(n + 1)
  {
    assert Pow2(n + 1) == 2.0 * Pow2(n);
  }

  /**
   * One more halving while the remainder `v` is above 2.0: the chain so far
   * has not reached the bound, and `v * q == f` carries over to the halved
   * remainder and the doubled power.
   */
  lemma HalvingStep(v: real, q: real, f: real)
    requires q >= 1.0 && v > MaxStage && v * q == f
    ensures MaxStage * q < f
    ensures (v / MaxStage) * (2.0 * q) == f
  {
    MulMono(MaxStage, v, q);
  }

  /** A run of 0.5 stages multiplies to the inverse of the matching power of two. */
  lemma {:induction false} HalvesProduct(stages: seq<real>)
    requires forall i :: 0 <= i < |stages| ==> stages[i] == MinStage
    ensures Product(stages) * Pow2(|stages|) == 1.0
  {
    if |stages| != 0 {
      var rest := stages[1..];
      assert forall i :: 0 <= i < |rest| ==> rest[i] == stages[i + 1];
      HalvesProduct(rest);
      assert Pow2(|stages|) == 2.0 * Pow2(|rest|);
      Regroup(Product(rest), Pow2(|rest|));
    }
  }

  lemma Regroup(p: real, q: real)
    ensures (MinStage * p) * (2.0 * q) == p * q
  {
  }

  /** A run of 2.0 stages multiplies to the matching power of two. */
  lemma {:induction false} DoublesProduct(stages: seq<real>)
    requires forall i :: 0 <= i < |stages| ==> stages[i] == MaxStage
    ensures Product(stages) == Pow2(|stages|)
  {
    if |stages| != 0 {
      var rest := stages[1..];
      assert forall i :: 0 <= i < |rest| ==> rest[i] == stages[i + 1];
      DoublesProduct(rest);
    }
  }

  /** `(f * q) * p == f` when `p` and `q` are inverse. */
  lemma Cancel(f: real, q: real, p: real)
    requires p * q == 1.0
    ensures (f * q) * p == f
  {
    assert (f * q) * p == f * (p * q);
  }

  /** Every stage of `stages` is within the range one tempo filter accepts. */
  predicate InRange(stages: seq<real>)
  {
    forall i :: 0 <= i < |stages| ==> MinStage <= stages[i] <= MaxStage
  }

  /**
   * How a factor below 0.5 is split: 0.5 stages and then either a last
   * remainder in [0.5, 0.99) making the product exactly the factor, or no
   * remainder, when it would have been in [0.99, 1).
   */
  predicate SlowSplit(f: real, stages: seq<real>)
  {
    && |stages| >= 1
    && (forall i :: 0 <= i < |stages| - 1 ==> stages[i] == MinStage)
    && ((Product(stages) == f && MinStage <= stages[|stages| - 1] < SlowCutoff)
        || (stages[|stages| - 1] == MinStage && SlowCutoff * Product(stages) <= f < Product(stages)))
  }

  /**
   * How a factor above 2.0 is split: 2.0 stages and then either a last
   * remainder in (1.01, 2.0] making the product exactly the factor, or no
   * remainder, when it would have been in (1, 1.01].
   */
  predicate FastSplit(f: real, stages: seq<real>)
  {
    && |stages| >= 1
    && (forall i :: 0 <= i < |stages| - 1 ==> stages[i] == MaxStage)
    && ((Product(stages) == f && FastCutoff < stages[|stages| - 1] <= MaxStage)
        || (stages[|stages| - 1] == MaxStage && Product(stages) < f <= FastCutoff * Product(stages)))
  }

  /**
   * The audio chain for a positive speed factor. A factor in range is one
   * stage. A slower one is a run of 0.5 stages whose product, times the
   * remainder, is the factor; the remainder is a last stage unless it is at
   * least 0.99 and then it is dropped. A faster one is the mirror image with
   * 2.0 stages and a cutoff of 1.01.
   */
  method AtempoChain(f: real) returns (stages: seq<real>)
    requires f > 0.0
    ensures InRange(stages) && |stages| >= 1
    ensures MinStage <= f <= MaxStage ==> stages == [f]
    ensures f < MinStage ==> SlowSplit(f, stages)
    ensures f > MaxStage ==> FastSplit(f, stages)
  {
    if f < MinStage {
      stages := SlowChain(f);
    } else if f > MaxStage {
      stages := FastChain(f);
    } else {
      stages := [f];
    }
  }

  /** The slow branch: halve the tempo until the remainder reaches 0.5. */
  method SlowChain(f: real) returns (stages: seq<real>)
    requires 0.0 < f < MinStage
    ensures InRange(stages) && |stages| >= 1
    ensures SlowSplit(f, stages)
  {
    var v := f;
    stages := [];
    ghost var bound := DoublingsReach(f);
    while v < MinStage
      invariant 0.0 < v && v == f * Pow2(|stages|)
      invariant |stages| <= bound
      invariant |stages| > 0 ==> v < 2.0 * MinStage
      invariant |stages| == 0 ==> v == f
      invariant forall i :: 0 <= i < |stages| ==> stages[i] == MinStage
      decreases bound - |stages|
    {
      DoublingStep(f, |stages|);
      stages := stages + [MinStage];
      v := v / MinStage;
    }
    HalvesProduct(stages);
    Cancel(f, Pow2(|stages|), Product(stages));
    assert |stages| > 0;
    if v < SlowCutoff {
      ProductAppend(stages, v);
      assert Product(stages + [v]) == f;
      stages := stages + [v];
      assert Product(stages) == f;
    } else {
      DroppedSlow(stages, v, f);
      assert stages[|stages| - 1] == MinStage;
    }
  }

  /** The fast branch: double the tempo until the remainder drops to 2.0. */
  method FastChain(f: real) returns (stages: seq<real>)
    requires f > MaxStage
    ensures InRange(stages) && |stages| >= 1
    ensures FastSplit(f, stages)
  {
    var v := f;
    stages := [];
    ghost var bound := HalvingsReach(f);
    while v > MaxStage
      invariant 0.0 < v
      invariant v * Pow2(|stages|) == f
      invariant |stages| <= bound
      invariant |stages| > 0 ==> v > MaxStage / 2.0
      invariant |stages| == 0 ==> v == f
      invariant forall i :: 0 <= i < |stages| ==> stages[i] == MaxStage
      decreases bound - |stages|
    {
      HalvingStep(v, Pow2(|stages|), f);
      assert Pow2(|stages| + 1) == 2.0 * Pow2(|stages|);
      stages := stages + [MaxStage];
      v := v / MaxStage;
    }
    DoublesProduct(stages);
    assert |stages| > 0;
    if v > FastCutoff {
      ProductAppend(stages, v);
      assert Product(stages + [v]) == f;
      stages := stages + [v];
    } else {
      DroppedFast(stages, v, f);
      assert stages[|stages| - 1] == MaxStage;
    }
  }

  /** The whole speed request: rejected before planning when the factor is not positive. */
  method PlanSpeed(f: real, inputPath: string, inputExists: bool) returns (r: Result<SpeedPlan, SpeedError>)
    ensures f <= 0.0 ==> r == Err(NonPositiveSpeed)
    ensures f > 0.0 && !inputExists ==> r == Err(InputNotFound(inputPath))
    ensures r.Ok? <==> f > 0.0 && inputExists
    ensures r.Ok? ==> r.value.ptsFactor * f == 1.0 && InRange(r.value.stages)
    ensures r.Ok? && MinStage <= f <= MaxStage ==> r.value.stages == [f]
    ensures r.Ok? && f < MinStage ==> SlowSplit(f, r.value.stages)
    ensures r.Ok? && f > MaxStage ==> FastSplit(f, r.value.stages)
  {
    if f <= 0.0 {
      return Err(NonPositiveSpeed);
    }
    if !inputExists {
      return Err(InputNotFound(inputPath));
    }
    var stages := AtempoChain(f);
    r := Ok(SpeedPlan(1.0 / f, stages));
  }
}
