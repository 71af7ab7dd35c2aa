/** The combination rule of the BAO correlation model: nine parameters and the values
    of five templates turned into one predicted correlation value. Doubles are modelled
    as reals; the templates are abstract lookups from (template, radius) to a value at
    the angle or multipole of the query. */
module Combination {

  /** The five templates the model owns. */
  datatype Component = Fiducial | NoWiggles | BroadbandConst | BroadbandLinear1 | BroadbandLinear2

  /** The nine fit parameters by role, in the order of the parameter vector. */
  datatype Params = Params(
    alpha: real,     // redshift-evolution exponent
    beta: real,      // redshift-space distortion
    biasBeta: real,  // (1+beta)*bias
    amplitude: real, // BAO amplitude
    scale: real,     // BAO scale
    xio: real,       // broadband constant coefficient
    a0: real,        // broadband offset, used as 1+a0 on the no-wiggle template
    a1: real,        // first linear broadband coefficient
    a2: real)        // second linear broadband coefficient

  const ParameterCount: nat := 9

  /** Positional binding of a parameter vector, as both evaluate overloads do it. Only
      the first nine entries take part: packing the record gives them back. */
  function Unpack(v: seq<real>): (p: Params)
    requires |v| >= ParameterCount
    ensures Pack(p) == v[..ParameterCount]
  {
    Params(v[0], v[1], v[2], v[3], v[4], v[5], v[6], v[7], v[8])
  }

  /** The parameter vector that holds `p`. */
  function Pack(p: Params): (v: seq<real>)
    ensures |v| == ParameterCount
  {
    [p.alpha, p.beta, p.biasBeta, p.amplitude, p.scale, p.xio, p.a0, p.a1, p.a2]
  }

  lemma UnpackPack(p: Params)
    ensures Unpack(Pack(p)) == p
  {
  }

  /** The bias recovered from the combined (1+beta)*bias parameter. */
  function Bias(p: Params): (b: real)
    requires 1.0 + p.beta != 0.0
    ensures b * (1.0 + p.beta) == p.biasBeta
  {
    p.biasBeta / (1.0 + p.beta)
  }

  /** Redshift evolution ((1+z)/(1+zref))^alpha, for a power function `pow`. At the
      reference redshift there is no evolution, whatever alpha, for any power function
      that maps 1 to 1. */
  function ZFactor(pow: (real, real) -> real, z: real, zref: real, alpha: real): (f: real)
    requires 1.0 + zref != 0.0
    ensures z == zref && pow(1.0, alpha) == 1.0 ==> f == 1.0
  {
    RatioOfEqual(1.0 + zref);
    pow(Ratio(1.0 + z, 1.0 + zref), alpha)
  }

  function Ratio(x: real, y: real): real
    requires y != 0.0
  {
    x / y
  }

  /** A non-zero value divided by itself. */
  lemma RatioOfEqual(x: real)
    requires x != 0.0
    ensures Ratio(x, x) == 1.0
  {
  }

  /** The radius at which the peak templates are queried: the BAO scale dilates the
      separation and leaves the angle alone. */
  function ScaledRadius(r: real, scale: real): real {
    r * scale
  }

  /** The value of a template at a radius, at the angle or multipole of the query. */
  type Lookup = (Component, real) -> real

  /** Sum of all four broadband terms, none skipped. */
  function AllBroadbandTerms(p: Params, r: real, at: Lookup): real {
    p.xio * at(BroadbandConst, r) + (1.0 + p.a0) * at(NoWiggles, r)
      + p.a1 * at(BroadbandLinear1, r) + p.a2 * at(BroadbandLinear2, r)
  }

  /** Peak and broadband terms together, none skipped. */
  function AllTerms(p: Params, r: real, at: Lookup): real {
    p.amplitude * (at(Fiducial, ScaledRadius(r, p.scale)) - at(NoWiggles, ScaledRadius(r, p.scale)))
      + AllBroadbandTerms(p, r, at)
  }

  /** The peak term: fiducial minus no-wiggle at the scaled radius, skipped when the
      amplitude is zero. Skipping it changes nothing. */
  function Peak(p: Params, r: real, at: Lookup): (peak: real)
    ensures peak == p.amplitude * (at(Fiducial, ScaledRadius(r, p.scale)) - at(NoWiggles, ScaledRadius(r, p.scale)))
  {
    if p.amplitude != 0.0 then p.amplitude * (at(Fiducial, ScaledRadius(r, p.scale)) - at(NoWiggles, ScaledRadius(r, p.scale)))
    else 0.0
  }

  /** The broadband term, accumulated at the unscaled radius one coefficient at a time,
      each term skipped when its coefficient is zero. Skipping them changes nothing. */
  function Broadband(p: Params, r: real, at: Lookup): (b: real)
    ensures b == AllBroadbandTerms(p, r, at)
  {
    var b0 := 0.0;
    var b1 := AddTerm(b0, p.xio, at(BroadbandConst, r));
    var b2 := AddTerm(b1, 1.0 + p.a0, at(NoWiggles, r));
    var b3 := AddTerm(b2, p.a1, at(BroadbandLinear1, r));
    AddTerm(b3, p.a2, at(BroadbandLinear2, r))
  }

  /** One broadband step: `coef * value` is added unless the coefficient is zero. */
  function AddTerm(acc: real, coef: real, value: real): (sum: real)
    ensures sum == acc + coef * value
  {
    if coef != 0.0 then acc + coef * value else acc
  }

  /** The predicted correlation: bias squared times redshift evolution times the sum of
      the peak and broadband terms. The skipped terms are exactly the zero ones, so it is
      the closed-form sum of all five terms. */
  function Prediction(p: Params, r: real, zfactor: real, at: Lookup): (xi: real)
    requires 1.0 + p.beta != 0.0
    ensures xi == Bias(p) * Bias(p) * zfactor * AllTerms(p, r, at)
  {
    assert Peak(p, r, at) + Broadband(p, r, at) == AllTerms(p, r, at);
    Weighted(Bias(p), zfactor, Peak(p, r, at) + Broadband(p, r, at))
  }

  /** A peak and a broadband term computed elsewhere give the prediction once weighted. */
  lemma PredictionOfTerms(p: Params, r: real, zfactor: real, at: Lookup, peak: real, broadband: real)
    requires 1.0 + p.beta != 0.0
    requires peak == Peak(p, r, at) && broadband == Broadband(p, r, at)
    ensures Weighted(Bias(p), zfactor, peak + broadband) == Prediction(p, r, zfactor, at)
  {
  }

  /** bias^2 * zfactor * terms: the final weighting of both overloads. It vanishes
      exactly when one of its factors does. */
  function Weighted(bias: real, zfactor: real, terms: real): (w: real)
    ensures w == 0.0 <==> bias == 0.0 || zfactor == 0.0 || terms == 0.0
  {
    ProductZero(bias, bias);
    ProductZero(bias * bias, zfactor);
    ProductZero(bias * bias * zfactor, terms);
    bias * bias * zfactor * terms
  }

  /** A product of two reals is zero exactly when one of them is. */
  lemma ProductZero(x: real, y: real)
    ensures x * y == 0.0 <==> x == 0.0 || y == 0.0
  {
    if x != 0.0 && y != 0.0 {
      assert (x * y) / y == x;
    }
  }

  /** With a zero amplitude the peak term is absent and only the broadband remains. */
  lemma NoPeakWithoutAmplitude(p: Params, r: real, zfactor: real, at: Lookup)
    requires 1.0 + p.beta != 0.0 && p.amplitude == 0.0
    ensures Peak(p, r, at) == 0.0
    ensures Prediction(p, r, zfactor, at) == Bias(p) * Bias(p) * zfactor * AllBroadbandTerms(p, r, at)
  {
  }

  /** The peak term reads only the amplitude and the scale. */
  lemma PeakIgnoresBroadband(p: Params, q: Params, r: real, at: Lookup)
    requires p.amplitude == q.amplitude && p.scale == q.scale
    ensures Peak(p, r, at) == Peak(q, r, at)
  {
  }

  /** The prediction is linear in the broadband constant coefficient xio. */
  lemma LinearInXio(p: Params, r: real, zfactor: real, at: Lookup, x: real)
    requires 1.0 + p.beta != 0.0
    ensures Prediction(p.(xio := x), r, zfactor, at)
      == Prediction(p.(xio := 0.0), r, zfactor, at)
         + x * (Bias(p) * Bias(p) * zfactor * at(BroadbandConst, r))
  {
  }

  /** The prediction is linear in the first linear broadband coefficient a1. */
  lemma LinearInA1(p: Params, r: real, zfactor: real, at: Lookup, x: real)
    requires 1.0 + p.beta != 0.0
    ensures Prediction(p.(a1 := x), r, zfactor, at)
      == Prediction(p.(a1 := 0.0), r, zfactor, at)
         + x * (Bias(p) * Bias(p) * zfactor * at(BroadbandLinear1, r))
  {
  }

  /** The prediction is linear in the second linear broadband coefficient a2. */
  lemma LinearInA2(p: Params, r: real, zfactor: real, at: Lookup, x: real)
    requires 1.0 + p.beta != 0.0
    ensures Prediction(p.(a2 := x), r, zfactor, at)
      == Prediction(p.(a2 := 0.0), r, zfactor, at)
         + x * (Bias(p) * Bias(p) * zfactor * at(BroadbandLinear2, r))
  {
  }

  /** The prediction is affine in a0, through the factor 1+a0 on the no-wiggle template;
      at a0 == -1 that broadband term vanishes. */
  lemma AffineInA0(p: Params, r: real, zfactor: real, at: Lookup, x: real)
    requires 1.0 + p.beta != 0.0
    ensures Prediction(p.(a0 := x), r, zfactor, at)
      == Prediction(p.(a0 := -1.0), r, zfactor, at)
         + (1.0 + x) * (Bias(p) * Bias(p) * zfactor * at(NoWiggles, r))
  {
  }

  lemma DivScale(k: real, x: real, y: real)
    requires y != 0.0
    ensures (k * x) / y == k * (x / y)
  {
  }

  /** The prediction scales as the square of (1+beta)*bias: multiplying it by k
      multiplies the result by k*k, so doubling it quadruples the result. */
  lemma BiasSquaredScaling(p: Params, r: real, zfactor: real, at: Lookup, k: real)
    requires 1.0 + p.beta != 0.0
    ensures Prediction(p.(biasBeta := k * p.biasBeta), r, zfactor, at)
      == k * k * Prediction(p, r, zfactor, at)
  {
    var q := p.(biasBeta := k * p.biasBeta);
    ScaledBias(p, k);
    assert AllTerms(q, r, at) == AllTerms(p, r, at);
    SquareScaling(k, Bias(p), zfactor, AllTerms(p, r, at));
  }

  /** Scaling "(1+beta)*bias" by k scales the recovered bias by k. */
  lemma ScaledBias(p: Params, k: real)
    requires 1.0 + p.beta != 0.0
    ensures Bias(p.(biasBeta := k * p.biasBeta)) == k * Bias(p)
  {
    DivScale(k, p.biasBeta, 1.0 + p.beta);
  }

  /** (k*b)^2 * z * t == k^2 * (b^2 * z * t): the regrouping behind the bias scaling. */
  lemma SquareScaling(k: real, b: real, z: real, t: real)
    ensures (k * b) * (k * b) * z * t == k * k * (b * b * z * t)
  {
    assert (k * b) * (k * b) == k * k * (b * b);
  }

  /** One template query: which template, at which radius. */
  datatype Query = Query(target: Component, r: real)

  /** The template queries an evaluation makes, in order: fiducial and no-wiggle at the
      scaled radius when the amplitude is non-zero, then one broadband template per
      non-zero coefficient, at the unscaled radius. */
  function Queries(p: Params, r: real): (qs: seq<Query>)
    ensures |qs| <= 6
  {
    PeakQueries(p, r)
      + TermQueries(p.xio, BroadbandConst, r)
      + TermQueries(1.0 + p.a0, NoWiggles, r)
      + TermQueries(p.a1, BroadbandLinear1, r)
      + TermQueries(p.a2, BroadbandLinear2, r)
  }

  /** The peak pair at the scaled radius, queried only when the amplitude is non-zero. */
  function PeakQueries(p: Params, r: real): (qs: seq<Query>)
    ensures p.amplitude != 0.0 <==> |qs| == 2
  {
    if p.amplitude != 0.0 then [Query(Fiducial, ScaledRadius(r, p.scale)), Query(NoWiggles, ScaledRadius(r, p.scale))] else []
  }

  /** The query of one broadband step, made only when its coefficient is non-zero. */
  function TermQueries(coef: real, c: Component, x: real): (qs: seq<Query>)
    ensures coef != 0.0 <==> qs == [Query(c, x)]
    ensures coef == 0.0 <==> qs == []
  {
    if coef != 0.0 then [Query(c, x)] else []
  }

  /** With a zero amplitude nothing is queried at the scaled radius: the fiducial
      template is not queried at all and every query is at the unscaled radius.
      With a non-zero amplitude the first two queries are the peak pair. */
  lemma QueriesWithoutAmplitude(p: Params, r: real)
    ensures p.amplitude == 0.0 ==>
      forall i :: 0 <= i < |Queries(p, r)| ==>
        Queries(p, r)[i].r == r && Queries(p, r)[i].target != Fiducial
    ensures p.amplitude != 0.0 ==>
      Queries(p, r)[..2] == [Query(Fiducial, ScaledRadius(r, p.scale)), Query(NoWiggles, ScaledRadius(r, p.scale))]
  {
  }

  /** Each term with a non-zero coefficient is queried. */
  lemma QueriedPoints(p: Params, r: real)
    ensures p.amplitude != 0.0 ==> Query(Fiducial, ScaledRadius(r, p.scale)) in Queries(p, r)
    ensures p.amplitude != 0.0 ==> Query(NoWiggles, ScaledRadius(r, p.scale)) in Queries(p, r)
    ensures p.xio != 0.0 ==> Query(BroadbandConst, r) in Queries(p, r)
    ensures 1.0 + p.a0 != 0.0 ==> Query(NoWiggles, r) in Queries(p, r)
    ensures p.a1 != 0.0 ==> Query(BroadbandLinear1, r) in Queries(p, r)
    ensures p.a2 != 0.0 ==> Query(BroadbandLinear2, r) in Queries(p, r)
  {
  }

  /** Two lookups that agree on every query an evaluation makes give the same
      prediction: the evaluation reads the templates nowhere else. */
  lemma PredictionReadsOnlyQueries(p: Params, r: real, zfactor: real, at1: Lookup, at2: Lookup)
    requires 1.0 + p.beta != 0.0
    requires forall q :: q in Queries(p, r) ==> at1(q.target, q.r) == at2(q.target, q.r)
    ensures Prediction(p, r, zfactor, at1) == Prediction(p, r, zfactor, at2)
  {
    QueriedPoints(p, r);
    PeakAgrees(p, r, at1, at2);
    BroadbandAgrees(p, r, at1, at2);
    PredictionOfTerms(p, r, zfactor, at1, Peak(p, r, at2), Broadband(p, r, at2));
    PredictionOfTerms(p, r, zfactor, at2, Peak(p, r, at2), Broadband(p, r, at2));
  }

  /** The peak term reads the templates only at the two scaled-radius queries, and only
      when the amplitude is non-zero. */
  lemma PeakAgrees(p: Params, r: real, at1: Lookup, at2: Lookup)
    requires p.amplitude != 0.0 ==>
      at1(Fiducial, ScaledRadius(r, p.scale)) == at2(Fiducial, ScaledRadius(r, p.scale))
      && at1(NoWiggles, ScaledRadius(r, p.scale)) == at2(NoWiggles, ScaledRadius(r, p.scale))
    ensures Peak(p, r, at1) == Peak(p, r, at2)
  {
  }

  /** The broadband term reads each template only when its coefficient is non-zero. */
  lemma BroadbandAgrees(p: Params, r: real, at1: Lookup, at2: Lookup)
    requires p.xio != 0.0 ==> at1(BroadbandConst, r) == at2(BroadbandConst, r)
    requires 1.0 + p.a0 != 0.0 ==> at1(NoWiggles, r) == at2(NoWiggles, r)
    requires p.a1 != 0.0 ==> at1(BroadbandLinear1, r) == at2(BroadbandLinear1, r)
    requires p.a2 != 0.0 ==> at1(BroadbandLinear2, r) == at2(BroadbandLinear2, r)
    ensures Broadband(p, r, at1) == Broadband(p, r, at2)
  {
    var b1 := AddTermAgrees(0.0, p.xio, at1(BroadbandConst, r), at2(BroadbandConst, r));
    var b2 := AddTermAgrees(b1, 1.0 + p.a0, at1(NoWiggles, r), at2(NoWiggles, r));
    var b3 := AddTermAgrees(b2, p.a1, at1(BroadbandLinear1, r), at2(BroadbandLinear1, r));
    var b4 := AddTermAgrees(b3, p.a2, at1(BroadbandLinear2, r), at2(BroadbandLinear2, r));
    assert Broadband(p, r, at1) == b4 == Broadband(p, r, at2);
  }

  /** A step whose coefficient is zero, or whose two values agree, adds the same. */
  lemma AddTermAgrees(acc: real, coef: real, v1: real, v2: real) returns (sum: real)
    requires coef != 0.0 ==> v1 == v2
    ensures sum == AddTerm(acc, coef, v1) == AddTerm(acc, coef, v2)
  {
    sum := AddTerm(acc, coef, v1);
  }

  /** Templates stubbed to constant values. */
  function StubTemplates(): Lookup {
    (c: Component, x: real) =>
      match c
      case Fiducial => 2.0
      case NoWiggles => 1.0
      case BroadbandConst => 0.5
      case BroadbandLinear1 => 0.3
      case BroadbandLinear2 => 0.1
  }

  /** A worked evaluation at the reference redshift: bias 1, zfactor 1, peak 1.0,
      broadband 0.5 + 1.0 + 0.3 + 0.1, result 2.9. */
  lemma StubScenario(pow: (real, real) -> real, zref: real, r: real)
    requires 1.0 + zref != 0.0 && pow(1.0, 0.0) == 1.0
    ensures Prediction(Unpack([0.0, 0.0, 1.0, 1.0, 1.0, 1.0, 0.0, 1.0, 1.0]), r,
                       ZFactor(pow, zref, zref, 0.0), StubTemplates()) == 2.9
  {
    var p := Unpack([0.0, 0.0, 1.0, 1.0, 1.0, 1.0, 0.0, 1.0, 1.0]);
    assert Bias(p) == 1.0;
    assert Peak(p, r, StubTemplates()) == 1.0;
    assert Broadband(p, r, StubTemplates()) == 1.9;
  }
}
