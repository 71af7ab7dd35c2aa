/** The BAO correlation model as an object: five redshift-space-distorted templates
    built from fifteen tabulated files, nine registered parameters, and the two evaluate
    overloads that combine the templates. A ghost trace records every interaction of an
    evaluation with the templates, so that the order of those interactions can be stated. */
module Bao {
  import opened Combination
  import opened ModelFiles
  import opened ParameterSchema

  /** A multipole order of the correlation function. */
  datatype Multipole = Monopole | Quadrupole | Hexadecapole

  /** What a template is queried at besides the radius. */
  datatype Coordinate = Angle(mu: real) | Order(multipole: Multipole)

  /** The distortion each of the five templates holds. */
  datatype Distortions = Distortions(fid: real, nw: real, bbc: real, bb1: real, bb2: real) {
    function Of(c: Component): real {
      match c
      case Fiducial => fid
      case NoWiggles => nw
      case BroadbandConst => bbc
      case BroadbandLinear1 => bb1
      case BroadbandLinear2 => bb2
    }
  }

  /** Every template holding the same distortion. */
  function Uniform(beta: real): (d: Distortions)
    ensures forall c: Component :: d.Of(c) == beta
  {
    Distortions(beta, beta, beta, beta, beta)
  }

  /** A template as built from its three multipole files: its value at (r, mu) and at
      (r, multipole), each under a distortion value. How the multipoles are interpolated
      and combined is not part of this model. */
  datatype RsdFunctions = RsdFunctions(
    atAngle: (real, real, real) -> real,
    atMultipole: (real, Multipole, real) -> real)

  /** The interpolation method every file is loaded with. */
  const Interpolation: string := "cspline"

  /** One interaction of an evaluation with the templates. */
  datatype Event =
    | DistortionSet(target: Component, beta: real)
    | Queried(target: Component, r: real, at: Coordinate, distortion: real)

  /** The templates in the order the angle overload distorts them. */
  const Components: seq<Component> :=
    [Fiducial, NoWiggles, BroadbandConst, BroadbandLinear1, BroadbandLinear2]

  /** Setting distortion `beta` on each template in turn, in the order of `Components`. */
  function DistortAll(beta: real): (es: seq<Event>)
    ensures |es| == |Components|
    ensures forall i :: 0 <= i < |es| ==> es[i] == DistortionSet(Components[i], beta)
  {
    [DistortionSet(Fiducial, beta), DistortionSet(NoWiggles, beta), DistortionSet(BroadbandConst, beta),
     DistortionSet(BroadbandLinear1, beta), DistortionSet(BroadbandLinear2, beta)]
  }

  /** The events of the queries `qs`, each at coordinate `at` under the distortion its
      template holds in `d`. */
  function QueryEvents(qs: seq<Query>, at: Coordinate, d: Distortions): (es: seq<Event>)
    ensures |es| == |qs|
    ensures forall i :: 0 <= i < |qs| ==>
      es[i] == Queried(qs[i].target, qs[i].r, at, d.Of(qs[i].target))
    decreases |qs|
  {
    if qs == [] then []
    else
      var last := qs[|qs| - 1];
      QueryEvents(qs[..|qs| - 1], at, d) + [Queried(last.target, last.r, at, d.Of(last.target))]
  }

  /** The interactions of one angle-based evaluation: after the five distortion settings,
      the i-th event is the i-th query of the evaluation, at angle mu under distortion
      beta. */
  function AngleTrace(p: Params, r: real, mu: real): (es: seq<Event>)
    ensures |es| == |Components| + |Queries(p, r)|
    ensures forall i :: 0 <= i < |Queries(p, r)| ==>
      es[|Components| + i] == Queried(Queries(p, r)[i].target, Queries(p, r)[i].r, Angle(mu), p.beta)
  {
    DistortAll(p.beta) + QueryEvents(Queries(p, r), Angle(mu), Uniform(p.beta))
  }

  /** The interactions of one multipole-based evaluation with distortions `d` in place:
      the i-th event is the i-th query of the evaluation, at multipole ell under the
      distortion its template already holds. */
  function MultipoleTrace(p: Params, r: real, ell: Multipole, d: Distortions): (es: seq<Event>)
    ensures |es| == |Queries(p, r)|
    ensures forall i :: 0 <= i < |es| ==>
      es[i] == Queried(Queries(p, r)[i].target, Queries(p, r)[i].r, Order(ell), d.Of(Queries(p, r)[i].target))
  {
    QueryEvents(Queries(p, r), Order(ell), d)
  }

  /** The angle overload sets distortion beta on all five templates before it queries any
      of them, then queries each at the angle cosine it was given, unchanged, under
      distortion beta. */
  lemma AngleTraceOrder(p: Params, r: real, mu: real)
    ensures |AngleTrace(p, r, mu)| >= |Components|
    ensures forall i :: 0 <= i < |Components| ==>
      AngleTrace(p, r, mu)[i] == DistortionSet(Components[i], p.beta)
    ensures forall i :: |Components| <= i < |AngleTrace(p, r, mu)| ==>
      AngleTrace(p, r, mu)[i].Queried? && AngleTrace(p, r, mu)[i].at == Angle(mu)
      && AngleTrace(p, r, mu)[i].distortion == p.beta
  {
    var qs := Queries(p, r);
    var es := QueryEvents(qs, Angle(mu), Uniform(p.beta));
    assert AngleTrace(p, r, mu) == DistortAll(p.beta) + es;
    forall i | |Components| <= i < |AngleTrace(p, r, mu)|
      ensures AngleTrace(p, r, mu)[i] == es[i - |Components|]
    {
    }
  }

  /** The multipole overload sets no distortion: every interaction is a query at the
      multipole it was given. */
  lemma MultipoleTraceOnlyQueries(p: Params, r: real, ell: Multipole, d: Distortions)
    ensures forall e :: e in MultipoleTrace(p, r, ell, d) ==> e.Queried? && e.at == Order(ell)
  {
  }

  /** One template: a distortion-capable correlation function built from three
      multipole files. Only its distortion changes after it is built. */
  class RsdCorrelationFunction {
    const sources: seq<string>
    const functions: RsdFunctions
    var distortion: real

    constructor (sources: seq<string>, interpolation: string,
                 load: (seq<string>, string) -> RsdFunctions)
      ensures this.sources == sources && functions == load(sources, interpolation)
    {
      this.sources := sources;
      functions := load(sources, interpolation);
    }

    method SetDistortion(beta: real)
      modifies this`distortion
      ensures distortion == beta
    {
      distortion := beta;
    }

    /** The value at separation r and angle cosine mu under the current distortion. */
    method AtAngle(r: real, mu: real) returns (v: real)
      ensures v == functions.atAngle(r, mu, distortion)
    {
      v := functions.atAngle(r, mu, distortion);
    }

    /** The value of one multipole at separation r. */
    method AtMultipole(r: real, ell: Multipole) returns (v: real)
      ensures v == functions.atMultipole(r, ell, distortion)
    {
      v := functions.atMultipole(r, ell, distortion);
    }
  }

  class BaoCorrelationModel {
    const zref: real
    const fid: RsdCorrelationFunction
    const nw: RsdCorrelationFunction
    const bbc: RsdCorrelationFunction
    const bb1: RsdCorrelationFunction
    const bb2: RsdCorrelationFunction
    /** The registered parameters, in parameter-vector order. */
    var parameters: seq<Parameter>
    /** Every interaction of the evaluations so far with the templates. */
    ghost var trace: seq<Event>

    /** The five templates are separate objects, one per `new` in the constructor. */
    predicate SeparateTemplates() {
      fid != nw && fid != bbc && fid != bb1 && fid != bb2 && nw != bbc && nw != bb1 && nw != bb2
        && bbc != bb1 && bbc != bb2 && bb1 != bb2
    }

    function Template(c: Component): RsdCorrelationFunction {
      match c
      case Fiducial => fid
      case NoWiggles => nw
      case BroadbandConst => bbc
      case BroadbandLinear1 => bb1
      case BroadbandLinear2 => bb2
    }

    /** The files of all five templates, in the order they were loaded. */
    function Sources(): seq<string> {
      fid.sources + nw.sources + bbc.sources + bb1.sources + bb2.sources
    }

    /** The distortions the templates hold now. */
    function Current(): Distortions
      reads fid, nw, bbc, bb1, bb2
    {
      Distortions(fid.distortion, nw.distortion, bbc.distortion, bb1.distortion, bb2.distortion)
    }

    /** The value template `c` gives at radius x and coordinate `at` under distortion beta. */
    function Value(c: Component, x: real, at: Coordinate, beta: real): real {
      match at
      case Angle(mu) => Template(c).functions.atAngle(x, mu, beta)
      case Order(ell) => Template(c).functions.atMultipole(x, ell, beta)
    }

    /** The templates seen as a lookup at coordinate `at` under distortions `d`. */
    function LookupAt(at: Coordinate, d: Distortions): Lookup {
      (c: Component, x: real) => Value(c, x, at, d.Of(c))
    }

    /** Builds the model: normalises the root, loads the three multipole files of each of
        the five templates, and registers the nine parameters. */
    constructor (modelRoot: string, fiducialName: string, nowigglesName: string,
                 broadbandName: string, zref: real, initialAmp: real, initialScale: real,
                 fixAlpha: bool, fixBeta: bool, fixBias: bool, fixBao: bool, fixScale: bool,
                 noBBand: bool, load: (seq<string>, string) -> RsdFunctions)
      ensures this.zref == zref
      ensures parameters
        == Schema(initialAmp, initialScale, Flags(fixAlpha, fixBeta, fixBias, fixBao, fixScale, noBBand))
      ensures fid.sources == TemplateFiles(NormalizeRoot(modelRoot), fiducialName)
      ensures nw.sources == TemplateFiles(NormalizeRoot(modelRoot), nowigglesName)
      ensures bbc.sources == BroadbandFiles(NormalizeRoot(modelRoot), broadbandName, 'c')
      ensures bb1.sources == BroadbandFiles(NormalizeRoot(modelRoot), broadbandName, '1')
      ensures bb2.sources == BroadbandFiles(NormalizeRoot(modelRoot), broadbandName, '2')
      ensures forall c: Component ::
        Template(c).functions == load(Template(c).sources, Interpolation)
      ensures fresh(fid) && fresh(nw) && fresh(bbc) && fresh(bb1) && fresh(bb2) && SeparateTemplates()
      ensures trace == []
    {
      var root := modelRoot;
      if 0 < |root| && root[|root| - 1] != '/' {
        root := root + "/";
      }
      assert root == NormalizeRoot(modelRoot);
      this.zref := zref;
      fid := new RsdCorrelationFunction(TemplateFiles(root, fiducialName), Interpolation, load);
      nw := new RsdCorrelationFunction(TemplateFiles(root, nowigglesName), Interpolation, load);
      bbc := new RsdCorrelationFunction(BroadbandFiles(root, broadbandName, 'c'), Interpolation, load);
      bb1 := new RsdCorrelationFunction(BroadbandFiles(root, broadbandName, '1'), Interpolation, load);
      bb2 := new RsdCorrelationFunction(BroadbandFiles(root, broadbandName, '2'), Interpolation, load);
      parameters := [];
      trace := [];
      new;
      RegisterPeakParameters(initialAmp, initialScale, Flags(fixAlpha, fixBeta, fixBias, fixBao, fixScale, noBBand));
      RegisterBroadbandParameters(noBBand);
    }

    /** Registers the five peak-model parameters. */
    method RegisterPeakParameters(initialAmp: real, initialScale: real, f: Flags)
      requires parameters == []
      modifies this`parameters
      ensures parameters == PeakSchema(initialAmp, initialScale, f)
    {
      DefineParameter(Alpha, 3.8, 0.3, f.fixAlpha);
      DefineParameter(Beta, 1.0, 0.1, f.fixBeta);
      DefineParameter(BiasBeta, -0.34, 0.03, f.fixBias);
      DefineParameter(Amplitude, initialAmp, 0.15, f.fixBao);
      DefineParameter(Scale, initialScale, 0.02, f.fixBao || f.fixScale);
    }

    /** Registers the four broadband coefficients after the peak-model parameters. */
    method RegisterBroadbandParameters(noBBand: bool)
      modifies this`parameters
      ensures parameters == old(parameters) + BroadbandSchema(noBBand)
    {
      DefineParameter(Xio, 0.0, 0.001, noBBand);
      DefineParameter(A0, -2.5, 0.2, noBBand);
      DefineParameter(A1, -1.8, 2.0, noBBand);
      DefineParameter(A2, 0.0, 2.0, noBBand);
    }

    /** Appends one parameter to the schema. */
    method DefineParameter(name: string, value: real, error: real, fixed: bool)
      modifies this`parameters
      ensures parameters == old(parameters) + [Parameter(name, value, error, fixed)]
    {
      parameters := parameters + [Parameter(name, value, error, fixed)];
    }

    /** Queries template `c` at radius x and coordinate `at`, under its current distortion. */
    method QueryTemplate(c: Component, x: real, at: Coordinate) returns (v: real)
      modifies this`trace
      ensures v == Value(c, x, at, Current().Of(c))
      ensures trace == old(trace) + [Queried(c, x, at, Current().Of(c))]
    {
      var t := Template(c);
      match at {
        case Angle(mu) =>
          v := t.AtAngle(x, mu);
        case Order(ell) =>
          v := t.AtMultipole(x, ell);
      }
      trace := trace + [Queried(c, x, at, t.distortion)];
    }

    /** One broadband statement: queries template `c` at radius x and adds `coef` times
        the value to `acc`, unless the coefficient is zero. */
    method AccumulateTerm(acc: real, coef: real, c: Component, x: real, at: Coordinate)
      returns (sum: real)
      modifies this`trace
      ensures sum == AddTerm(acc, coef, Value(c, x, at, Current().Of(c)))
      ensures trace == old(trace) + QueryEvents(TermQueries(coef, c, x), at, Current())
    {
      sum := acc;
      if coef != 0.0 {
        var v := QueryTemplate(c, x, at);
        sum := acc + coef * v;
      }
    }

    /** The peak and broadband terms shared by both overloads: the peak pair at the
        scaled radius when the amplitude is non-zero, then the broadband terms at the
        unscaled radius, each only when its coefficient is non-zero. */
    method PeakAndBroadband(r: real, at: Coordinate, p: Params) returns (peak: real, broadband: real)
      modifies this`trace
      ensures peak == Peak(p, r, LookupAt(at, Current()))
      ensures broadband == Broadband(p, r, LookupAt(at, Current()))
      ensures trace == old(trace) + QueryEvents(Queries(p, r), at, Current())
    {
      ghost var d := Current();
      ghost var look := LookupAt(at, d);
      peak := 0.0;
      if p.amplitude != 0.0 {
        var scaled := ScaledRadius(r, p.scale);
        var f := QueryTemplate(Fiducial, scaled, at);
        var n := QueryTemplate(NoWiggles, scaled, at);
        peak := p.amplitude * (f - n);
      }
      assert peak == Peak(p, r, look);
      ghost var issued := PeakQueries(p, r);
      assert trace == old(trace) + QueryEvents(issued, at, d);
      broadband := 0.0;
      broadband := AccumulateTerm(broadband, p.xio, BroadbandConst, r, at);
      ExtendTrace(old(trace), issued, TermQueries(p.xio, BroadbandConst, r), at, d);
      issued := issued + TermQueries(p.xio, BroadbandConst, r);
      broadband := AccumulateTerm(broadband, 1.0 + p.a0, NoWiggles, r, at);
      ExtendTrace(old(trace), issued, TermQueries(1.0 + p.a0, NoWiggles, r), at, d);
      issued := issued + TermQueries(1.0 + p.a0, NoWiggles, r);
      broadband := AccumulateTerm(broadband, p.a1, BroadbandLinear1, r, at);
      ExtendTrace(old(trace), issued, TermQueries(p.a1, BroadbandLinear1, r), at, d);
      issued := issued + TermQueries(p.a1, BroadbandLinear1, r);
      broadband := AccumulateTerm(broadband, p.a2, BroadbandLinear2, r, at);
      ExtendTrace(old(trace), issued, TermQueries(p.a2, BroadbandLinear2, r), at, d);
      issued := issued + TermQueries(p.a2, BroadbandLinear2, r);
      assert issued == Queries(p, r);
    }

    /** The angle-based overload: distorts all five templates by beta, then combines them
        at separation r and angle cosine mu. */
    method EvaluateAngle(r: real, mu: real, z: real, params: seq<real>, pow: (real, real) -> real)
      returns (xi: real)
      requires |params| >= ParameterCount && 1.0 + params[1] != 0.0 && 1.0 + zref != 0.0
      modifies this`trace, fid`distortion, nw`distortion, bbc`distortion, bb1`distortion, bb2`distortion
      ensures xi == Prediction(Unpack(params), r, ZFactor(pow, z, zref, params[0]),
                               LookupAt(Angle(mu), Uniform(params[1])))
      ensures Current() == Uniform(params[1])
      ensures trace == old(trace) + AngleTrace(Unpack(params), r, mu)
    {
      var p := Unpack(params);
      var bias := Bias(p);
      var zfactor := ZFactor(pow, z, zref, p.alpha);
      fid.SetDistortion(p.beta);
      trace := trace + [DistortionSet(Fiducial, p.beta)];
      nw.SetDistortion(p.beta);
      trace := trace + [DistortionSet(NoWiggles, p.beta)];
      bbc.SetDistortion(p.beta);
      trace := trace + [DistortionSet(BroadbandConst, p.beta)];
      bb1.SetDistortion(p.beta);
      trace := trace + [DistortionSet(BroadbandLinear1, p.beta)];
      bb2.SetDistortion(p.beta);
      trace := trace + [DistortionSet(BroadbandLinear2, p.beta)];
      assert Current() == Uniform(p.beta);
      assert trace == old(trace) + DistortAll(p.beta);
      ghost var look := LookupAt(Angle(mu), Uniform(p.beta));
      var peak, broadband := PeakAndBroadband(r, Angle(mu), p);
      xi := Weighted(bias, zfactor, peak + broadband);
      PredictionOfTerms(p, r, zfactor, look, peak, broadband);
      AppendAssoc(old(trace), DistortAll(p.beta), QueryEvents(Queries(p, r), Angle(mu), Uniform(p.beta)));
    }

    /** The multipole-based overload: combines the templates at separation r and one
        multipole, under whatever distortions they already hold. */
    method EvaluateMultipole(r: real, ell: Multipole, z: real, params: seq<real>,
                             pow: (real, real) -> real)
      returns (xi: real)
      requires |params| >= ParameterCount && 1.0 + params[1] != 0.0 && 1.0 + zref != 0.0
      modifies this`trace
      ensures xi == Prediction(Unpack(params), r, ZFactor(pow, z, zref, params[0]),
                               LookupAt(Order(ell), Current()))
      ensures Current() == old(Current())
      ensures trace == old(trace) + MultipoleTrace(Unpack(params), r, ell, Current())
    {
      var p := Unpack(params);
      var bias := Bias(p);
      var zfactor := ZFactor(pow, z, zref, p.alpha);
      var peak, broadband := PeakAndBroadband(r, Order(ell), p);
      xi := Weighted(bias, zfactor, peak + broadband);
      PredictionOfTerms(p, r, zfactor, LookupAt(Order(ell), Current()), peak, broadband);
    }
  }

  /** The events of two query lists in sequence are the events of the first followed
      by those of the second. */
  lemma QueryEventsAppend(a: seq<Query>, b: seq<Query>, at: Coordinate, d: Distortions)
    ensures QueryEvents(a + b, at, d) == QueryEvents(a, at, d) + QueryEvents(b, at, d)
  {
  }

  /** A trace extended by the events of `a` and then of `b` is the trace extended by
      the events of `a + b`. */
  lemma ExtendTrace(t: seq<Event>, a: seq<Query>, b: seq<Query>, at: Coordinate, d: Distortions)
    ensures t + QueryEvents(a, at, d) + QueryEvents(b, at, d) == t + QueryEvents(a + b, at, d)
  {
    QueryEventsAppend(a, b, at, d);
  }

  /** Templates built as the constructor builds them load, in order, the fifteen model
      files. */
  lemma SourcesAreModelFiles(m: BaoCorrelationModel, root: string, fiducial: string,
                             nowiggles: string, broadband: string)
    requires m.fid.sources == TemplateFiles(root, fiducial)
    requires m.nw.sources == TemplateFiles(root, nowiggles)
    requires m.bbc.sources == BroadbandFiles(root, broadband, 'c')
    requires m.bb1.sources == BroadbandFiles(root, broadband, '1')
    requires m.bb2.sources == BroadbandFiles(root, broadband, '2')
    ensures m.Sources() == ModelFileNames(root, fiducial, nowiggles, broadband)
  {
  }

  lemma AppendAssoc(a: seq<Event>, b: seq<Event>, c: seq<Event>)
    ensures a + b + c == a + (b + c)
  {
  }

  /** Both overloads give the same value for the same parameter vector whenever every
      template query the evaluation makes returns the same value at the angle, under
      distortion beta, as at the multipole, under the distortions then in place. */
  lemma OverloadParity(m: BaoCorrelationModel, params: seq<real>, r: real, mu: real,
                       ell: Multipole, d: Distortions, zfactor: real)
    requires |params| >= ParameterCount && 1.0 + params[1] != 0.0
    requires forall q :: q in Queries(Unpack(params), r) ==>
      m.Value(q.target, q.r, Angle(mu), params[1]) == m.Value(q.target, q.r, Order(ell), d.Of(q.target))
    ensures Prediction(Unpack(params), r, zfactor, m.LookupAt(Angle(mu), Uniform(params[1])))
         == Prediction(Unpack(params), r, zfactor, m.LookupAt(Order(ell), d))
  {
    var p := Unpack(params);
    var at1, at2 := m.LookupAt(Angle(mu), Uniform(params[1])), m.LookupAt(Order(ell), d);
    forall q | q in Queries(p, r) ensures at1(q.target, q.r) == at2(q.target, q.r) {
    }
    PredictionReadsOnlyQueries(p, r, zfactor, at1, at2);
  }
}
