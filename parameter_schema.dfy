/** The nine fit parameters the BAO model registers when it is built: name, initial
    value, initial step and whether the fit holds it fixed. The registration order is
    the order of the parameter vector that both evaluate overloads unpack. */
module ParameterSchema {
  import opened Combination
  import opened ModelFiles

  /** One registered parameter. */
  datatype Parameter = Parameter(name: string, value: real, error: real, fixed: bool)

  /** The constructor switches that hold parameters fixed. */
  datatype Flags = Flags(fixAlpha: bool, fixBeta: bool, fixBias: bool,
                         fixBao: bool, fixScale: bool, noBBand: bool)

  /** The parameter names. */
  const Alpha: string := "alpha"
  const Beta: string := "beta"
  const BiasBeta: string := "(1+beta)*bias"
  const Amplitude: string := "BAO amplitude"
  const Scale: string := "BAO scale"
  const Xio: string := "BBand xio"
  const A0: string := "BBand a0"
  const A1: string := "BBand a1"
  const A2: string := "BBand a2"

  /** Parameter names, in registration order. */
  const ParameterNames: seq<string> := [Alpha, Beta, BiasBeta, Amplitude, Scale, Xio, A0, A1, A2]

  /** The registrations, in the order the constructor makes them: one per entry of the
      parameter vector, named in vector order. */
  function Schema(initialAmp: real, initialScale: real, f: Flags): (ps: seq<Parameter>)
    ensures |ps| == ParameterCount
    ensures forall i :: 0 <= i < |ps| ==> ps[i].name == ParameterNames[i]
  {
    var peak, broadband := PeakSchema(initialAmp, initialScale, f), BroadbandSchema(f.noBBand);
    assert forall i :: 5 <= i < ParameterCount ==> (peak + broadband)[i] == broadband[i - 5];
    peak + broadband
  }

  /** The redshift-evolution, distortion, bias and BAO peak parameters: the first five
      names of the vector. Fixing the BAO amplitude fixes the BAO scale too. */
  function PeakSchema(initialAmp: real, initialScale: real, f: Flags): (ps: seq<Parameter>)
    ensures |ps| == 5
    ensures forall i :: 0 <= i < |ps| ==> ps[i].name == ParameterNames[i]
    ensures ps[3].fixed ==> ps[4].fixed
  {
    [ Parameter(Alpha, 3.8, 0.3, f.fixAlpha),
      Parameter(Beta, 1.0, 0.1, f.fixBeta),
      Parameter(BiasBeta, -0.34, 0.03, f.fixBias),
      Parameter(Amplitude, initialAmp, 0.15, f.fixBao),
      Parameter(Scale, initialScale, 0.02, f.fixBao || f.fixScale) ]
  }

  /** The four broadband coefficients, the last four names of the vector, all fixed
      together by one switch. */
  function BroadbandSchema(noBBand: bool): (ps: seq<Parameter>)
    ensures |ps| == 4
    ensures forall i :: 0 <= i < |ps| ==> ps[i].name == ParameterNames[5 + i] && ps[i].fixed == noBBand
  {
    [ Parameter(Xio, 0.0, 0.001, noBBand),
      Parameter(A0, -2.5, 0.2, noBBand),
      Parameter(A1, -1.8, 2.0, noBBand),
      Parameter(A2, 0.0, 2.0, noBBand) ]
  }

  /** The names of a list of parameters. */
  function Names(ps: seq<Parameter>): (ns: seq<string>)
    ensures |ns| == |ps| && forall i :: 0 <= i < |ps| ==> ns[i] == ps[i].name
  {
    seq(|ps|, i requires 0 <= i < |ps| => ps[i].name)
  }

  /** The initial values of a list of parameters, as a parameter vector. */
  function Values(ps: seq<Parameter>): (vs: seq<real>)
    ensures |vs| == |ps| && forall i :: 0 <= i < |ps| ==> vs[i] == ps[i].value
  {
    seq(|ps|, i requires 0 <= i < |ps| => ps[i].value)
  }

  /** Nine parameters with distinct names in the fixed order; amplitude fixed exactly
      when fixBao, scale exactly when fixBao or fixScale, each broadband coefficient
      exactly when noBBand, and alpha, beta and the bias by their own switches. */
  lemma SchemaLayout(initialAmp: real, initialScale: real, f: Flags)
    ensures |Schema(initialAmp, initialScale, f)| == ParameterCount
    ensures Names(Schema(initialAmp, initialScale, f)) == ParameterNames
    ensures Distinct(ParameterNames)
    ensures Schema(initialAmp, initialScale, f)[0].fixed == f.fixAlpha
    ensures Schema(initialAmp, initialScale, f)[1].fixed == f.fixBeta
    ensures Schema(initialAmp, initialScale, f)[2].fixed == f.fixBias
    ensures Schema(initialAmp, initialScale, f)[3].fixed == f.fixBao
    ensures Schema(initialAmp, initialScale, f)[4].fixed == (f.fixBao || f.fixScale)
    ensures forall i :: 5 <= i < ParameterCount ==> Schema(initialAmp, initialScale, f)[i].fixed == f.noBBand
  {
    var ns := ParameterNames;
    forall i, j | 0 <= i < j < |ns| ensures ns[i] != ns[j] {
      assert ns[i][0] != ns[j][0] || |ns[i]| != |ns[j]| || ns[i][|ns[i]| - 1] != ns[j][|ns[j]| - 1];
    }
  }

  /** The vector of initial values unpacks to the named initial values: the
      registration order is the order evaluate reads the vector in. */
  lemma SchemaMatchesUnpack(initialAmp: real, initialScale: real, f: Flags)
    ensures Unpack(Values(Schema(initialAmp, initialScale, f)))
      == Params(3.8, 1.0, -0.34, initialAmp, initialScale, 0.0, -2.5, -1.8, 0.0)
  {
  }
}
