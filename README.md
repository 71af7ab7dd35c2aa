# BAO correlation model

A Dafny model of `baofit::BaoCorrelationModel`, the baofit model of the galaxy/quasar
correlation function near the baryon acoustic oscillation (BAO) peak. It covers three parts.

- **Construction.** The model root directory is normalised. The fifteen tabulated
  multipole files are named: three orders (0, 2, 4) for each of five templates. The five
  templates are fiducial, no-wiggle, and the broadband constant, first and second linear
  terms. The nine fit parameters are registered in parameter-vector order.
- **The combination rule** shared by both `evaluate` overloads. The 9-vector is unpacked
  and the bias is `bb/(1+beta)`. A peak term `ampl*(fid - nw)` is evaluated at the scaled
  radius `r*scale`, and only when the amplitude is non-zero. Up to four broadband terms are
  evaluated at the unscaled radius, each only when its coefficient is non-zero. The result
  is `bias^2 * zfactor * (peak + broadband)`.
- **The two overloads as state changes.** The angle overload sets the redshift-space
  distortion `beta` on all five templates and then queries them at `(r, mu)`. The
  multipole overload queries them at `(r, multipole)` and sets no distortion.

The model has four modules:

- `ModelFiles` (`model_files.dfy`): root normalisation and the file names.
- `Combination` (`combination.dfy`): the combination rule as pure functions over an
  abstract template lookup.
- `ParameterSchema` (`parameter_schema.dfy`): the nine registrations.
- `Bao` (`bao_model.dfy`): two classes and their methods. `RsdCorrelationFunction` is a
  template with a mutable distortion. `BaoCorrelationModel` owns five templates and a
  parameter list. A ghost `trace` records every distortion change and template query in
  order.

Templates are abstract functions `(r, mu, beta) -> real` and `(r, multipole, beta) -> real`.
The power function used for the redshift evolution factor is a parameter. Doubles are reals.

## Model

| member | source | states |
|---|---|---|
| ModelFiles.NormalizeRoot | baofit/BaoCorrelationModel.cc:35-36 | the root is a prefix of the result, at most one character shorter; a non-empty result ends in '/'; an empty root or one already ending in '/' is unchanged |
| ModelFiles.NormalizeRootIdempotent | baofit/BaoCorrelationModel.cc:35-36 | normalising a normalised root changes nothing |
| ModelFiles.Digit | baofit/BaoCorrelationModel.cc:37 | "%d" of a single-digit order is the decimal digit whose value is that order |
| ModelFiles.FileName | baofit/BaoCorrelationModel.cc:37 | "%s%s.%d.dat" is six characters longer than root and base name together |
| ModelFiles.BroadbandFileName | baofit/BaoCorrelationModel.cc:37 | "%s%s%c.%d.dat" is the plain file name of the base name followed by the category character |
| ModelFiles.SplitFileName | baofit/BaoCorrelationModel.cc:37 | a split that succeeds yields a base name and single-digit order that rebuild the given name |
| ModelFiles.SplitFileNameRoundTrip | baofit/BaoCorrelationModel.cc:37 | splitting a built file name recovers its base name and order |
| ModelFiles.FileNameInjective | baofit/BaoCorrelationModel.cc:37 | two names under one root are equal if and only if their base names and orders are equal |
| ModelFiles.TemplateFiles | baofit/BaoCorrelationModel.cc:39-51 | a template's three files are orders 0, 2 and 4 of its base name, in that order |
| ModelFiles.BroadbandFiles | baofit/BaoCorrelationModel.cc:52-69 | the three files of a broadband category are those of the base name followed by the category character |
| ModelFiles.FileTableAt | baofit/BaoCorrelationModel.cc:39-69 | entry 3*i+k of the file table is order 0, 2 or 4 (k = 0, 1, 2) of template i |
| ModelFiles.FileTableLength | baofit/BaoCorrelationModel.cc:39-69 | the file table holds three files per template |
| ModelFiles.FileTableDistinct | baofit/BaoCorrelationModel.cc:39-69 | all files in the table differ if and only if all base names differ |
| ModelFiles.ModelFileNames | baofit/BaoCorrelationModel.cc:39-69 | the fifteen files are the table of the bases fiducial, no-wiggle, broadband+'c', broadband+'1', broadband+'2' |
| ModelFiles.ModelFileNamesDistinct | baofit/BaoCorrelationModel.cc:39-69 | the fifteen names differ pairwise if and only if the fiducial and no-wiggle names differ from each other and from each broadband name plus its category character |
| ParameterSchema.Schema | baofit/BaoCorrelationModel.cc:25-33 | the nine registrations, one per entry of the parameter vector, each named as that entry |
| ParameterSchema.PeakSchema | baofit/BaoCorrelationModel.cc:25-29 | the first five registrations carry the first five names of the vector, and fixing the BAO amplitude fixes the BAO scale too |
| ParameterSchema.BroadbandSchema | baofit/BaoCorrelationModel.cc:30-33 | the last four registrations carry the last four names of the vector, each fixed exactly when noBBand |
| ParameterSchema.SchemaLayout | baofit/BaoCorrelationModel.cc:25-33 | nine parameters, with distinct names in the fixed order; alpha, beta and the bias are fixed by their own switches; the amplitude is fixed exactly when fixBao, the scale exactly when fixBao or fixScale, and each broadband coefficient exactly when noBBand |
| ParameterSchema.SchemaMatchesUnpack | baofit/BaoCorrelationModel.cc:23-33 | the registered initial values, read back as a parameter vector, unpack to the listed defaults: the registration order is the order evaluate reads |
| Combination.Pack | baofit/BaoCorrelationModel.cc:82-84 | a parameter record packs into a vector of nine entries |
| Combination.UnpackPack | baofit/BaoCorrelationModel.cc:82-84 | unpacking a packed parameter record gives it back |
| Combination.Unpack | baofit/BaoCorrelationModel.cc:82-84 | the nine fields are bound by position from the first nine entries, and packing the record gives exactly those entries back |
| Combination.Bias | baofit/BaoCorrelationModel.cc:83 | the bias times (1+beta) is the "(1+beta)*bias" parameter |
| Combination.ZFactor | baofit/BaoCorrelationModel.cc:86 | at z = zref the redshift evolution factor is 1 for any power function with pow(1, alpha) = 1 |
| Combination.Peak | baofit/BaoCorrelationModel.cc:94-98 | the peak term is ampl*(fid - nw) at the scaled radius whether or not the zero-amplitude branch skips it |
| Combination.AddTerm | baofit/BaoCorrelationModel.cc:101-104 | skipping a broadband term whose coefficient is zero gives the same sum as adding it |
| Combination.Broadband | baofit/BaoCorrelationModel.cc:100-104 | the conditional broadband sum equals xio*bbc(r) + (1+a0)*nw(r) + a1*bb1(r) + a2*bb2(r) |
| Combination.Prediction | baofit/BaoCorrelationModel.cc:82-106 | the prediction is bias^2 * zfactor times the sum of all five terms, none skipped |
| Combination.Weighted | baofit/BaoCorrelationModel.cc:106 | the final weighting bias^2 * zfactor * terms is zero exactly when the bias, the redshift factor or the summed terms is zero |
| Combination.NoPeakWithoutAmplitude | baofit/BaoCorrelationModel.cc:94-98 | with a zero amplitude the peak term is 0 and the prediction is bias^2 * zfactor times the broadband terms alone |
| Combination.PeakIgnoresBroadband | baofit/BaoCorrelationModel.cc:94-98 | the peak term depends only on the amplitude and the scale |
| Combination.LinearInXio | baofit/BaoCorrelationModel.cc:101 | the prediction is linear in xio, with slope bias^2 * zfactor * bbc(r) |
| Combination.AffineInA0 | baofit/BaoCorrelationModel.cc:102 | the prediction is affine in a0, with slope bias^2 * zfactor * nw(r) |
| Combination.LinearInA1 | baofit/BaoCorrelationModel.cc:103 | the prediction is linear in a1, with slope bias^2 * zfactor * bb1(r) |
| Combination.LinearInA2 | baofit/BaoCorrelationModel.cc:104 | the prediction is linear in a2, with slope bias^2 * zfactor * bb2(r) |
| Combination.BiasSquaredScaling | baofit/BaoCorrelationModel.cc:83-106 | multiplying "(1+beta)*bias" by k multiplies the prediction by k^2, so doubling it quadruples the prediction |
| Combination.Queries | baofit/BaoCorrelationModel.cc:94-104 | an evaluation makes at most six template queries |
| Combination.PeakQueries | baofit/BaoCorrelationModel.cc:95-96 | the peak pair is queried exactly when the amplitude is non-zero |
| Combination.TermQueries | baofit/BaoCorrelationModel.cc:101-104 | a broadband template is queried exactly when its coefficient is non-zero |
| Combination.QueriesWithoutAmplitude | baofit/BaoCorrelationModel.cc:94-104 | with a zero amplitude the fiducial template is not queried and every query is at the unscaled radius; otherwise the first two queries are the peak pair at the scaled radius |
| Combination.QueriedPoints | baofit/BaoCorrelationModel.cc:94-104 | every term with a non-zero coefficient is queried at its radius |
| Combination.PeakAgrees | baofit/BaoCorrelationModel.cc:94-98 | two template lookups that agree on the two scaled-radius queries, when the amplitude is non-zero, give the same peak term |
| Combination.BroadbandAgrees | baofit/BaoCorrelationModel.cc:100-104 | two template lookups that agree on each broadband query whose coefficient is non-zero give the same broadband term |
| Combination.PredictionReadsOnlyQueries | baofit/BaoCorrelationModel.cc:94-106 | two template lookups that agree on the queries give the same prediction |
| Combination.AddTermAgrees | baofit/BaoCorrelationModel.cc:101-104 | a broadband step gives the same sum for two template values when its coefficient is zero or the values agree |
| Combination.StubScenario | baofit/BaoCorrelationModel.cc:82-106 | a worked evaluation with constant templates at the reference redshift gives 2.9 |
| Bao.Uniform | baofit/BaoCorrelationModel.cc:88-92 | every template holds the same distortion |
| Bao.DistortAll | baofit/BaoCorrelationModel.cc:88-92 | five distortion settings to beta, one per template, in the source's order |
| Bao.AngleTrace | baofit/BaoCorrelationModel.cc:88-104 | after the five distortion settings, the i-th event of an angle evaluation is its i-th template query, at the given angle under distortion beta |
| Bao.MultipoleTrace | baofit/BaoCorrelationModel.cc:116-130 | the i-th event of a multipole evaluation is its i-th template query, at the given multipole under the distortion that template already holds |
| Bao.QueryEvents | baofit/BaoCorrelationModel.cc:94-104 | one query event per query, in order, each carrying its query's template and radius, the coordinate, and the distortion that template holds |
| Bao.AngleTraceOrder | baofit/BaoCorrelationModel.cc:88-104 | the angle overload sets distortion beta on the five templates first, in source order, and every later event is a query at the unchanged angle under distortion beta |
| Bao.MultipoleTraceOnlyQueries | baofit/BaoCorrelationModel.cc:116-130 | the multipole overload sets no distortion: every event is a query at the given multipole |
| Bao.QueryEventsAppend | baofit/BaoCorrelationModel.cc:94-104 | the events of two query lists in sequence are the events of their concatenation |
| Bao.OverloadParity | baofit/BaoCorrelationModel.cc:80-133 | both overloads give the same prediction for the same parameter vector when each query returns the same value at the angle as at the multipole |
| Bao.RsdCorrelationFunction.constructor | baofit/BaoCorrelationModel.cc:71-75 | a template keeps its three files and the functions loaded from them with the given interpolation method |
| Bao.RsdCorrelationFunction.SetDistortion | baofit/BaoCorrelationModel.cc:88 | setDistortion changes the template's distortion to beta and nothing else |
| Bao.RsdCorrelationFunction.AtAngle | baofit/BaoCorrelationModel.cc:96 | the value at (r, mu) is taken under the distortion the template holds |
| Bao.RsdCorrelationFunction.AtMultipole | baofit/BaoCorrelationModel.cc:122 | the value at (r, multipole) is taken under the distortion the template holds |
| Bao.BaoCorrelationModel.constructor | baofit/BaoCorrelationModel.cc:17-75 | zref is kept; the parameters are the nine registrations; each template loads its own three files under the normalised root with "cspline" interpolation; the five templates are new, separate objects; the trace is empty |
| Bao.SourcesAreModelFiles | baofit/BaoCorrelationModel.cc:39-75 | the files of the templates the constructor builds are, in order, the fifteen model file names |
| Bao.BaoCorrelationModel.RegisterPeakParameters | baofit/BaoCorrelationModel.cc:25-29 | on an empty list, the five registrations alpha, beta, (1+beta)*bias, BAO amplitude and BAO scale are appended in that order with their defaults, steps and fixed flags |
| Bao.BaoCorrelationModel.RegisterBroadbandParameters | baofit/BaoCorrelationModel.cc:30-33 | the four broadband registrations are appended after whatever is already registered, all fixed exactly when noBBand |
| Bao.BaoCorrelationModel.DefineParameter | baofit/BaoCorrelationModel.cc:25 | defineParameter appends one parameter record and changes nothing else |
| Bao.BaoCorrelationModel.QueryTemplate | baofit/BaoCorrelationModel.cc:96 | a query returns the template's value under its current distortion and appends one query event |
| Bao.BaoCorrelationModel.AccumulateTerm | baofit/BaoCorrelationModel.cc:101 | one broadband statement adds coef times the template value, querying only when the coefficient is non-zero |
| Bao.BaoCorrelationModel.PeakAndBroadband | baofit/BaoCorrelationModel.cc:94-104 | the step-by-step peak and broadband equal the specification's Peak and Broadband under the current distortions, and the queries made are exactly Queries, in order |
| Bao.BaoCorrelationModel.EvaluateAngle | baofit/BaoCorrelationModel.cc:80-107 | the result is the prediction with all templates at distortion beta and the given angle; afterwards every template holds beta; the trace grows by the five distortion changes followed by the queries; the parameters are untouched |
| Bao.BaoCorrelationModel.EvaluateMultipole | baofit/BaoCorrelationModel.cc:109-133 | the result is the prediction at the given multipole under the distortions already in place, which it leaves unchanged; the trace grows by the queries only |

## Left out

- Loading the interpolation tables is out of scope: file I/O and the `likely` interpolators.
  The loader is the constructor parameter `load`, applied to each template's three file
  names and the method "cspline". Load failures are not modelled.
- The internals of `cosmo::RsdCorrelationFunction` are out of scope: how the multipoles
  combine and the distortion maths. A template is two abstract functions plus a mutable
  distortion. Whether the multipole evaluation depends on the distortion is not visible
  from this file. The model passes it the distortion the template holds. So a multipole
  evaluation after an angle evaluation sees the beta the angle evaluation left behind.
- `std::pow` is the parameter `pow` of both overloads.
- IEEE behaviour is not modelled. Doubles are reals.
  - `beta = -1` divides by zero in the bias at BaoCorrelationModel.cc:83, and the source's
    result is then non-finite. The overloads require `1 + beta != 0`.
  - `zref = -1` divides by zero in the redshift ratio at BaoCorrelationModel.cc:86, and is
    excluded by `1 + zref != 0`. The source's redshift factor then follows IEEE `pow`:
    non-finite for alpha > 0; finite for alpha = 0; and finite for alpha < 0 unless z = -1
    too, where the ratio 0/0 is NaN and so is the factor.
  - The `!= 0` tests are exact real comparisons.
- The source reads `params[0..8]` without a length check. The overloads require at least
  nine entries.
- `printToStream` is output formatting only.
- Concurrency is out of scope. The angle overload, though const, sets the distortion on the
  five shared templates (BaoCorrelationModel.cc:88-92), which is a thread-safety hazard. The
  multipole overload sets no distortion; the model lets it read them.
- The base class's own parameter bookkeeping is out of scope. `defineParameter` is
  modelled as an append to the parameter list.
- `boost::format` internals are out of scope. Only the resulting strings are modelled, with
  each order printed as one digit.
- Bao.BaoCorrelationModel.constructor: registers the parameters after building the
  templates, because a Dafny constructor must set its fields before calling methods. The
  source registers them first. The two kinds of state are independent, so the resulting
  object is the same.
- Bao.BaoCorrelationModel.RegisterPeakParameters: the nine `defineParameter` calls are
  grouped into this method and Bao.BaoCorrelationModel.RegisterBroadbandParameters. The
  calls, their arguments and their order are unchanged.
- Bao.BaoCorrelationModel.PeakAndBroadband: both overloads share this one helper for the
  peak and broadband statements, which the source writes out twice. Each overload still
  does its own unpacking, bias and zfactor.
- ModelFiles.ModelFileNamesDistinct: distinct base names are not enough for fifteen
  distinct files. A fiducial or no-wiggle name equal to the broadband name plus 'c', '1' or
  '2' names the same files as that broadband template. The lemma's precondition is the exact
  condition.
