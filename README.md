# Boomerang outlier detection — a Dafny model

The boomerang program flags possible outliers in spatial measurements. For
each observation k it drops k and every observation within a buffer
`radius` of it. It then predicts z[k] from the rest by Ordinary Kriging
under a linear variogram whose slope is unknown (the "implicit-sill"
variant). Finally it scales all raw prediction residuals by their
root-mean-square into a standardised `zeta`, with a one-sided tail
probability `pvalue`.

This project models two parts of the program:

- **`Engine`**, the kriging loop. It builds the separation-distance matrix, sets
  `lambda` to its largest entry, and visits every target. For each target it
  builds the active mask, applies the 10-observation minimum, solves the kriging
  system, and records the prediction and the raw residual. A final pass
  normalises every slot.
- **`read_data`**, the observation-file reader. It blanks the commas of each
  line, extracts an identifier and three numbers, appends the record, and
  aborts at the first bad line with that line's 1-based number.

The model is written in the source's own imperative form:

- `Engine.FillDistances`, `Engine.SelectActive`, `Engine.VisitTarget`, `Engine.VisitAll`,
  `Engine.NormaliseAll` and `Engine.Engine` are methods over arrays and loops.
- `ReadData.ReplaceCommas`, `ReadData.SkipBlanks`, `ReadData.ReadWord`,
  `ReadData.ReadNumber`, `ReadData.ParseRecord` and `ReadData.Read` are
  methods over a character buffer and the sequence of lines.

Each method is proved against a specification function: `Engine.Boomerangs`
for the engine, `ReadData.ReadResult` and `ReadData.ParseLine` for the reader.
The properties are proved about those functions as lemmas.

Modules:

- `Numerics` holds shared definitions:
  - the `Double` value, which lumps NaN and the infinities into `NonFinite`;
  - vectors and matrices as sequences, with linearity lemmas;
  - the assumed contracts of the numerical routines the engine calls but which
    are not part of this model. These are the hypotenuse, the square root, the
    Gaussian CDF and the Cholesky factor/solve pair, passed in as an `Oracles`
    value.
- `Engine` models src/engine.cpp.
- `EngineProperties` holds the per-slot and global properties of the engine's
  results.
- `ReadData` models src/read_data.cpp.

## Model

| member | source | states |
|---|---|---|
| Engine.FillDistances | src/engine.cpp:42-50 | The nested fill loop leaves the diagonal at zero and sets each pair i<j to hypot(x[i]-x[j], y[i]-y[j]). The matrix is symmetric and equals `DistanceMatrix`. |
| Engine.MaxAbs | src/engine.cpp:58 | `lambda` is non-negative, bounds the absolute value of every entry, and is attained by some entry (or is 0). |
| Engine.SelectActive | src/engine.cpp:71-79 | Observation j is active for target k exactly when D(k,j) > radius, strictly. M is the number of active entries and at most N. |
| Engine.NotOwnNeighbour | src/engine.cpp:71-79 | With radius ≥ 0, the zero diagonal keeps k out of its own active set, so M ≤ N-1. |
| Engine.Factorised | src/engine.cpp:106-109 | The solves happen exactly when the Cholesky factorisation succeeds. They then give u and v with B·u = c and B·v = 1. |
| Engine.Lagrange | src/engine.cpp:111-114 | The multiplier beta and the weights w exist exactly when Sum(v) ≠ 0; w has one entry per active observation. |
| Engine.UnbiasedWeights | src/engine.cpp:111-114 | The weights w = u - beta·v, with beta = (Sum(u)-1)/Sum(v), sum to one. |
| Engine.KrigingSystemSolved | src/engine.cpp:103-114 | w and beta solve the bordered Ordinary Kriging system: B·w + beta·1 = c and Sum(w) = 1. |
| Engine.Predict | src/engine.cpp:116-118 | The prediction is finite exactly when the Lagrange multiplier exists, and is then zhat = w·zactive. The residual is finite exactly when also tau2 = lambda - c·w - beta > 0. A finite residual is the error in units of the kriging standard deviation: Xi(k)²·tau2 = (z[k] - zhat)², and Xi(k) has the sign of z[k] - zhat. |
| Engine.Target | src/engine.cpp:61-127 | One pass writes the NaN sentinel exactly when M < 10. The count is 0 or M. zeta and pvalue keep their zeros for the final loop, except in the sentinel. Xi(k,0) stays 0 unless a prediction was made, and then cnt = M ≥ 10. |
| Engine.VisitTarget | src/engine.cpp:61-127 | Pass k writes only results[k] and Xi(k,0), with the record and residual `Target` gives for k. Every other slot is unchanged. |
| Engine.VisitAll | src/engine.cpp:60-127 | The main loop visits every target once, starting from zeroed records and residuals. Slot k ends with the record and Xi(k) of pass k. |
| Engine.NormaliseAll | src/engine.cpp:129-139 | The final loop rewrites zeta = Xi(k)/stdXi and the p-value branch of every slot, including skipped and failed ones. The other fields are kept. |
| Engine.Engine | src/engine.cpp:28-141 | Requires N > 1. The engine returns N records equal to `Boomerangs`: the per-target passes, then global RMS normalisation. |
| EngineProperties.SentinelPolicy | src/engine.cpp:81-88 | When M < 10 the solver is not consulted. The slot gets zhat = NaN and cnt = 0, and Xi(k,0) stays 0. |
| EngineProperties.SentinelOverwritten | src/engine.cpp:81-139 | The sentinel's NaN zeta and pvalue do not survive. With finite, not-all-zero residuals, a skipped slot ends with zeta = 0 and pvalue = 1/2. |
| EngineProperties.SolvedSlot | src/engine.cpp:106-122 | When the factorisation succeeds, cnt = M. If also Sum(v) ≠ 0, zhat = w·zactive for weights that sum to one and solve the kriging system. |
| EngineProperties.FailedSlot | src/engine.cpp:123-126 | When the factorisation fails, the slot keeps its zero-initialised zhat and cnt = 0, and Xi(k,0) stays 0. |
| EngineProperties.NormalisedZero | src/engine.cpp:133-138 | A zero residual divided by a positive RMS gives zeta = 0 and pvalue = 1/2. |
| EngineProperties.PositiveRms | src/engine.cpp:130 | For `Engine.RootMeanSquare`: finite residuals that are not all zero have a finite, positive stdXi whose square is Xi·Xi/N. |
| EngineProperties.SumSquaresQuotients | src/engine.cpp:130-133 | Dividing every residual by s divides their sum of squares by s². |
| EngineProperties.NormalisedSquares | src/engine.cpp:130-133 | Residuals divided by their RMS have squares summing to N. |
| EngineProperties.NormalisedPasses | src/engine.cpp:129-133 | When every slot is normalised by the RMS of the residuals, the squared zetas sum to N. |
| EngineProperties.ZetaSquaresSumToN | src/engine.cpp:129-133 | For the engine's own results, with finite, not-all-zero residuals, every zeta is finite and Σ zeta² = N. |
| EngineProperties.PValueLowerTail | src/engine.cpp:135-138 | With a symmetric, monotone CDF Φ, the p-value branch (`Engine.PValue`) equals Φ(-\|zeta\|). It lies in [0, 1/2] and is the same for zeta and -zeta. |
| EngineProperties.ReportedPValues | src/engine.cpp:131-139 | Every reported p-value is Φ(-\|zeta\|) ≤ 1/2, or non-finite together with its zeta. |
| ReadData.Blanked | src/read_data.cpp:38 | The blanked line has the same length and no comma. Commas become blanks and every other character is kept. |
| ReadData.ReplaceCommas | src/read_data.cpp:38 | The in-place replacement leaves the buffer equal to the blanked line. |
| ReadData.SkipSpaces | src/read_data.cpp:44 | Returns the first non-space position at or after p; everything skipped is white space. |
| ReadData.WordEnd | src/read_data.cpp:44 | Returns the first space position at or after p; everything before it is non-space. |
| ReadData.ExtractWord | src/read_data.cpp:44 | Reading the id fails exactly when only white space is left. Otherwise the word is the maximal non-empty run of non-space characters after the skipped white space. |
| ReadData.SkipBlanks | src/read_data.cpp:44 | The cursor loop over the buffer stops where `SkipSpaces` says. |
| ReadData.ReadWord | src/read_data.cpp:44 | The cursor loop reads the word `ExtractWord` describes. |
| ReadData.ReadNumber | src/read_data.cpp:44 | The number read from the buffer is the one `ExtractNumber` describes. |
| ReadData.ParseRecord | src/read_data.cpp:38-47 | Blanking a copy of the line and making the four extractions yields `ParseLine` of the line. |
| ReadData.BlankLineRejected | src/read_data.cpp:44-52 | A line of blanks and commas only, including the empty line, yields no record. |
| ReadData.SeparatorsInterchangeable | src/read_data.cpp:38 | Two lines that differ only in commas versus blanks yield the same record. |
| ReadData.TrailingIgnored | src/read_data.cpp:39-46 | Text after the fourth field, starting with a separator, does not change the record a line yields. |
| ReadData.WellFormedLine | src/read_data.cpp:38-46 | Take an id token and three number tokens, each read whole, joined by a comma or blank. The line yields the record of that id and those three numbers. |
| ReadData.ParseRecords | src/read_data.cpp:37-47 | A file yields records exactly when every line does. The records are then one per line, in file order. |
| ReadData.ParseFailedAt | src/read_data.cpp:44-53 | A file fails at line n exactly when line n yields no record and every earlier line does. |
| ReadData.BlankLineAborts | src/read_data.cpp:44-53 | A blank line is not skipped: the read fails with InvalidDataRecord at that line or an earlier one. |
| ReadData.Read | src/read_data.cpp:23-58 | An unopenable file gives InvalidInputFile. Otherwise the loop keeps \|obs\| equal to the lines consumed and returns headers A, B, C, D with one record per line, or InvalidDataRecord with obs.size()+1. The result equals `ReadResult`. |

## Left out

- Numerical routines. `_hypot`, `sqrt`, `GaussianCDF`, `CholeskyDecomposition` and `CholeskySolve` are not modelled; they are the fields of `Numerics.Oracles`. The model relies only on the contracts in `Oracles.Valid`:
  - the square root is a non-negative root;
  - the CDF is a symmetric, monotone probability;
  - a successful factorisation lets the solver solve B·u = c.
- The matrix library's `Slice`, `Subtract_aM`, `Sum`, `DotProduct`, `Multiply_aM`, `Subtract_MM` and `MaxAbs` are modelled by their evident meaning on sequences of reals (`Engine.Slice`, `Engine.SubtractFrom`, `Numerics.Sum` and so on). The library's own code is not part of this model.
- The matrix library's constructor is assumed to zero-fill a new matrix. The zero diagonal of D, and the Xi(k,0) = 0 left for skipped and failed targets, rest on that assumption; the model writes the zeros explicitly.
- Floating point. All arithmetic is on exact reals, so rounding is not modelled.
- `Double`: NaN and the infinities are one value, `NonFinite`. One consequence: when some residual is infinite (tau2 exactly 0 with z[k] ≠ zhat), stdXi is infinite. C++ then gives the finite residuals zeta = 0, while the model gives every zeta `NonFinite`.
- Engine.Predict: it does not prove tau2 ≥ 0. That needs positive-definiteness the model cannot see. When tau2 ≤ 0 the residual is `NonFinite`.
- The `std::cerr` warning on a failed factorisation is output only and not modelled.
- `int` overflow of N and M is not modelled (counts are `nat`).
- `assert(N > 1)` becomes the precondition `1 < |x|` of `Engine.Engine`.
- File I/O in the reader:
  - opening the file is the flag `isOpen` of `ReadData.Read`;
  - splitting the file into lines (`std::getline`) is not modelled: the input is the sequence of lines;
  - `close` is not modelled;
  - the exception message texts are not modelled: the errors carry the file name and line number.
- `operator>>` for `double` is not modelled. It is the oracle `scan`, which reads a number at the read position and reports how many characters it consumed. `ReadData.ScanSound` assumes it consumes at least one character and stops at white space.
- The `std::string` extraction is modelled with the classic locale's white-space set.
- ReadData.Read: its result holds headers and records. src/read_data.h:41 declares `read_data` as returning only the records, which disagrees with the definition. The model follows the definition, src/read_data.cpp:23-58.
- src/main.cpp is command-line plumbing, src/write_results.cpp is output formatting, and src/version.cpp is a constant string; none of them is part of this model.

Where the written design of the program and its code disagree, the model follows the code:

- Active test: an observation is active when D(k,j) > radius, strictly. The design says ≥ and also excludes j = k explicitly. In the code, k is excluded only because D(k,k) = 0 and radius ≥ 0 (`Engine.NotOwnNeighbour`).
- Skipped target (M < 10): the record has cnt = 0, not cnt = M. Its NaN zeta and pvalue are then overwritten by the final loop (`EngineProperties.SentinelOverwritten`).
- Failed factorisation: the slot is not a NaN sentinel. It keeps zhat = 0 and cnt = 0, and its zeta and pvalue are overwritten like every other slot's.
- Variogram: the code is the linear-variogram, implicit-sill variant. There are no nugget, sill or range parameters, and `lambda` is the largest separation.
- p-value: with a symmetric Φ, pvalue(zeta) = pvalue(-zeta) = Φ(-|zeta|). They do not sum to one.
- Separators: commas and blanks are interchangeable, and anything after the fourth field is ignored.
- Blank lines are not skipped and abort the read (`ReadData.BlankLineAborts`). Lines starting with `#` or `!` are parsed like any other line; they abort unless their tokens read as an id and three numbers.
