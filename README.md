# ELP2000-82B lunar ephemeris — a verified model

This project models `elp2000.py`. That module evaluates the ELP2000-82B lunar theory: it gives the
geocentric Cartesian position and velocity of the Moon at an ephemeris time
`et`, measured in seconds past J2000.

The module has two public operations:

- **`readFiles`** loads the 36 coefficient tables from text files. Each file
  has a header line followed by one fixed-column record per line.
- **`getState`** evaluates the state vector at `et`. It first converts `et` to
  Julian centuries `t`. Then, for each table, it sums that table's series of
  `A * sin(argument)` terms, together with the rate of each term. Table 3 uses
  `A * cos(argument)` instead of `sin`. The argument is an integer
  combination of the theory's fundamental arguments (polynomials in `t`),
  plus a phase for tables 4-36.
- The temporal factor `t` or `t^2` is then applied to the tables that need
  it, by the product rule.
- After that, `getState` sums the tables by coordinate (longitude, latitude,
  distance) and adds the mean longitude W1 to the longitude. It converts the longitude and
  latitude from arcseconds to radians, keeps the distance as summed, and
  finally converts to Cartesian coordinates, with velocities per second.

The model works on exact reals. `sin`, `cos` and `pi` are a parameter
(`Numerics.Trig`), so every theorem holds for any implementation of them.

The reference semantics uses dual numbers (`Numerics.Dual`, a value with its
derivative), with the sum, product and chain rules. The five series
evaluators are loops over the expressions exactly as the source writes them,
including its hand-derived rate formulas. Each is proved to compute the
dual-number series. So every rate the program returns is proved to be the
dual-number (chain-rule) derivative of the value it returns, term by term and
through the whole assembly, with `cos` taken as the rate of `sin` and `-sin`
as the rate of `cos`:

- the fundamental arguments' rates are the formal derivatives of their
  polynomials;
- `dArg` uses the same multipliers as `arg`;
- the post-scales by `t` and `t^2` follow the product rule;
- the Cartesian velocity is the rate of the position, divided by the seconds
  of a Julian century.

The modules follow the program's structure:

- `Numerics`: `Deg2Rad` and dual numbers.
- `Polynomials`: evaluation and the formal derivative.
- `FundamentalArguments`: the polynomial arguments, with their constants as
  written in the source.
- `Records`: the record types, the column layouts and Python's `int()` on text.
- `Series`: the five evaluators.
- `Dispatch`: `_calcFile`.
- `Assembly`: `_calcAll` and the Cartesian conversion.
- `Ephemeris`: the module state as a class with `ReadFiles` and `GetState`,
  and the loader's reference function `Load`.

Behaviour of the code that the model keeps:

- **A failed load.** `readFiles` appends each table's slot before opening its
  file and raises part-way, so the tables read until then, and the failing
  table's partial list, stay in `_files`. `Load` and `ReadFiles` return that
  partial store together with the error.
- **Evaluating after a failed load.** Because `[] == False` is false in
  Python, `getState` then evaluates the partial store. It fails with an index
  error at the first absent table. The model answers `TableMissing(k)`,
  where `k` is the number of tables present. If the load failed at the last
  table, the store is complete and the evaluation succeeds.
- **Evaluating before any load.** `getState` prints a message and returns
  `None`; the model answers `NotLoaded`.
- **A blank or short line.** A line that ends before one of its integer
  columns leaves that column empty, and `int('')` raises, so the line is
  rejected (`Records.ShortLineRejected`).

## Model

| member | source | states |
|---|---|---|
| Numerics.Deg2Rad | elp2000.py:90-91 | the angle in radians is to pi as the angle in degrees is to 180: `rad * 180 == deg * pi` |
| Numerics.Deg2RadScales | elp2000.py:90-91 | the conversion maps 180 degrees to pi and is linear: it preserves sums and constant multiples |
| Numerics.CombineComponents | elp2000.py:108-109 | an integer combination of (value, rate) pairs has as rate the same-multiplier combination of the rates |
| Polynomials.DerivativeCoefficient | elp2000.py:95-102 | coefficient `k` of the formal derivative is `(k + 1) * p[k + 1]` |
| FundamentalArguments.FullArgumentsArePolynomials | elp2000.py:95-102 | D, l', l, F, W1 and z = W1 + p t, with their rates, are their coefficient polynomials and those polynomials' derivatives |
| FundamentalArguments.ElongationIsPolynomial | elp2000.py:95-96 | `dD` is the derivative of the quartic `D` |
| FundamentalArguments.SunAnomalyIsPolynomial | elp2000.py:97-98 | `dl_` is the derivative of the cubic `l_` |
| FundamentalArguments.MoonAnomalyIsPolynomial | elp2000.py:99-100 | `dl` is the derivative of the quartic `l` |
| FundamentalArguments.LatitudeArgumentIsPolynomial | elp2000.py:101-102 | `dF` is the derivative of the quartic `F` |
| FundamentalArguments.MeanLongitudeIsPolynomial | elp2000.py:278-279 | `dW1` is the derivative of the quartic `W1` |
| FundamentalArguments.PrecessedLongitudeIsPolynomial | elp2000.py:128-131 | `z = W1 + p t` is a quartic polynomial and `dz = dW1 + p` its derivative |
| FundamentalArguments.LinearArgumentsAreTruncations | elp2000.py:120-127 | the arguments of tables 4-36 are the constant and linear terms of the main-problem polynomials, with constant rates |
| FundamentalArguments.PlanetaryArgumentsAreLinear | elp2000.py:153-168 | the planetary longitudes are linear polynomials whose rates are their derivatives |
| FundamentalArguments.NeptuneConstantAsWritten | elp2000.py:167 | the constant term of N, as written with `20 + 60`, is 1094535.19575 arcseconds, not 304 degrees 20 minutes 55.19575 seconds |
| Records.LayoutOf | elp2000.py:35-54 | tables 1-3 have the main layout, 10-21 the planetary layout, and 4-9 and 22-36 the short layout, each as an if-and-only-if |
| Records.MultipliersMatchLayout | elp2000.py:28-54 | a record of a layout carries 4, 5 or 11 multipliers, as the layout reads |
| Records.Slice | elp2000.py:29-32 | a slice's length is Python's, with both bounds clamped to the line |
| Records.ParseUnsigned | elp2000.py:29-32 | a digit string, with single underscores between digits, reads as a number, and nothing else does; the number read is the one whose decimal spelling is the string without underscores and leading zeros |
| Records.ParseUnsignedReadsDecimal | elp2000.py:29-32 | a text reads as `n` exactly when it is a digit string whose canonical form is `n`'s decimal spelling |
| Records.ParseInt | elp2000.py:29-52 | `int()` of a field succeeds exactly when, stripped of whitespace and an optional sign, it is a digit string; the magnitude is the number the digits spell, and a nonzero result is negative exactly when the sign is `-` |
| Records.ParseIntRejectsBlank | elp2000.py:29-32 | `int()` of an all-whitespace field fails |
| Records.ParseIntReadsShow | elp2000.py:29-32 | reading an integer written right-justified in a column of any width gives that integer back |
| Records.ParseRecord | elp2000.py:28-54 | a parsed line of table `i` is a record of table `i`'s layout |
| Records.ParseRecordReadsColumns | elp2000.py:28-54 | a line parses exactly when every field of its layout parses; the record's multipliers are the 3-character columns in order, and its amplitude and phase are the layout's decimal columns |
| Records.MainColumns | elp2000.py:28-36 | tables 1-3: parse exactly when the four integer columns and the amplitude at 14-27 read, with those multipliers |
| Records.ShortColumns | elp2000.py:37-40 | tables 4-9 and 22-36: five integer columns, the phase at 16-25 and the amplitude at 26-35, as an if-and-only-if |
| Records.PlanetaryColumns | elp2000.py:41-50 | tables 10-21: eleven integer columns, the phase at 34-43 and the amplitude at 44-53, as an if-and-only-if |
| Records.IntColumns | elp2000.py:29-48 | integer column `j` is the slice `[3j, 3j+3)` the loader reads |
| Records.ShortLineRejected | elp2000.py:28-54 | a line that ends before its layout's last integer column is rejected, whatever the decimal reader does |
| Series.EmptySeries | elp2000.py:104-116 | an empty table gives `[0, 0]` |
| Series.SeriesAppend | elp2000.py:107-115 | the series of two runs of terms is the sum of their series |
| Series.SeriesSnoc | elp2000.py:107-115 | one more term adds exactly its contribution to the value and the rate |
| Series.SameMultipliers | elp2000.py:108-109 | `dArg` is the combination of the arguments' rates with the very multipliers of `arg` |
| Series.SecondaryIgnoresFirstMultiplier | elp2000.py:233-237 | the series of tables 22-36 does not change when the first multiplier of any record changes |
| Series.AngleOfCombination | elp2000.py:108-109 | a term's angle is `rad(c / 3600)` for tables 1-3 and `rad(c / 3600 + ph)` for the rest, with rate `rad(dc / 3600)` |
| Series.TermOfAngle | elp2000.py:111-114 | a term adds `A sin(arg)` (`A cos(arg)` for table 3) to the value and, by the chain rule, `A cos(arg) * rate` (`-A sin(arg) * rate`) to the rate |
| Series.WaveExpression | elp2000.py:113-114 | the chain-rule derivative of `a sin` / `a cos` is the evaluator's expression |
| Series.MainTerm | elp2000.py:107-114 | one term of tables 1-3, as the loop writes it, is the chain-rule contribution of its argument |
| Series.EarthFigureTerm | elp2000.py:136-140 | one term of tables 4-9, as the loop writes it, is the chain-rule contribution of its argument |
| Series.PlanetaryTable1Term | elp2000.py:173-177 | one term of tables 10-15, as the loop writes it, is the chain-rule contribution of its argument |
| Series.PlanetaryTable2Term | elp2000.py:211-215 | one term of tables 16-21, as the loop writes it, is the chain-rule contribution of its argument |
| Series.SecondaryTerm | elp2000.py:233-237 | one term of tables 22-36, as the loop writes it, is the chain-rule contribution of its argument |
| Series.Calc1To3 | elp2000.py:93-116 | returns the reference series of the table at `t`, with the full-precision arguments, cosine for table 3 |
| Series.MainSum | elp2000.py:104-116 | the loop's (value, derivative) is the reference series for the given arguments |
| Series.Calc4To9 | elp2000.py:118-142 | returns the reference series of the table, with z = W1 + p t and the truncated arguments |
| Series.EarthFigureSum | elp2000.py:133-142 | the loop's (value, derivative) is the reference series for the given arguments |
| Series.Calc10To15 | elp2000.py:144-179 | returns the reference series of the table over Me, V, T, Ma, J, S, U, N, D, l, F |
| Series.PlanetaryTable1Sum | elp2000.py:170-179 | the loop's (value, derivative) is the reference series for the given arguments |
| Series.Calc16To21 | elp2000.py:181-217 | returns the reference series of the table over Me, V, T, Ma, J, S, U, D, l', l, F |
| Series.PlanetaryTable2Sum | elp2000.py:208-217 | the loop's (value, derivative) is the reference series for the given arguments |
| Series.Calc22To36 | elp2000.py:219-239 | returns the reference series of the table over D, l', l, F, with the first multiplier unused |
| Series.SecondarySum | elp2000.py:230-239 | the loop's (value, derivative) is the reference series for the given arguments |
| Dispatch.LayoutServesRule | elp2000.py:241-268 | every record of a table read in its own layout has the fields its evaluator reads |
| Dispatch.FileSeries | elp2000.py:241-268 | a table's scaled series exists exactly for indices below 36 |
| Dispatch.FileSeriesOfGroup | elp2000.py:241-268 | the scaled series of a table is its evaluator's series times its group's power of `t` |
| Dispatch.ScaledTables | elp2000.py:246-268 | the series is multiplied by `t` exactly for tables 7-9, 13-15, 19-21 and 25-27, by `t^2` exactly for 34-36, and by nothing for the rest |
| Dispatch.RoutedTables | elp2000.py:242-267 | tables 1-3, 4-9, 10-15, 16-21 and 22-36 go to the five evaluators, each as an if-and-only-if |
| Dispatch.UnscaledIsProduct | elp2000.py:243-245 | an unscaled result is the product with `t^0` |
| Dispatch.TimesTIsProduct | elp2000.py:247-248 | `[v t, d t + v]` is the product rule for `(v, d) * t` |
| Dispatch.TimesTSquaredIsProduct | elp2000.py:267-268 | `[v t^2, d t^2 + 2 v t]` is the product rule for `(v, d) * t^2` |
| Dispatch.CalcFile | elp2000.py:241-268 | the chain of index comparisons returns the table's scaled series for every index, including `None` past the last table |
| Assembly.SlotSumStep | elp2000.py:285-290 | group `q` adds table `3q + slot` to coordinate `slot` |
| Assembly.SlotsPartitionTables | elp2000.py:281-290 | the three coordinate sums together are the sum of all tables: each table is counted in exactly one coordinate |
| Assembly.CalcAll | elp2000.py:270-299 | returns the reference position: slot sums, W1 added to the longitude, arcseconds to radians |
| Assembly.AccumulateGroups | elp2000.py:271-290 | after the 12 groups, the three accumulator pairs are the sums of tables `3q`, `3q + 1` and `3q + 2` |
| Assembly.AddGroup | elp2000.py:282-290 | one pass extends each coordinate sum by one group |
| Assembly.CalcGroup | elp2000.py:282-284 | the three calls of a pass return the scaled series of tables `3q`, `3q + 1`, `3q + 2` |
| Assembly.CalcTable | elp2000.py:282-284 | the dispatcher answers for every table of a complete store, with its scaled series |
| Assembly.AssembleInDegrees | elp2000.py:292-299 | the returned dictionary is the reference position in the evaluator's expressions |
| Assembly.ToCartesian | elp2000.py:71-84 | position is `r cos(lon) cos(lat)`, `r sin(lon) cos(lat)`, `r sin(lat)`, and each velocity is that product's derivative divided by the seconds of a Julian century |
| Assembly.RateOfX | elp2000.py:81 | `vx` is the product-rule rate of `x`, per second |
| Assembly.RateOfY | elp2000.py:82 | `vy` is the product-rule rate of `y`, per second |
| Assembly.RateOfZ | elp2000.py:83 | `vz` is the product-rule rate of `z`, per second |
| Ephemeris.DataLines | elp2000.py:22-26 | the data lines are the lines after the header: one fewer, in order, and none for an empty file |
| Ephemeris.ReadLines | elp2000.py:23-56 | the records are the parses of a prefix of the data lines in order; either all lines parse, or reading stops at the first line that does not |
| Ephemeris.LineParsersShaped | elp2000.py:28-54 | the loader's parser for table `i` returns records of table `i`'s layout |
| Ephemeris.ReadLinesShaped | elp2000.py:28-56 | a table read with its parser has its own layout |
| Ephemeris.ReadLinesStops | elp2000.py:23-56 | reading stops at the first line that does not parse and keeps the records before it |
| Ephemeris.ReadLinesExtends | elp2000.py:23-56 | a line that parses appends its record |
| Ephemeris.LoadUpTo | elp2000.py:16-56 | a load of `n` tables leaves `n` tables on success, and `e + 1` tables on an error at table `e` |
| Ephemeris.Load | elp2000.py:16-56 | every table a load leaves, the incomplete one included, has its own layout |
| Ephemeris.LoadUpToSucceeds | elp2000.py:19-56 | a load succeeds exactly when every file is present and all its data lines parse |
| Ephemeris.LoadUpToContents | elp2000.py:19-56 | after a successful load, table `i` holds the records of every data line of file `i` |
| Ephemeris.LoadedTablesShaped | elp2000.py:19-56 | with any parsers that respect the layouts, every loaded table has its layout |
| Ephemeris.ErrorIsFinal | elp2000.py:19-21 | a load stops at its first error: later tables change nothing |
| Ephemeris.NoDataLineDropped | elp2000.py:19-56 | after a successful load there are 36 tables, and table `i` has one record per line after the header |
| Ephemeris.StateAt | elp2000.py:65-84 | the answer is `NotLoaded` exactly before any load, and `TableMissing(k)` exactly when only `k < 36` tables are present; otherwise it is the state at `et / 86400 / 36525` |
| Ephemeris.LoadThenEvaluate | elp2000.py:16-21 | after a successful load, evaluation gives a state; after a load that failed at table `e < 35`, it reports table `e + 1` missing; after one that failed at table 35, it gives a state |
| Ephemeris.Ephemeris.constructor | elp2000.py:5 | the initial state is not loaded and holds no tables |
| Ephemeris.Ephemeris.ReadFiles | elp2000.py:16-56 | the store becomes `Load`'s tables, including the partial store an error leaves; the error is returned; the store is valid and loaded |
| Ephemeris.Ephemeris.ReadNext | elp2000.py:19-56 | one pass adds table `i`'s slot and reads its file into it, as `LoadUpTo` describes |
| Ephemeris.Ephemeris.ReadTable | elp2000.py:20-56 | the slot of table `i` receives the records of the data lines up to the first failure, whose line index is returned; the other tables are unchanged |
| Ephemeris.Ephemeris.GetState | elp2000.py:65-84 | returns `StateAt` of the current store |

## Left out

- Records.ParseInt: only the ASCII digits 0-9 are read as digits; Python's `int()` also accepts the decimal digits of other scripts, so a field written in those digits is rejected by the model and read by the source.
- File access: file names (`path + 'ELP' + str(i+1)`) and opening them are not modelled. The files arrive as a map from the 0-based table index to the file's lines, and a key that is absent stands for a file that cannot be opened.
- Decimal parsing: Python's `float()` is a parameter `readFloat: string -> Option<real>`, since the model fixes no floating-point syntax. `int()` on text is modelled with the whitespace it strips (the ASCII space and `\t\n\v\f\r`, and the non-ASCII characters for which `str.isspace` holds), an optional sign and single underscores between digits.
- Floating point: all arithmetic is on exact reals. Rounding, and the order of floating-point additions, are not modelled.
- `math.sin`, `math.cos` and `math.pi` are the fields of a `Trig` parameter. No trigonometric identity is assumed.
- Exceptions are modelled as values. An unopenable file or a malformed number is `MissingFile` or `BadNumber`, carrying the table index and the 0-based line index in the file; the index error of an incomplete store is `TableMissing`. `KeyError` cannot happen, because every table holds records of its own layout.
- The `print` in `getState` is not modelled; that case returns `NotLoaded`.
- The global `_files` is a field of the class `Ephemeris.Ephemeris`. Concurrent use and reentrancy are not modelled.
- In the evaluators, `t**2` is written `t * t`, and so on for the other powers.
- In `_calc1_3`, the `dArg` line written twice (lines 109-110) is modelled once, and the `sin`/`cos` temporaries are inlined.
- In every evaluator, the fundamental arguments are computed in one method and the loop over the terms is a method of its own.
- `Ephemeris.Ephemeris.ReadFiles`: the loop over the tables stops when an error is returned by the last pass, rather than by raising.
- The commented-out line for `T` in `_calc10_15` (line 146) is not modelled.
- The constant term of the Neptune longitude is kept exactly as the source writes it, `304 * 3600 + 20 + 60 + 55.19575`. `FundamentalArguments.NeptuneConstantAsWritten` states its value.
