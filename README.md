# ElectriXi calculator core in Dafny

This project models the computational core of the ElectriXi electrical engineering calculator.

**Y-Bus formation** (`ybus-formation`) is the main part. It builds the bus admittance matrix of a power network from CSV line data (`from,to,R,X,B` per line) and returns it in polar form (magnitude and angle in degrees). The model follows the source step by step:

- **Parsing.** The text is split on newlines, each line on commas, and each field is converted to a number. `LineData.Split` follows JavaScript's `String.prototype.split`. The conversion `Number` is a parameter `number: string -> Option<real>`, where `None` stands for NaN or a missing field. Bus numbers are shifted to 0-based.
- **Abort on a bad bus.** Every row's buses are checked against the n × n matrix (`YBus.Validate`). In the source, a row whose bus is not an index of the matrix makes `ybus[from]` or `ybus[to]` undefined, so the assignment throws a TypeError. The model returns `Failure(InvalidBus(row))` for the first such row instead. The source throws mid-fill, but the partially filled matrix is never returned, so the two outcomes coincide.
- **Fill.** An n × n `array2<Complex>` of zeros is allocated. Each line is applied in list order by an in-place method (`YBus.StampLine`) that performs the source's four writes:
  - it overwrites `[from][to]` and `[to][from]` with −y;
  - it adds y + jB/2 into `[from][from]` and `[to][to]`.
- **Specification of a cell.** `YBus.Cell(lines, i, j)` is the specification of each cell. Lemmas characterise it:
  - the matrix is symmetric;
  - an off-diagonal cell holds the LAST joining line's −y;
  - a diagonal cell is the incident sum (without a self-loop at its bus);
  - a self-loop resets its diagonal;
  - one line touches only its four cells;
  - an unreferenced bus keeps a zero row.
- **Polar conversion.** The polar pass fills two fresh n × n `array2<real>` element by element. `Math.sqrt`, `Math.atan2` and `Math.PI` are parameters.

**Formula calculators** are the other part: Ohm's law, power, transformer, capacitance, inductance, electrical machines and measurements.

- They are modelled as functions over `real`, with lemmas for their round trips, consistency and bounds.
- The series-capacitor and parallel-inductor entries are loops in the source. Here they are methods with loop invariants, proved equal to the reciprocal combination `Sums.ReciprocalTotal`.
- The reduce-based totals are the left fold `Sums.Sum`.

Modules:
- **Helpers:** `Wrappers` (Option, Result), `Sums` (folds over sequences), `RealArith` (squares and sign lemmas) and `Complex` (complex arithmetic and polar form).
- **Line data and Y-Bus:** `LineData` (splitting and row parsing) and `YBus`.
- **One module per formula file:** `OhmsLaw`, `Power`, `Transformer`, `Capacitance`, `Inductance`, `ElectricalMachines` and `Measurements`.

Notes on the code:
- **Turns ratio.** `transformer.ts` gives the turns-ratio formula string as `a = Np / Ns = Vs / Vp`. The code computes `Vp / Vs`. For an ideal transformer that equals the `Np / Ns` half of the string (`Transformer.TurnsRatioOfSecondaryVoltage`); it contradicts only the `Vs / Vp` half. The model follows the code (`Transformer.TurnsRatio`).
- **Parallel lines.** The Y-Bus description `Ybus[i,j] = -y[i,j]` suggests a sum over parallel lines. The code overwrites instead, and the model reproduces the overwrite (`YBus.OffDiagonalLastLine`, `YBus.ParallelLinesOverwrite`).

## Model

| member | source | states |
|---|---|---|
| OhmsLaw.Current | project/src/calculators/ohmsLaw.ts:28-30 | for R ≠ 0, the current I = V/R satisfies Ohm's law: I × R = V |
| OhmsLaw.Resistance | project/src/calculators/ohmsLaw.ts:42-44 | for I ≠ 0, the resistance R = V/I satisfies I × R = V |
| OhmsLaw.CurrentOfVoltage | project/src/calculators/ohmsLaw.ts:14-30 | round trip: current(voltage(I, R), R) = I for R ≠ 0 |
| OhmsLaw.ResistanceOfCurrent | project/src/calculators/ohmsLaw.ts:28-44 | round trip: resistance(V, current(V, R)) = R for V, R ≠ 0 |
| OhmsLaw.AbsentThirdResistor | project/src/calculators/ohmsLaw.ts:57-77 | an absent or zero third resistor is skipped: the series total is r1 + r2 and the parallel conductance is 1/r1 + 1/r2 |
| OhmsLaw.ResistorsParallel | project/src/calculators/ohmsLaw.ts:72-78 | the parallel total is the reciprocal of the summed conductances: total × (1/r1 + 1/r2 [+ 1/r3]) = 1 |
| OhmsLaw.EqualResistors | project/src/calculators/ohmsLaw.ts:57-78 | two equal resistors R ≠ 0 give 2R in series and R/2 in parallel |
| OhmsLaw.ParallelIsReciprocalTotal | project/src/calculators/ohmsLaw.ts:72-78 | the parallel entry equals the general reciprocal combination of the resistors actually present |
| OhmsLaw.ConductanceOfPresentResistors | project/src/calculators/ohmsLaw.ts:73-76 | the accumulated conductance is Σ 1/r over exactly the resistors present, skipping an absent or zero r3 |
| OhmsLaw.ParallelBelowEachResistor | project/src/calculators/ohmsLaw.ts:72-78 | for positive resistors, the parallel total is positive and strictly smaller than each resistor present |
| Power.DissipationNonNegative | project/src/calculators/power.ts:28-30 | I²R ≥ 0 whenever R ≥ 0 |
| Power.PowerFormulasAgree | project/src/calculators/power.ts:14-44 | if V = I·R with R ≠ 0, then V·I = I²·R = V²/R |
| Power.EnergyAdditiveInTime | project/src/calculators/power.ts:56-58 | E = P × t is additive over time intervals |
| Power.Efficiency | project/src/calculators/power.ts:70-72 | η × Pin = 100 × Pout for Pin ≠ 0 |
| Power.FullEfficiency | project/src/calculators/power.ts:70-72 | Pout = Pin ≠ 0 gives 100 % |
| Power.EfficiencyBounded | project/src/calculators/power.ts:70-72 | 0 ≤ Pout ≤ Pin with Pin > 0 gives an efficiency in [0, 100] |
| Transformer.PowerConserved | project/src/calculators/transformer.ts:15-32 | secondary voltage × secondary current = Vp × Ip for Np, Ns ≠ 0 |
| Transformer.UnityRatio | project/src/calculators/transformer.ts:15-32 | Np = Ns leaves voltage and current unchanged |
| Transformer.TurnsRatio | project/src/calculators/transformer.ts:44-46 | the ratio a = Vp/Vs satisfies a × Vs = Vp |
| Transformer.TurnsRatioOfSecondaryVoltage | project/src/calculators/transformer.ts:15-46 | round trip: turns-ratio(Vp, secondary-voltage(Vp, Np, Ns)) = Np/Ns for Vp, Np, Ns ≠ 0 |
| Transformer.Efficiency | project/src/calculators/transformer.ts:58-60 | η × Pin = 100 × Pout, the same relation as the power efficiency entry |
| Transformer.PowerFactorScales | project/src/calculators/transformer.ts:73-75 | for every power factor, transformer power is pf times the V·I power, and lies between 0 and V·I for 0 ≤ pf ≤ 1 and V·I ≥ 0 |
| Transformer.UnityPowerFactor | project/src/calculators/transformer.ts:73-75 | with power factor 1, transformer power V·I·pf is the plain V·I power |
| Capacitance.Capacitance | project/src/calculators/capacitance.ts:15-17 | C = Q/V satisfies C × V = Q for V ≠ 0 |
| Capacitance.CapacitorsSeries | project/src/calculators/capacitance.ts:30-36 | the loop accumulates Σ 1/values[k] (loop invariant over the prefix) and returns its reciprocal, the reciprocal combination of all values |
| Capacitance.ParallelOfNone | project/src/calculators/capacitance.ts:49-51 | the reduce starts at 0, so no capacitors give 0 |
| Capacitance.EqualCapacitors | project/src/calculators/capacitance.ts:30-51 | N equal capacitors C ≠ 0 give C/N in series and N·C in parallel |
| Capacitance.SeriesBelowSmallest | project/src/calculators/capacitance.ts:30-36 | positive capacitors in series give a positive total no larger than any single capacitor |
| Capacitance.EnergyCapacitorSign | project/src/calculators/capacitance.ts:79-81 | ½CV² ≥ 0 for C ≥ 0, and is unchanged when V is negated |
| Inductance.Inductance | project/src/calculators/inductance.ts:15-17 | L = Φ/I satisfies L × I = Φ for I ≠ 0 |
| Inductance.InductorsParallel | project/src/calculators/inductance.ts:45-51 | the loop accumulates Σ 1/values[k] (loop invariant over the prefix) and returns its reciprocal, the reciprocal combination of all values |
| Inductance.TotalsIgnoreOrder | project/src/calculators/inductance.ts:30-51 | permuting the inductors changes neither the series total nor the parallel total |
| Inductance.EqualInductors | project/src/calculators/inductance.ts:30-51 | N equal inductors L ≠ 0 give N·L in series and L/N in parallel |
| Inductance.EnergyInductorNonNegative | project/src/calculators/inductance.ts:79-81 | ½LI² ≥ 0 for L ≥ 0 |
| Sums.SumOfPermutation | project/src/calculators/inductance.ts:30-32 | a reduce-style sum does not depend on the order of the values |
| Sums.SumOfAppend | project/src/calculators/capacitance.ts:49-51 | the running sum splits over concatenation |
| Sums.SumOfConstant | project/src/calculators/capacitance.ts:49-51 | the sum of N copies of one value is N times its term |
| Sums.ReciprocalSumBounds | project/src/calculators/capacitance.ts:31-35 | for positive values, each term 1/values[k] is positive and at most the accumulated sum |
| Sums.ReciprocalTotal | project/src/calculators/capacitance.ts:35 | the returned 1/sum times the sum of reciprocals is 1 |
| Sums.ReciprocalTotalOfEqual | project/src/calculators/inductance.ts:46-50 | N equal values c ≠ 0 combine reciprocally to c/N |
| Sums.ReciprocalTotalBounds | project/src/calculators/inductance.ts:46-50 | positive values combine reciprocally to a positive total no larger than any value |
| ElectricalMachines.TorqueLinear | project/src/calculators/electricalMachines.ts:15-17 | T = kΦ·Ia is linear in the armature current |
| ElectricalMachines.Slip | project/src/calculators/electricalMachines.ts:30-32 | slip s satisfies s × Ns = 100 × (Ns − Nr) for Ns ≠ 0 |
| ElectricalMachines.SlipExtremes | project/src/calculators/electricalMachines.ts:30-32 | slip is 0 % at synchronous speed and 100 % for a stalled rotor |
| ElectricalMachines.SynchronousSpeed | project/src/calculators/electricalMachines.ts:45-47 | Ns × P = 120 f for P ≠ 0 |
| ElectricalMachines.DoublePolesHalveSpeed | project/src/calculators/electricalMachines.ts:45-47 | doubling the number of poles halves the synchronous speed |
| ElectricalMachines.ReferredResistanceProperties | project/src/calculators/electricalMachines.ts:60-62 | R2·a² is unchanged for a = ±1 and non-negative for R2 ≥ 0 |
| ElectricalMachines.StartingTorquePositive | project/src/calculators/electricalMachines.ts:77-80 | 3V²R2′/(ωs(R1 + R2′)²) > 0 for V ≠ 0, R2′ > 0, ωs > 0, R1 + R2′ ≠ 0 |
| Measurements.MeterConstant | project/src/calculators/measurements.ts:15-17 | k × (Eh × t) = 3600 × N |
| Measurements.ShuntSharesMeterVoltage | project/src/calculators/measurements.ts:30-33 | the shunt carries the meter's voltage: Rs × (I − Im) = Rm × Im for I ≠ Im |
| Measurements.ShuntPositive | project/src/calculators/measurements.ts:30-33 | the shunt is positive for Rm > 0, Im > 0 and I > Im |
| Measurements.MultiplierReachesRange | project/src/calculators/measurements.ts:46-48 | with the multiplier in series, full-scale current gives the range voltage: (Rmult + Ri) × Im = V |
| Complex.MagnitudeIsLength | project/src/calculators/networkAnalysis.ts:13-17 | given a true square root, the polar magnitude is non-negative and squares to re² + im² |
| Complex.ZeroEntryAngle | project/src/calculators/networkAnalysis.ts:13-17 | a zero entry has angle 0 when atan2(0, 0) = 0 |
| LineData.Split | project/src/calculators/networkAnalysis.ts:33-34 | splitting always yields at least one piece, as JavaScript's split does |
| LineData.JoinSplit | project/src/calculators/networkAnalysis.ts:33-34 | splitting loses nothing: rejoining the pieces with the separator gives the text back |
| LineData.SplitPieces | project/src/calculators/networkAnalysis.ts:33-34 | no piece contains the separator, and there is one more piece than separators |
| LineData.SplitJoin | project/src/calculators/networkAnalysis.ts:33-34 | separator-free pieces joined and split again are returned unchanged |
| LineData.ParseLineData | project/src/calculators/networkAnalysis.ts:33-36 | there is one row more than the text has newlines (blank lines included), and row k is parsed from text line k |
| LineData.RowsOfLines | project/src/calculators/networkAnalysis.ts:33-36 | the rows are parsed from newline-free lines that rejoin with newlines to the whole text, one row per line and one more line than newlines |
| LineData.ParseFiveFields | project/src/calculators/networkAnalysis.ts:34-35 | a line's fields are read in the order from, to, R, X, B, with bus numbers shifted down by one; fields beyond the fifth are ignored |
| LineData.MissingFields | project/src/calculators/networkAnalysis.ts:34-35 | missing fields are not rejected: with fewer than 1, 2, 3 or 4 commas, `to`, R, X and B respectively become None (NaN in the source) |
| LineData.BlankLine | project/src/calculators/networkAnalysis.ts:34-35 | a blank line reads as bus index −1 with no `to` bus |
| LineData.TrailingNewline | project/src/calculators/networkAnalysis.ts:33 | text ending in a newline has a blank last line |
| YBus.ToLine | project/src/calculators/networkAnalysis.ts:35-45 | a row with valid bus indices becomes a line whose bus numbers and R, X, B are exactly the parsed values |
| YBus.Validate | project/src/calculators/networkAnalysis.ts:44-56 | success exactly when every row's buses are matrix indices, with the lines in order; otherwise the error names the first row with a bus outside 1..n, whatever the R, X, B of the rows |
| YBus.TrailingNewlineAborts | project/src/calculators/networkAnalysis.ts:33-56 | line data ending in a newline always aborts, whatever its other rows and the number conversion: the blank last line has no `to` bus |
| YBus.AdmittanceIsInverse | project/src/calculators/networkAnalysis.ts:46-49 | the series admittance times R + jX is 1 + 0j whenever R² + X² ≠ 0 |
| YBus.CellSymmetric | project/src/calculators/networkAnalysis.ts:52-59 | after any list of lines, cell (i, j) equals cell (j, i) |
| YBus.OffDiagonalUnjoined | project/src/calculators/networkAnalysis.ts:39-59 | an off-diagonal cell of two buses no line joins stays 0 |
| YBus.OffDiagonalLastLine | project/src/calculators/networkAnalysis.ts:52-59 | an off-diagonal cell holds −y of the last line joining its buses, in either direction; earlier parallel lines are overwritten |
| YBus.ParallelLinesOverwrite | project/src/calculators/networkAnalysis.ts:52-59 | two identical 1 Ω lines between the same buses give −1, not the −2 of a sum |
| YBus.DiagonalIsIncidentSum | project/src/calculators/networkAnalysis.ts:61-65 | without a self-loop at bus k, diagonal cell (k, k) is the sum of y + jB/2 over the lines incident to k |
| YBus.SelfLoopResetsDiagonal | project/src/calculators/networkAnalysis.ts:52-65 | a self-loop line leaves its diagonal at y + jB, discarding what earlier lines had accumulated there |
| YBus.LineTouchesOnlyItsCells | project/src/calculators/networkAnalysis.ts:52-65 | one line changes only cells [from][to], [to][from], [from][from] and [to][to] |
| YBus.UnreferencedBusRow | project/src/calculators/networkAnalysis.ts:39-65 | a bus no line mentions keeps a zero row and column |
| YBus.StampLine | project/src/calculators/networkAnalysis.ts:45-65 | in place, each cell becomes its old value after the line's two overwrites and two additions, and every other cell is unchanged |
| YBus.FormYBus | project/src/calculators/networkAnalysis.ts:39-66 | returns a fresh n × n matrix whose every cell is the specified cell value after all lines, in order |
| YBus.PolarRow | project/src/calculators/networkAnalysis.ts:75-79 | the inner loop converts every entry of row i to polar form and leaves the other rows unchanged |
| YBus.PolarMatrices | project/src/calculators/networkAnalysis.ts:69-80 | returns two fresh, distinct matrices of the matrix's shape; entry (i, j) is the polar form of cell (i, j) alone |
| YBus.YBusFormation | project/src/calculators/networkAnalysis.ts:31-83 | fails exactly when some row has a bus outside 1..n, naming the first one, whatever the R, X, B of the rows; otherwise returns n × n magnitude and angle matrices of every specified cell, both symmetric |

## Left out

- `Number`: JavaScript's text-to-number conversion is not modelled. It is the parameter `number`, which gives None for NaN. No property of the conversion is assumed, except that `LineData.BlankLine` takes `Number("") = 0` as a hypothesis for its `from` value.
- IEEE-754 doubles are exact `real`s here. Rounding is not modelled, and neither are the Infinity and NaN that a zero denominator produces. Each division's denominator is required to be non-zero instead. The state of a result made of Infinity or NaN is outside the model.
- YBus.YBusFormation: on the success path only (every row's buses are valid), requires each row to have numeric R, X and B with R² + X² ≠ 0. The source accepts such rows and fills cells with NaN or Infinity, which the model leaves out as above. The failure path has no such requirement.
- YBus.YBusFormation: takes the bus count as a `nat`. A count that is not a valid array length (the `RangeError` of `Array(n)`) is not modelled.
- `Math.sqrt`, `Math.atan2` and `Math.PI` are parameters of the polar conversion. Only their defining properties are used (`Complex.MagnitudeIsLength` assumes a true square root). The capacitive and inductive reactances, the charging time and the mutual inductance need π, a logarithm or a square root, and are not part of this model.
- The other calculator files (AC circuits, control systems, power systems, power electronics, circuit analysis, electromagnetics) are not part of this model. They are dominated by transcendental functions or are placeholders returning constants. The Thevenin, Norton and superposition entries of the network-analysis file are placeholders too.
- The React user interface is not part of this model. It covers the form, the search filter and the result rendering. In that interface, a thrown error becomes a message, and `YBus.YBusError` stands for that.
- Calculator metadata (names, descriptions, formula strings and units) is not modelled.
- `Sums.Reciprocal` maps 0 to 0 so that the fold can take a total function. Every use requires all values non-zero, so the convention is never observed.
- The matrix is a 2-D array of values. Each cell in the source is its own fresh object, so no two cells alias and a value model loses nothing.
