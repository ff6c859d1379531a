/**
 * Y-Bus formation: the bus admittance matrix of a power network, built from
 * a line list and returned in polar form.
 *
 * The builder allocates an n × n matrix of complex zeros and then, for each
 * line in list order, computes the series admittance y = 1 / (R + jX),
 * OVERWRITES both off-diagonal cells [from][to] and [to][from] with -y, and
 * ADDS y + jB/2 into both diagonal cells [from][from] and [to][to]. Finally
 * every cell is converted to polar form.
 *
 * `Cell(lines, i, j)` is the value of cell (i, j) after the given lines have
 * been processed; the lemmas below characterise it independently (symmetry,
 * last-line-wins off the diagonal, incident sums on it, what one line leaves
 * alone), and the in-place methods are proved to compute it.
 */
module YBus {
  import opened Wrappers
  import opened Complex
  import opened LineData

  /** A transmission line between two 0-based bus indices, with R, X and the line-charging B. */
  datatype Line = Line(from: int, to: int, r: real, x: real, b: real)

  /**
   * The calculation aborts: a bus number of the given row (0-based position in
   * the line list) is not an index of the matrix, so `ybus[from]` or
   * `ybus[to]` is undefined and the assignment throws.
   */
  datatype YBusError = InvalidBus(row: nat)

  /** Both result matrices, each n × n. */
  datatype YBusResult = YBusResult(magnitude: array2<real>, angle: array2<real>)

  // ---------------------------------------------------------------------------
  // From parsed rows to lines

  /** A parsed bus field names a row of an n × n matrix: an integer in 0..n-1. */
  predicate IsBusIndex(v: Option<real>, n: nat)
  {
    v.Some? && v.value == v.value.Floor as real && 0 <= v.value.Floor < n
  }

  /** Both bus fields of the row are matrix indices, so processing it does not throw. */
  predicate Addressable(row: Row, n: nat)
  {
    IsBusIndex(row.from, n) && IsBusIndex(row.to, n)
  }

  /** R, X and B are numbers and R + jX is not zero, so no NaN or Infinity arises. */
  predicate Numeric(row: Row)
  {
    row.r.Some? && row.x.Some? && row.b.Some? &&
    row.r.value * row.r.value + row.x.value * row.x.value != 0.0
  }

  predicate InRange(l: Line, n: nat)
  {
    0 <= l.from < n && 0 <= l.to < n
  }

  predicate NonDegenerate(l: Line)
  {
    l.r * l.r + l.x * l.x != 0.0
  }

  function ToLine(row: Row, n: nat): (l: Line)
    requires Addressable(row, n) && Numeric(row)
    ensures InRange(l, n) && NonDegenerate(l)
    ensures l.from as real == row.from.value && l.to as real == row.to.value
    ensures Some(l.r) == row.r && Some(l.x) == row.x && Some(l.b) == row.b
  {
    Line(row.from.value.Floor, row.to.value.Floor, row.r.value, row.x.value, row.b.value)
  }

  /** Every row's buses are matrix indices, so the fill loop runs to the end. */
  predicate AllAddressable(rows: seq<Row>, n: nat)
  {
    forall k | 0 <= k < |rows| :: Addressable(rows[k], n)
  }

  /**
   * The rows the model builds a matrix from: a row whose buses are valid
   * indices carries numeric R, X, B with R + jX != 0. Rows with an invalid
   * bus need not.
   */
  predicate Acceptable(rows: seq<Row>, n: nat)
  {
    forall k | 0 <= k < |rows| :: Addressable(rows[k], n) ==> Numeric(rows[k])
  }

  /**
   * The lines of an n-bus network, or the position of the first row whose
   * bus fields are not matrix indices (where the source's fill loop throws).
   */
  function Validate(rows: seq<Row>, n: nat): (res: Result<seq<Line>, YBusError>)
    requires AllAddressable(rows, n) ==> Acceptable(rows, n)
    ensures res.Success? <==> AllAddressable(rows, n)
    ensures res.Failure? ==>
              res.error.row < |rows| && !Addressable(rows[res.error.row], n) &&
              forall k | 0 <= k < res.error.row :: Addressable(rows[k], n)
    ensures res.Success? ==>
              |res.value| == |rows| &&
              forall k | 0 <= k < |rows| :: res.value[k] == ToLine(rows[k], n)
    decreases |rows|
  {
    if rows == [] then Success([])
    else if !Addressable(rows[0], n) then Failure(InvalidBus(0))
    else
      assert AllAddressable(rows[1..], n) ==> AllAddressable(rows, n) && Acceptable(rows[1..], n) by {
        if AllAddressable(rows[1..], n) {
          forall k | 0 <= k < |rows| ensures Addressable(rows[k], n) {
            if k > 0 { assert rows[k] == rows[1..][k - 1]; }
          }
          forall k | 0 <= k < |rows[1..]| ensures Addressable(rows[1..][k], n) ==> Numeric(rows[1..][k]) {
            assert rows[1..][k] == rows[k + 1];
          }
        }
      }
      match Validate(rows[1..], n)
      case Failure(e) => Failure(InvalidBus(e.row + 1))
      case Success(rest) => Success([ToLine(rows[0], n)] + rest)
  }

  /**
   * Line data that ends in a newline always aborts, whatever its other rows
   * hold: its blank last line has no `to` bus, so `ybus[to]` is undefined.
   */
  lemma TrailingNewlineAborts(lineData: string, number: string -> Option<real>, n: nat)
    ensures !AllAddressable(ParseLineData(lineData + "\n", number), n)
    ensures Validate(ParseLineData(lineData + "\n", number), n).Failure?
  {
    TrailingNewline(lineData);
    var rows := ParseLineData(lineData + "\n", number);
    assert rows[|rows| - 1].to == None;
    assert !Addressable(rows[|rows| - 1], n);
  }

  // ---------------------------------------------------------------------------
  // The admittance matrix, cell by cell

  /** y = 1 / (R + jX) = (R - jX) / (R² + X²). */
  function SeriesAdmittance(l: Line): Complex
    requires NonDegenerate(l)
  {
    var d := l.r * l.r + l.x * l.x;
    Complex(l.r / d, -l.x / d)
  }

  /** What each end's diagonal cell gains from a line: y + jB/2. */
  function Charging(l: Line): Complex
    requires NonDegenerate(l)
  {
    var y := SeriesAdmittance(l);
    Complex(y.re, y.im + l.b / 2.0)
  }

  /** The line runs between buses i and j, in either direction. */
  predicate Joins(l: Line, i: int, j: int)
  {
    (l.from == i && l.to == j) || (l.from == j && l.to == i)
  }

  /**
   * The new value of cell (i, j), previously prev, after the four writes for
   * line l in the source's order: [from][to] := -y, [to][from] := -y,
   * [from][from] += y + jB/2, [to][to] += y + jB/2.
   */
  function StampCell(prev: Complex, l: Line, i: int, j: int): Complex
    requires NonDegenerate(l)
  {
    var y := SeriesAdmittance(l);
    if i != j then
      if Joins(l, i, j) then Neg(y) else prev
    else
      var written := if l.from == i && l.to == i then Neg(y) else prev;
      var once := if l.from == i then Add(written, Charging(l)) else written;
      if l.to == i then Add(once, Charging(l)) else once
  }

  predicate AllNonDegenerate(lines: seq<Line>)
  {
    forall k | 0 <= k < |lines| :: NonDegenerate(lines[k])
  }

  /** Cell (i, j) of the matrix after processing the lines in order, starting from zero. */
  function Cell(lines: seq<Line>, i: int, j: int): Complex
    requires AllNonDegenerate(lines)
    decreases |lines|
  {
    if lines == [] then Zero
    else StampCell(Cell(lines[..|lines| - 1], i, j), lines[|lines| - 1], i, j)
  }

  /** Σ (y + jB/2) over the lines incident to bus k: the diagonal as the formula Ybus[i,i] = Σ y[i,k] describes it. */
  function IncidentSum(lines: seq<Line>, k: int): Complex
    requires AllNonDegenerate(lines)
    decreases |lines|
  {
    if lines == [] then Zero
    else
      var l := lines[|lines| - 1];
      var before := IncidentSum(lines[..|lines| - 1], k);
      if l.from == k || l.to == k then Add(before, Charging(l)) else before
  }

  // ---------------------------------------------------------------------------
  // Properties of the specification

  /** The series admittance is the inverse of the series impedance: y × (R + jX) = 1. */
  lemma AdmittanceIsInverse(l: Line)
    requires NonDegenerate(l)
    ensures Mul(SeriesAdmittance(l), Complex(l.r, l.x)) == One
  {
    var d := l.r * l.r + l.x * l.x;
    var y := SeriesAdmittance(l);
    calc {
      y.re * l.r - y.im * l.x;
    ==
      (l.r / d) * l.r + (l.x / d) * l.x;
    ==
      (l.r * l.r + l.x * l.x) / d;
    ==
      1.0;
    }
    calc {
      y.re * l.x + y.im * l.r;
    ==
      (l.r / d) * l.x - (l.x / d) * l.r;
    ==
      (l.r * l.x - l.x * l.r) / d;
    ==
      0.0;
    }
  }

  /** The matrix is symmetric: every off-diagonal write sets both cells to the same value. */
  lemma {:induction false} CellSymmetric(lines: seq<Line>, i: int, j: int)
    requires AllNonDegenerate(lines)
    ensures Cell(lines, i, j) == Cell(lines, j, i)
    decreases |lines|
  {
    if lines != [] {
      CellSymmetric(lines[..|lines| - 1], i, j);
    }
  }

  /** Two buses that no line joins keep a zero off-diagonal cell. */
  lemma {:induction false} OffDiagonalUnjoined(lines: seq<Line>, i: int, j: int)
    requires AllNonDegenerate(lines) && i != j
    requires forall k | 0 <= k < |lines| :: !Joins(lines[k], i, j)
    ensures Cell(lines, i, j) == Zero
    decreases |lines|
  {
    if lines != [] {
      OffDiagonalUnjoined(lines[..|lines| - 1], i, j);
    }
  }

  /**
   * Off the diagonal, the cell holds -y of the LAST line joining the two
   * buses: earlier parallel lines are overwritten, not summed.
   */
  lemma {:induction false} OffDiagonalLastLine(lines: seq<Line>, i: int, j: int, k: nat)
    requires AllNonDegenerate(lines) && i != j
    requires k < |lines| && Joins(lines[k], i, j)
    requires forall m | k < m < |lines| :: !Joins(lines[m], i, j)
    ensures Cell(lines, i, j) == Neg(SeriesAdmittance(lines[k]))
    decreases |lines|
  {
    if k < |lines| - 1 {
      OffDiagonalLastLine(lines[..|lines| - 1], i, j, k);
    }
  }

  /** Two identical 1 Ω lines between buses 1 and 2 give an off-diagonal of -1, not the -2 of two parallel admittances. */
  lemma ParallelLinesOverwrite()
    ensures var line := Line(0, 1, 1.0, 0.0, 0.0);
            AllNonDegenerate([line, line]) &&
            SeriesAdmittance(line) == One &&
            Cell([line, line], 0, 1) == Complex(-1.0, 0.0) &&
            Cell([line, line], 0, 1) != Neg(Add(SeriesAdmittance(line), SeriesAdmittance(line)))
  {
    var line := Line(0, 1, 1.0, 0.0, 0.0);
    UnitResistorAdmittance();
    OffDiagonalLastLine([line, line], 0, 1, 1);
  }

  /** A pure 1 Ω resistor has admittance 1 S. */
  lemma UnitResistorAdmittance()
    ensures NonDegenerate(Line(0, 1, 1.0, 0.0, 0.0))
    ensures SeriesAdmittance(Line(0, 1, 1.0, 0.0, 0.0)) == One
  {
    var line := Line(0, 1, 1.0, 0.0, 0.0);
    calc {
      line.r * line.r + line.x * line.x;
    ==
      1.0 * 1.0 + 0.0 * 0.0;
    ==
      1.0;
    }
    calc {
      SeriesAdmittance(line);
    ==
      Complex(1.0 / 1.0, -0.0 / 1.0);
    ==
      One;
    }
  }

  /** Without a self-loop at bus k, diagonal cell (k, k) is the sum of y + jB/2 over the lines incident to k. */
  lemma {:induction false} DiagonalIsIncidentSum(lines: seq<Line>, k: int)
    requires AllNonDegenerate(lines)
    requires forall m | 0 <= m < |lines| :: !(lines[m].from == k && lines[m].to == k)
    ensures Cell(lines, k, k) == IncidentSum(lines, k)
    decreases |lines|
  {
    if lines != [] {
      DiagonalIsIncidentSum(lines[..|lines| - 1], k);
    }
  }

  /**
   * A self-loop line (from = to) first overwrites its diagonal cell with -y
   * and then adds y + jB/2 twice, leaving y + jB whatever the earlier lines
   * had accumulated there.
   */
  lemma SelfLoopResetsDiagonal(lines: seq<Line>, l: Line)
    requires AllNonDegenerate(lines) && NonDegenerate(l) && l.from == l.to
    ensures AllNonDegenerate(lines + [l])
    ensures Cell(lines + [l], l.from, l.from)
            == Complex(SeriesAdmittance(l).re, SeriesAdmittance(l).im + l.b)
  {
    assert (lines + [l])[..|lines|] == lines;
  }

  /**
   * One line changes only the cells [from][to], [to][from], [from][from] and
   * [to][to]; every other cell keeps its value.
   */
  lemma LineTouchesOnlyItsCells(lines: seq<Line>, l: Line, i: int, j: int)
    requires AllNonDegenerate(lines) && NonDegenerate(l)
    requires !((i == l.from || i == l.to) && (j == l.from || j == l.to))
    ensures AllNonDegenerate(lines + [l])
    ensures Cell(lines + [l], i, j) == Cell(lines, i, j)
  {
    assert (lines + [l])[..|lines|] == lines;
  }

  /** A bus that no line mentions keeps a zero row (and, by symmetry, a zero column). */
  lemma {:induction false} UnreferencedBusRow(lines: seq<Line>, k: int, j: int)
    requires AllNonDegenerate(lines)
    requires forall m | 0 <= m < |lines| :: lines[m].from != k && lines[m].to != k
    ensures Cell(lines, k, j) == Zero && Cell(lines, j, k) == Zero
    decreases |lines|
  {
    if lines != [] {
      UnreferencedBusRow(lines[..|lines| - 1], k, j);
    }
  }

  // ---------------------------------------------------------------------------
  // The imperative builder

  /** Apply one line's four writes to the matrix in place. */
  method StampLine(ybus: array2<Complex>, l: Line)
    requires 0 <= l.from < ybus.Length0 && 0 <= l.to < ybus.Length0
    requires 0 <= l.from < ybus.Length1 && 0 <= l.to < ybus.Length1
    requires NonDegenerate(l)
    modifies ybus
    ensures forall i, j | 0 <= i < ybus.Length0 && 0 <= j < ybus.Length1 ::
              ybus[i, j] == StampCell(old(ybus[i, j]), l, i, j)
  {
    var y := SeriesAdmittance(l);
    // Off-diagonal elements
    ybus[l.from, l.to] := Neg(y);
    ybus[l.to, l.from] := Neg(y);
    // Diagonal elements
    ybus[l.from, l.from] := Add(ybus[l.from, l.from], Charging(l));
    ybus[l.to, l.to] := Add(ybus[l.to, l.to], Charging(l));
  }

  /** Allocate the n × n zero matrix and process every line in list order. */
  method FormYBus(n: nat, lines: seq<Line>) returns (ybus: array2<Complex>)
    requires forall k | 0 <= k < |lines| :: InRange(lines[k], n) && NonDegenerate(lines[k])
    ensures fresh(ybus) && ybus.Length0 == n && ybus.Length1 == n
    ensures AllNonDegenerate(lines)
    ensures forall i, j | 0 <= i < n && 0 <= j < n :: ybus[i, j] == Cell(lines, i, j)
  {
    ybus := new Complex[n, n]((i, j) => Zero);
    for k := 0 to |lines|
      invariant AllNonDegenerate(lines[..k])
      invariant forall i, j | 0 <= i < n && 0 <= j < n :: ybus[i, j] == Cell(lines[..k], i, j)
    {
      StampLine(ybus, lines[k]);
      assert lines[..k + 1][..k] == lines[..k];
      assert lines[..k + 1][k] == lines[k];
    }
    assert lines[..|lines|] == lines;
  }

  /** The inner loop: convert row i, leaving the other rows as they were. */
  method PolarRow(ybus: array2<Complex>, magnitude: array2<real>, angle: array2<real>, i: nat,
                  sqrt: real -> real, atan2: (real, real) -> real, pi: real)
    requires pi != 0.0 && magnitude != angle
    requires magnitude.Length0 == angle.Length0 == ybus.Length0
    requires magnitude.Length1 == angle.Length1 == ybus.Length1
    requires i < ybus.Length0
    modifies magnitude, angle
    ensures forall j | 0 <= j < ybus.Length1 ::
              magnitude[i, j] == ToPolar(ybus[i, j], sqrt, atan2, pi).magnitude &&
              angle[i, j] == ToPolar(ybus[i, j], sqrt, atan2, pi).angle
    ensures forall i', j | 0 <= i' < ybus.Length0 && i' != i && 0 <= j < ybus.Length1 ::
              magnitude[i', j] == old(magnitude[i', j]) && angle[i', j] == old(angle[i', j])
  {
    for j := 0 to ybus.Length1
      invariant forall j' | 0 <= j' < j ::
                  magnitude[i, j'] == ToPolar(ybus[i, j'], sqrt, atan2, pi).magnitude &&
                  angle[i, j'] == ToPolar(ybus[i, j'], sqrt, atan2, pi).angle
      invariant forall i', j' | 0 <= i' < ybus.Length0 && i' != i && 0 <= j' < ybus.Length1 ::
                  magnitude[i', j'] == old(magnitude[i', j']) && angle[i', j'] == old(angle[i', j'])
    {
      var polar := ToPolar(ybus[i, j], sqrt, atan2, pi);
      magnitude[i, j] := polar.magnitude;
      angle[i, j] := polar.angle;
    }
  }

  /** Convert every cell to polar form, element by element, into two fresh matrices of the same shape. */
  method PolarMatrices(ybus: array2<Complex>, sqrt: real -> real, atan2: (real, real) -> real, pi: real)
    returns (magnitude: array2<real>, angle: array2<real>)
    requires pi != 0.0
    ensures fresh(magnitude) && fresh(angle) && magnitude != angle
    ensures magnitude.Length0 == angle.Length0 == ybus.Length0
    ensures magnitude.Length1 == angle.Length1 == ybus.Length1
    ensures forall i, j | 0 <= i < ybus.Length0 && 0 <= j < ybus.Length1 ::
              magnitude[i, j] == ToPolar(ybus[i, j], sqrt, atan2, pi).magnitude &&
              angle[i, j] == ToPolar(ybus[i, j], sqrt, atan2, pi).angle
  {
    magnitude := new real[ybus.Length0, ybus.Length1]((i, j) => 0.0);
    angle := new real[ybus.Length0, ybus.Length1]((i, j) => 0.0);
    for i := 0 to ybus.Length0
      invariant forall i', j | 0 <= i' < i && 0 <= j < ybus.Length1 ::
                  magnitude[i', j] == ToPolar(ybus[i', j], sqrt, atan2, pi).magnitude &&
                  angle[i', j] == ToPolar(ybus[i', j], sqrt, atan2, pi).angle
    {
      PolarRow(ybus, magnitude, angle, i, sqrt, atan2, pi);
    }
  }

  /**
   * The whole `ybus-formation` calculation: parse the line list, abort at the
   * first row with a bus outside 1..n, otherwise build the matrix and return
   * it in polar form. `number` stands for JavaScript's `Number`.
   */
  method YBusFormation(busCount: nat, lineData: string, number: string -> Option<real>,
                       sqrt: real -> real, atan2: (real, real) -> real, pi: real)
    returns (res: Result<YBusResult, YBusError>)
    requires pi != 0.0
    requires AllAddressable(ParseLineData(lineData, number), busCount) ==>
             Acceptable(ParseLineData(lineData, number), busCount)
    ensures var rows := ParseLineData(lineData, number);
            res.Failure? <==> exists k | 0 <= k < |rows| :: !Addressable(rows[k], busCount)
    ensures var rows := ParseLineData(lineData, number);
            res.Failure? ==> Validate(rows, busCount) == Failure(res.error)
    ensures res.Success? ==>
              var rows := ParseLineData(lineData, number);
              var lines := Validate(rows, busCount).value;
              var m := res.value.magnitude;
              var a := res.value.angle;
              fresh(m) && fresh(a) && m != a &&
              m.Length0 == m.Length1 == a.Length0 == a.Length1 == busCount &&
              AllNonDegenerate(lines) &&
              forall i, j | 0 <= i < busCount && 0 <= j < busCount ::
                m[i, j] == ToPolar(Cell(lines, i, j), sqrt, atan2, pi).magnitude &&
                a[i, j] == ToPolar(Cell(lines, i, j), sqrt, atan2, pi).angle
    ensures res.Success? ==>
              var m := res.value.magnitude;
              var a := res.value.angle;
              forall i, j | 0 <= i < busCount && 0 <= j < busCount ::
                m[i, j] == m[j, i] && a[i, j] == a[j, i]
  {
    var rows := ParseLineData(lineData, number);
    var checked := Validate(rows, busCount);
    if checked.Failure? {
      return Failure(checked.error);
    }
    var lines := checked.value;
    var ybus := FormYBus(busCount, lines);
    var magnitude, angle := PolarMatrices(ybus, sqrt, atan2, pi);
    forall i, j | 0 <= i < busCount && 0 <= j < busCount
      ensures Cell(lines, i, j) == Cell(lines, j, i)
    {
      CellSymmetric(lines, i, j);
    }
    res := Success(YBusResult(magnitude, angle));
  }
}
