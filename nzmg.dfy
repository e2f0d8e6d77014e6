/** The New Zealand Map Grid of projCode/nzmg.php.  The forward projection
    sums a real power series in the latitude difference and then a complex
    power series in θ = dPsi + i·dLambda; the inverse sums a complex series
    in z = Δy/a + i·Δx/a, refines θ a fixed number of times, and sums a
    real series back to a latitude.  The coefficient tables are numbered
    from 1 in the source; entry n is at index n-1 here. */
module Nzmg {
  import opened Common
  import opened Points
  import opened ComplexArith

  const ATable: seq<real> := [0.6399175073, -0.1358797613, 0.063294409, -0.02526853, 0.0117879,
                              -0.0055161, 0.0026906, -0.001333, 0.00067, -0.00034]
  const BReTable: seq<real> := [0.7557853228, 0.249204646, -0.001541739, -0.10162907, -0.26623489, -0.6870983]
  const BImTable: seq<real> := [0.0, 0.003371507, 0.041058560, 0.01727609, -0.36249218, -1.1651967]
  const CReTable: seq<real> := [1.3231270439, -0.577245789, 0.508307513, -0.15094762, 1.01418179, 1.9660549]
  const CImTable: seq<real> := [0.0, -0.007809598, -0.112208952, 0.18200602, 1.64497696, 2.5127645]
  const DTable: seq<real> := [1.5627014243, 0.5185406398, -0.03333098, -0.1052906, -0.0368594,
                              0.007317, 0.01220, 0.00394, -0.0013]

  /** The coefficient tables `init` fills. */
  datatype Tables = Tables(A: seq<real>, bRe: seq<real>, bIm: seq<real>,
                           cRe: seq<real>, cIm: seq<real>, D: seq<real>)

  const InitTables: Tables := Tables(ATable, BReTable, BImTable, CReTable, CImTable, DTable)

  predicate WellFormed(t: Tables) {
    |t.A| == 10 && |t.bRe| == 6 && |t.bIm| == 6 && |t.cRe| == 6 && |t.cIm| == 6 && |t.D| == 9
  }

  function B(t: Tables): seq<Complex>
    requires WellFormed(t)
  {
    Coefs(t.bRe, t.bIm)
  }

  function C(t: Tables): seq<Complex>
    requires WellFormed(t)
  {
    Coefs(t.cRe, t.cIm)
  }

  /** A pair of plane coordinates: easting and northing, or longitude and
      latitude. */
  datatype Pair = Pair(x: real, y: real)

  /** The origin and scale the projection takes from its definition. */
  datatype Grid = Grid(a: real, latZero: real, longZero: real, xZero: real, yZero: real)

  // ------------------------------------------------------------ real series

  /** x^k, one more factor x per step. */
  function RPow(x: real, k: nat): (r: real)
    ensures x == 0.0 && k > 0 ==> r == 0.0
  {
    if k == 0 then 1.0 else RPow(x, k - 1) * x
  }

  /** c[0]·x + c[1]·x² + ... + c[n-1]·xⁿ, which is zero at zero. */
  function RSeries(c: seq<real>, x: real, n: nat): (r: real)
    requires n <= |c|
    ensures x == 0.0 ==> r == 0.0
  {
    if n == 0 then 0.0 else RSeries(c, x, n - 1) + c[n - 1] * RPow(x, n)
  }

  /** On the real axis the complex power is the real one. */
  lemma {:induction false} PowOfReal(x: real, k: nat)
    ensures Pow(Complex(x, 0.0), k) == Complex(RPow(x, k), 0.0)
  {
    if k > 0 {
      PowOfReal(x, k - 1);
      MulParts(RPow(x, k - 1), 0.0, x, 0.0);
    }
  }

  /** With real coefficients and a real argument, the complex series is
      the real one. */
  lemma {:induction false} SeriesOfReal(re: seq<real>, x: real, n: nat)
    requires n <= |re|
    ensures Series(Coefs(re, seq(|re|, _ => 0.0)), Complex(x, 0.0), n) == Complex(RSeries(re, x, n), 0.0)
  {
    if n > 0 {
      var c := Coefs(re, seq(|re|, _ => 0.0));
      SeriesOfReal(re, x, n - 1);
      PowOfReal(x, n);
      assert c[n - 1] == Complex(re[n - 1], 0.0);
      MulParts(re[n - 1], 0.0, RPow(x, n), 0.0);
    }
  }

  /** The summation loop of the code: the running power is xⁿ and the sum
      is the series up to n after step n. */
  method SumRealSeries(c: seq<real>, x: real, count: nat) returns (sum: real)
    requires count <= |c|
    ensures sum == RSeries(c, x, count)
  {
    var xN := 1.0;
    sum := 0.0;
    for n := 1 to count + 1
      invariant xN == RPow(x, n - 1)
      invariant sum == RSeries(c, x, n - 1)
    {
      xN := xN * x;
      sum := sum + c[n - 1] * xN;
    }
  }

  /** The complex summation loop, with multiplication written out: the
      running power is θⁿ and the sum is the series up to n after step n. */
  method SumComplexSeries(cRe: seq<real>, cIm: seq<real>, thRe: real, thIm: real)
    returns (zRe: real, zIm: real)
    requires |cRe| == 6 && |cIm| == 6
    ensures Complex(zRe, zIm) == Series(Coefs(cRe, cIm), Complex(thRe, thIm), 6)
  {
    ghost var c := Coefs(cRe, cIm);
    ghost var th := Complex(thRe, thIm);
    var thNRe := 1.0;
    var thNIm := 0.0;
    zRe := 0.0;
    zIm := 0.0;
    for n := 1 to 7
      invariant Complex(thNRe, thNIm) == Pow(th, n - 1)
      invariant Complex(zRe, zIm) == Series(c, th, n - 1)
    {
      ghost var power := Complex(thNRe, thNIm);
      ghost var sum := Complex(zRe, zIm);
      thNRe, thNIm, zRe, zIm := ForwardTerm(cRe[n - 1], cIm[n - 1], thNRe, thNIm, thRe, thIm, zRe, zIm);
      PowStep(th, n, power);
      SeriesStep(c, th, n, sum, Complex(thNRe, thNIm));
    }
  }

  /** One pass of the forward summation loop: the next power, and the sum
      with c[n] times that power added. */
  method ForwardTerm(cRe: real, cIm: real, thNRe: real, thNIm: real, thRe: real, thIm: real,
                     zRe: real, zIm: real)
    returns (thNReOne: real, thNImOne: real, zReOne: real, zImOne: real)
    ensures Complex(thNReOne, thNImOne) == Mul(Complex(thNRe, thNIm), Complex(thRe, thIm))
    ensures Complex(zReOne, zImOne) == Add(Complex(zRe, zIm), Mul(Complex(cRe, cIm), Complex(thNReOne, thNImOne)))
  {
    thNReOne := thNRe * thRe - thNIm * thIm;
    thNImOne := thNIm * thRe + thNRe * thIm;
    zReOne := zRe + cRe * thNReOne - cIm * thNImOne;
    zImOne := zIm + cIm * thNReOne + cRe * thNImOne;
  }

  // ------------------------------------------------------------ latitude units

  /** The latitude difference in the series' unit, seconds of arc × 10⁻⁵. */
  function ToSeriesUnits(dLat: real): real {
    dLat / SecToRad * 0.00001
  }

  /** The series' unit back to radians. */
  function FromSeriesUnits(dPhi: real): real {
    dPhi * SecToRad * 100000.0
  }

  /** The two unit conversions undo each other. */
  lemma SeriesUnitsInvert(x: real)
    ensures FromSeriesUnits(ToSeriesUnits(x)) == x
    ensures ToSeriesUnits(FromSeriesUnits(x)) == x
  {
  }

  // ------------------------------------------------------------ forward

  /** θ = dPsi + i·dLambda for a longitude and latitude. */
  function ForwardTheta(t: Tables, g: Grid, lon: real, lat: real): Complex
    requires WellFormed(t)
  {
    Complex(RSeries(t.A, ToSeriesUnits(lat - g.latZero), 10), lon - g.longZero)
  }

  /** Easting and northing of a longitude and latitude; the grid origin
      maps to the false easting and northing. */
  function ForwardXY(t: Tables, g: Grid, lon: real, lat: real): (r: Pair)
    requires WellFormed(t)
    ensures lon == g.longZero && lat == g.latZero ==> r == Pair(g.xZero, g.yZero)
  {
    SeriesOfOrigin(t, g, lon, lat);
    var z := Series(B(t), ForwardTheta(t, g, lon, lat), 6);
    Pair(z.im * g.a + g.xZero, z.re * g.a + g.yZero)
  }

  lemma ForwardXYOf(t: Tables, g: Grid, lon: real, lat: real, z: Complex)
    requires WellFormed(t) && z == Series(B(t), ForwardTheta(t, g, lon, lat), 6)
    ensures ForwardXY(t, g, lon, lat).x == z.im * g.a + g.xZero
    ensures ForwardXY(t, g, lon, lat).y == z.re * g.a + g.yZero
  {
  }

  /** At the grid origin θ is zero, and so is the series. */
  lemma SeriesOfOrigin(t: Tables, g: Grid, lon: real, lat: real)
    requires WellFormed(t)
    ensures lon == g.longZero && lat == g.latZero ==>
      Series(B(t), ForwardTheta(t, g, lon, lat), 6) == Zero
  {
    if lon == g.longZero && lat == g.latZero {
      assert ToSeriesUnits(lat - g.latZero) == 0.0;
      assert ForwardTheta(t, g, lon, lat) == Zero;
    }
  }

  /** The computation of `forward` on the tables and grid: dψ from the A
      series of the scaled latitude difference, z from the B series at
      θ = dψ + i·dλ, then easting and northing. */
  method ForwardPoint(t: Tables, g: Grid, lon: real, lat: real) returns (x: real, y: real)
    requires WellFormed(t)
    ensures Pair(x, y) == ForwardXY(t, g, lon, lat)
  {
    var deltaLat := lat - g.latZero;
    var deltaLon := lon - g.longZero;
    var dPhi := deltaLat / SecToRad * 0.00001;
    var dLambda := deltaLon;
    var dPsi := SumRealSeries(t.A, dPhi, 10);
    var zRe, zIm := SumComplexSeries(t.bRe, t.bIm, dPsi, dLambda);
    ForwardXYOf(t, g, lon, lat, Complex(zRe, zIm));
    x := (zIm * g.a) + g.xZero;
    y := (zRe * g.a) + g.yZero;
  }

  // ------------------------------------------------------------ inverse

  /** z = Δy/a + i·Δx/a. */
  function InverseZ(g: Grid, x: real, y: real): (z: Complex)
    requires g.a != 0.0
    ensures x == g.xZero && y == g.yZero ==> z == Zero
  {
    Complex((y - g.yZero) / g.a, (x - g.xZero) / g.a)
  }

  /** The first approximation of θ, good to kilometres. */
  function FirstTheta(t: Tables, z: Complex): (r: Complex)
    requires WellFormed(t)
    ensures z == Zero ==> r == Zero
  {
    Series(C(t), z, |t.cRe|)
  }

  /** A term with a positive power of zero as factor vanishes. */
  lemma TermAtZero(bk: Complex, k: real, j: nat)
    requires j > 0
    ensures Scale(k, Mul(bk, Pow(Zero, j))) == Zero
  {
    MulByZero(bk);
  }

  /** The numerator of a refinement: z + Σ_{k=2..n} (k-1)·b[k]·θᵏ. */
  function NumSeries(b: seq<Complex>, z: Complex, th: Complex, n: nat): (r: Complex)
    requires 1 <= n <= |b|
    ensures z == Zero && th == Zero ==> r == Zero
  {
    if n == 1 then z
    else
      TermAtZero(b[n - 1], (n - 1) as real, n);
      Add(NumSeries(b, z, th, n - 1), Scale((n - 1) as real, Mul(b[n - 1], Pow(th, n))))
  }

  /** The denominator of a refinement, the derivative of the forward
      series: b[1] + Σ_{k=2..n} k·b[k]·θᵏ⁻¹. */
  function DenSeries(b: seq<Complex>, th: Complex, n: nat): (r: Complex)
    requires 1 <= n <= |b|
    ensures th == Zero ==> r == b[0]
  {
    if n == 1 then b[0]
    else
      TermAtZero(b[n - 1], n as real, n - 1);
      Add(DenSeries(b, th, n - 1), Scale(n as real, Mul(b[n - 1], Pow(th, n - 1))))
  }

  /** One refinement of θ: the numerator over the derivative, so the
      step lands on zero exactly where the numerator vanishes. */
  function RefineStep(b: seq<Complex>, z: Complex, th: Complex): (r: Complex)
    requires |b| == 6 && DenSeries(b, th, 6) != Zero
    ensures r == Zero <==> NumSeries(b, z, th, |b|) == Zero
  {
    DivZero(NumSeries(b, z, th, 6), DenSeries(b, th, 6));
    Div(NumSeries(b, z, th, 6), DenSeries(b, th, 6))
  }

  /** θ after k refinements of `th0`. */
  function Refine(b: seq<Complex>, z: Complex, th0: Complex, k: nat): (r: Complex)
    requires |b| == 6 && Refinable(b, z, th0, k)
    decreases k, 1
  {
    if k == 0 then th0 else RefineStep(b, z, Refine(b, z, th0, k - 1))
  }

  /** None of the first k refinements divides by zero. */
  predicate Refinable(b: seq<Complex>, z: Complex, th0: Complex, k: nat)
    requires |b| == 6
    decreases k, 0
  {
    k == 0 || (Refinable(b, z, th0, k - 1) && DenSeries(b, Refine(b, z, th0, k - 1), 6) != Zero)
  }

  lemma {:induction false} RefinablePrefix(b: seq<Complex>, z: Complex, th0: Complex, k: nat, j: nat)
    requires |b| == 6 && j <= k && Refinable(b, z, th0, k)
    ensures Refinable(b, z, th0, j)
    decreases k - j
  {
    if j < k {
      RefinablePrefix(b, z, th0, k - 1, j);
    }
  }

  /** Longitude and latitude of an easting and northing after the given
      number of refinements. */
  function InverseLonLat(t: Tables, g: Grid, iterations: nat, x: real, y: real): Pair
    requires WellFormed(t) && g.a != 0.0
    requires Refinable(B(t), InverseZ(g, x, y), FirstTheta(t, InverseZ(g, x, y)), iterations)
  {
    var z := InverseZ(g, x, y);
    var th := Refine(B(t), z, FirstTheta(t, z), iterations);
    Pair(g.longZero + th.im, g.latZero + FromSeriesUnits(RSeries(t.D, th.re, |t.D|)))
  }

  /** One more term of the numerator. */
  lemma NumStep(b: seq<Complex>, z: Complex, th: Complex, n: nat, num: Complex, p: Complex)
    requires 2 <= n <= |b| && num == NumSeries(b, z, th, n - 1) && p == Pow(th, n)
    ensures Add(num, Scale((n - 1) as real, Mul(b[n - 1], p))) == NumSeries(b, z, th, n)
  {
  }

  /** One pass of the numerator loop keeps the running power and sum. */
  lemma NumLoopStep(b: seq<Complex>, z: Complex, th: Complex, n: nat, power: Complex, num: Complex,
                    c: Complex, nextPower: Complex, nextNum: Complex)
    requires 2 <= n <= |b| && c == b[n - 1]
    requires power == Pow(th, n - 1) && num == NumSeries(b, z, th, n - 1)
    requires nextPower == Mul(power, th) && nextNum == Add(num, Scale((n - 1) as real, Mul(c, nextPower)))
    ensures nextPower == Pow(th, n) && nextNum == NumSeries(b, z, th, n)
  {
    PowStep(th, n, power);
    NumStep(b, z, th, n, num, nextPower);
  }

  /** One more term of the denominator. */
  lemma DenStep(b: seq<Complex>, th: Complex, n: nat, den: Complex, p: Complex)
    requires 2 <= n <= |b| && den == DenSeries(b, th, n - 1) && p == Pow(th, n - 1)
    ensures Add(den, Scale(n as real, Mul(b[n - 1], p))) == DenSeries(b, th, n)
  {
  }

  /** The division in the code's own terms. */
  lemma DivParts(nRe: real, nIm: real, dRe: real, dIm: real)
    requires Complex(dRe, dIm) != Zero
    ensures dRe * dRe + dIm * dIm != 0.0
    ensures Div(Complex(nRe, nIm), Complex(dRe, dIm))
         == Complex((nRe * dRe + nIm * dIm) / (dRe * dRe + dIm * dIm),
                    (nIm * dRe - nRe * dIm) / (dRe * dRe + dIm * dIm))
  {
    NormPositive(Complex(dRe, dIm));
  }

  /** The numerator loop of a refinement: the running power starts at θ
      and the sum at z. */
  method SumNumerator(bRe: seq<real>, bIm: seq<real>, zRe: real, zIm: real, thRe: real, thIm: real)
    returns (numRe: real, numIm: real)
    requires |bRe| == 6 && |bIm| == 6
    ensures Complex(numRe, numIm) == NumSeries(Coefs(bRe, bIm), Complex(zRe, zIm), Complex(thRe, thIm), |bRe|)
  {
    ghost var b := Coefs(bRe, bIm);
    ghost var z := Complex(zRe, zIm);
    ghost var th := Complex(thRe, thIm);
    var thNRe := thRe;
    var thNIm := thIm;
    numRe := zRe;
    numIm := zIm;
    PowFirst(th);
    for n := 2 to 7
      invariant Complex(thNRe, thNIm) == Pow(th, n - 1)
      invariant Complex(numRe, numIm) == NumSeries(b, z, th, n - 1)
    {
      thNRe, thNIm, numRe, numIm := NumeratorPass(b, z, thRe, thIm, n, bRe[n - 1], bIm[n - 1], thNRe, thNIm, numRe, numIm);
    }
  }

  /** One pass of the numerator loop: the next power of θ, and the next
      term (n - 1)·b[n]·θⁿ added to the sum. */
  method NumeratorPass(ghost b: seq<Complex>, ghost z: Complex, thRe: real, thIm: real, n: nat, bRe: real, bIm: real,
                       thNRe: real, thNIm: real, numRe: real, numIm: real)
    returns (thNReOne: real, thNImOne: real, numReOne: real, numImOne: real)
    requires 2 <= n <= |b| && b[n - 1] == Complex(bRe, bIm)
    requires Complex(thNRe, thNIm) == Pow(Complex(thRe, thIm), n - 1)
    requires Complex(numRe, numIm) == NumSeries(b, z, Complex(thRe, thIm), n - 1)
    ensures Complex(thNReOne, thNImOne) == Pow(Complex(thRe, thIm), n)
    ensures Complex(numReOne, numImOne) == NumSeries(b, z, Complex(thRe, thIm), n)
  {
    thNReOne, thNImOne, numReOne, numImOne := SeriesTerm(bRe, bIm, (n - 1) as real, thNRe, thNIm, thRe, thIm, numRe, numIm);
    NumLoopStep(b, z, Complex(thRe, thIm), n, Complex(thNRe, thNIm), Complex(numRe, numIm), Complex(bRe, bIm),
                Complex(thNReOne, thNImOne), Complex(numReOne, numImOne));
  }

  /** The denominator loop of a refinement: the running power starts at 1
      and the sum at b[1]. */
  method SumDenominator(bRe: seq<real>, bIm: seq<real>, thRe: real, thIm: real)
    returns (denRe: real, denIm: real)
    requires |bRe| == 6 && |bIm| == 6
    ensures Complex(denRe, denIm) == DenSeries(Coefs(bRe, bIm), Complex(thRe, thIm), |bRe|)
  {
    ghost var b := Coefs(bRe, bIm);
    ghost var th := Complex(thRe, thIm);
    var thNRe := 1.0;
    var thNIm := 0.0;
    denRe := bRe[0];
    denIm := bIm[0];
    assert Complex(denRe, denIm) == DenSeries(b, th, 1);
    for n := 2 to 7
      invariant Complex(thNRe, thNIm) == Pow(th, n - 2)
      invariant Complex(denRe, denIm) == DenSeries(b, th, n - 1)
    {
      ghost var power := Complex(thNRe, thNIm);
      ghost var den := Complex(denRe, denIm);
      thNRe, thNIm, denRe, denIm := SeriesTerm(bRe[n - 1], bIm[n - 1], n as real, thNRe, thNIm, thRe, thIm, denRe, denIm);
      PowStep(th, n - 1, power);
      DenStep(b, th, n, den, Complex(thNRe, thNIm));
    }
  }

  /** One pass of the numerator or denominator loop: the next power, and
      the sum with k·b[n] times that power added. */
  method SeriesTerm(bRe: real, bIm: real, k: real, thNRe: real, thNIm: real, thRe: real, thIm: real,
                    sumRe: real, sumIm: real)
    returns (thNReOne: real, thNImOne: real, sumReOne: real, sumImOne: real)
    ensures Complex(thNReOne, thNImOne) == Mul(Complex(thNRe, thNIm), Complex(thRe, thIm))
    ensures Complex(sumReOne, sumImOne)
         == Add(Complex(sumRe, sumIm), Scale(k, Mul(Complex(bRe, bIm), Complex(thNReOne, thNImOne))))
  {
    thNReOne := thNRe * thRe - thNIm * thIm;
    thNImOne := thNIm * thRe + thNRe * thIm;
    sumReOne := sumRe + k * (bRe * thNReOne - bIm * thNImOne);
    sumImOne := sumIm + k * (bIm * thNReOne + bRe * thNImOne);
  }

  /** One refinement as the code computes it: numerator, denominator, then
      the complex division. */
  method RefineOnce(bRe: seq<real>, bIm: seq<real>, zRe: real, zIm: real, thRe: real, thIm: real)
    returns (nextRe: real, nextIm: real)
    requires |bRe| == 6 && |bIm| == 6
    requires DenSeries(Coefs(bRe, bIm), Complex(thRe, thIm), 6) != Zero
    ensures Complex(nextRe, nextIm) == RefineStep(Coefs(bRe, bIm), Complex(zRe, zIm), Complex(thRe, thIm))
  {
    var numRe, numIm := SumNumerator(bRe, bIm, zRe, zIm, thRe, thIm);
    var denRe, denIm := SumDenominator(bRe, bIm, thRe, thIm);
    DivParts(numRe, numIm, denRe, denIm);
    var denTwo := denRe * denRe + denIm * denIm;
    nextRe := (numRe * denRe + numIm * denIm) / denTwo;
    nextIm := (numIm * denRe - numRe * denIm) / denTwo;
  }

  // ------------------------------------------------------------ properties

  lemma Assemble(tdPrev: Complex, s: Complex, num: Complex, z: Complex, y: Complex, k: real)
    requires tdPrev == Add(s, Sub(num, z))
    ensures Add(tdPrev, Scale(k, y)) == Add(Add(s, y), Sub(Add(num, Scale(k - 1.0, y)), z))
  {
  }

  /** θ times the derivative series is the forward series plus the
      numerator's sum. */
  lemma {:induction false} DenTimesTheta(b: seq<Complex>, z: Complex, th: Complex, n: nat)
    requires 1 <= n <= |b|
    ensures Mul(th, DenSeries(b, th, n)) == Add(Series(b, th, n), Sub(NumSeries(b, z, th, n), z))
  {
    if n == 1 {
      PowFirst(th);
      MulCommutes(th, b[0]);
      assert Series(b, th, 1) == Add(Zero, Mul(b[0], th));
    } else {
      DenTimesTheta(b, z, th, n - 1);
      var p := Pow(th, n - 1);
      var x := Mul(b[n - 1], p);
      var y := Mul(b[n - 1], Pow(th, n));
      var dPrev := DenSeries(b, th, n - 1);
      var k := n as real;
      assert DenSeries(b, th, n) == Add(dPrev, Scale(k, x));
      MulDistributes(th, dPrev, Scale(k, x));
      MulScales(k, th, x);
      MulRotates(th, b[n - 1], p);
      assert Mul(th, x) == y;
      assert (n - 1) as real == k - 1.0;
      Assemble(Mul(th, dPrev), Series(b, th, n - 1), NumSeries(b, z, th, n - 1), z, y, k);
    }
  }

  /** A refinement is a Newton step for solving Series(b, θ) = z: the
      correction times the derivative is the residual. */
  lemma NewtonStep(b: seq<Complex>, z: Complex, th: Complex)
    requires |b| == 6 && DenSeries(b, th, 6) != Zero
    ensures Mul(Sub(th, RefineStep(b, z, th)), DenSeries(b, th, 6)) == Sub(Series(b, th, 6), z)
  {
    var den := DenSeries(b, th, 6);
    var num := NumSeries(b, z, th, 6);
    var next := RefineStep(b, z, th);
    assert Mul(next, den) == num;
    DenTimesTheta(b, z, th, 6);
    MulDistributesSub(den, th, next);
  }

  /** At zero, refinement stays at zero. */
  lemma {:induction false} RefineAtZero(b: seq<Complex>, k: nat)
    requires |b| == 6 && b[0] != Zero
    ensures Refinable(b, Zero, Zero, k) && Refine(b, Zero, Zero, k) == Zero
  {
    if k > 0 {
      RefineAtZero(b, k - 1);
      DivZero(Zero, b[0]);
    }
  }

  // ----------------------------------------- the refinement as written

  /** The power in the numerator loop as the code computes it: the real part
      of the factor θ is spelled as the undefined constant th_re, which reads
      as 0, and the loop starts from θ itself. */
  function PowAsWritten(th: Complex, k: nat): (r: Complex)
    ensures th.im == 0.0 && k > 0 ==> r == Zero
  {
    if k == 0 then th
    else
      var p := PowAsWritten(th, k - 1);
      Complex(p.re * 0.0 - p.im * th.im, p.im * th.re + p.re * th.im)
  }

  /** The numerator as written: the powers above, and the imaginary factor
      (n - 1) spelled with the undefined constant n, which reads as -1. */
  function NumAsWritten(b: seq<Complex>, z: Complex, th: Complex, n: nat): (r: Complex)
    requires 1 <= n <= |b|
    ensures th.im == 0.0 ==> r == z
  {
    if n == 1 then z
    else
      var p := PowAsWritten(th, n - 1);
      var prev := NumAsWritten(b, z, th, n - 1);
      Complex(prev.re + (n - 1) as real * (b[n - 1].re * p.re - b[n - 1].im * p.im),
              prev.im + -1.0 * (b[n - 1].im * p.re + b[n - 1].re * p.im))
  }

  /** The denominator as written: bIm[n] is indexed with the undefined
      constant n, a missing key, so the imaginary part of b[n] reads as 0
      in the imaginary sum.  The real part is unaffected. */
  function DenAsWritten(b: seq<Complex>, th: Complex, n: nat): (r: Complex)
    requires 1 <= n <= |b|
    ensures r.re == DenSeries(b, th, n).re
  {
    if n == 1 then b[0]
    else
      var p := Pow(th, n - 1);
      var prev := DenAsWritten(b, th, n - 1);
      Complex(prev.re + n as real * (b[n - 1].re * p.re - b[n - 1].im * p.im),
              prev.im + n as real * (0.0 * p.re + b[n - 1].re * p.im))
  }

  /** One refinement as written: from a real θ the numerator is z alone. */
  function RefineStepAsWritten(b: seq<Complex>, z: Complex, th: Complex): (r: Complex)
    requires |b| == 6 && DenAsWritten(b, th, 6) != Zero
    ensures th.im == 0.0 ==> r == Div(z, DenAsWritten(b, th, 6))
  {
    Div(NumAsWritten(b, z, th, 6), DenAsWritten(b, th, 6))
  }

  /** As written, a refinement from a real θ ignores θ and the series
      altogether: it divides z alone by the derivative. */
  lemma RefineAsWrittenDropsSeries(b: seq<Complex>, th: Complex)
    requires |b| == 6 && th.im == 0.0 && DenAsWritten(b, th, 6) != Zero
    ensures RefineStepAsWritten(b, Zero, th) == Zero
  {
    DivZero(NumAsWritten(b, Zero, th, 6), DenAsWritten(b, th, 6));
  }

  /** The grid's b coefficients as a literal sequence. */
  const GridB: seq<Complex> := [Complex(0.7557853228, 0.0), Complex(0.249204646, 0.003371507),
                                 Complex(-0.001541739, 0.041058560), Complex(-0.10162907, 0.01727609),
                                 Complex(-0.26623489, -0.36249218), Complex(-0.6870983, -1.1651967)]

  lemma GridBIs()
    ensures B(InitTables) == GridB
  {
  }

  lemma AddScaleRe(x: Complex, k: real, y: Complex)
    ensures Add(x, Scale(k, y)).re == x.re + k * y.re
  {
  }

  /** At θ = 1 every power is 1, so each term of the derivative is k·b[k]. */
  lemma DenStepAtOne(b: seq<Complex>, n: nat)
    requires 2 <= n <= |b|
    ensures DenSeries(b, One, n) == Add(DenSeries(b, One, n - 1), Scale(n as real, b[n - 1]))
  {
    MulByOne(b[n - 1]);
  }

  lemma DenReAtOne(b: seq<Complex>, n: nat)
    requires 2 <= n <= |b|
    ensures DenSeries(b, One, n).re == DenSeries(b, One, n - 1).re + n as real * b[n - 1].re
  {
    DenStepAtOne(b, n);
    AddScaleRe(DenSeries(b, One, n - 1), n as real, b[n - 1]);
  }

  /** At z = 0 and θ = 1 each term of the numerator is (k-1)·b[k]. */
  lemma NumStepAtOne(b: seq<Complex>, n: nat)
    requires 2 <= n <= |b|
    ensures NumSeries(b, Zero, One, n) == Add(NumSeries(b, Zero, One, n - 1), Scale((n - 1) as real, b[n - 1]))
  {
    MulByOne(b[n - 1]);
  }

  lemma NumReAtOne(b: seq<Complex>, n: nat)
    requires 2 <= n <= |b|
    ensures NumSeries(b, Zero, One, n).re == NumSeries(b, Zero, One, n - 1).re + (n - 1) as real * b[n - 1].re
  {
    NumStepAtOne(b, n);
    AddScaleRe(NumSeries(b, Zero, One, n - 1), (n - 1) as real, b[n - 1]);
  }

  /** The derivative of the grid's series at θ = 1 has real part
      Σ k·bRe[k]. */
  lemma DenAtOne()
    ensures DenSeries(GridB, One, 6).re == -4.6107111322
  {
    DenReAtOne(GridB, 2);
    DenReAtOne(GridB, 3);
    DenReAtOne(GridB, 4);
    DenReAtOne(GridB, 5);
    DenReAtOne(GridB, 6);
  }

  /** The numerator at z = 0 and θ = 1 has real part Σ (k-1)·bRe[k]. */
  lemma NumAtOne()
    ensures NumSeries(GridB, Zero, One, 6).re == -4.559197102
  {
    NumReAtOne(GridB, 2);
    NumReAtOne(GridB, 3);
    NumReAtOne(GridB, 4);
    NumReAtOne(GridB, 5);
    NumReAtOne(GridB, 6);
  }

  /** With the grid's own tables, z = 0 and θ = 1 the written refinement
      returns 0 ... */
  lemma RefineAsWrittenAtOne()
    ensures DenAsWritten(GridB, One, 6) != Zero
    ensures RefineStepAsWritten(GridB, Zero, One) == Zero
  {
    DenAtOne();
    RefineAsWrittenDropsSeries(GridB, One);
  }

  /** ... while the Newton step it is meant to be does not. */
  lemma RefineAtOne()
    ensures DenSeries(GridB, One, 6) != Zero
    ensures RefineStep(GridB, Zero, One) != Zero
  {
    DenAtOne();
    NumAtOne();
    CorrectedStepMoves(GridB, Zero, One);
  }

  /** Where the numerator is nonzero the corrected refinement moves. */
  lemma CorrectedStepMoves(b: seq<Complex>, z: Complex, th: Complex)
    requires |b| == 6 && DenSeries(b, th, 6) != Zero && NumSeries(b, z, th, 6) != Zero
    ensures RefineStep(b, z, th) != Zero
  {
    DivZero(NumSeries(b, z, th, 6), DenSeries(b, th, 6));
  }

  lemma InverseLonLatOf(t: Tables, g: Grid, iterations: nat, x: real, y: real, th: Complex)
    requires WellFormed(t) && g.a != 0.0
    requires Refinable(B(t), InverseZ(g, x, y), FirstTheta(t, InverseZ(g, x, y)), iterations)
    requires th == Refine(B(t), InverseZ(g, x, y), FirstTheta(t, InverseZ(g, x, y)), iterations)
    ensures InverseLonLat(t, g, iterations, x, y).x == g.longZero + th.im
    ensures InverseLonLat(t, g, iterations, x, y).y == g.latZero + FromSeriesUnits(RSeries(t.D, th.re, 9))
  {
    var z := InverseZ(g, x, y);
    assert Refine(B(t), z, FirstTheta(t, z), iterations) == th;
    assert InverseLonLat(t, g, iterations, x, y) == Pair(g.longZero + th.im, g.latZero + FromSeriesUnits(RSeries(t.D, th.re, 9)));
  }

  /** When the refined θ is zero, the point is the grid origin. */
  lemma InverseAtZeroTheta(t: Tables, g: Grid, iterations: nat, x: real, y: real)
    requires WellFormed(t) && g.a != 0.0
    requires Refinable(B(t), InverseZ(g, x, y), FirstTheta(t, InverseZ(g, x, y)), iterations)
    requires Refine(B(t), InverseZ(g, x, y), FirstTheta(t, InverseZ(g, x, y)), iterations) == Zero
    ensures InverseLonLat(t, g, iterations, x, y).x == g.longZero
    ensures InverseLonLat(t, g, iterations, x, y).y == g.latZero
  {
    InverseLonLatOf(t, g, iterations, x, y, Zero);
  }

  /** The false easting and northing map back to the grid origin. */
  lemma InverseOfOrigin(t: Tables, g: Grid, iterations: nat)
    requires WellFormed(t) && g.a != 0.0 && B(t)[0] != Zero
    ensures InverseZ(g, g.xZero, g.yZero) == Zero
    ensures Refinable(B(t), Zero, FirstTheta(t, Zero), iterations)
    ensures InverseLonLat(t, g, iterations, g.xZero, g.yZero).x == g.longZero
    ensures InverseLonLat(t, g, iterations, g.xZero, g.yZero).y == g.latZero
  {
    var z := InverseZ(g, g.xZero, g.yZero);
    assert z == Zero;
    assert FirstTheta(t, z) == Zero;
    RefineAtZero(B(t), iterations);
    InverseAtZeroTheta(t, g, iterations, g.xZero, g.yZero);
  }

  /** Projecting the grid origin and reading it back gives the origin. */
  lemma OriginRoundTrip(t: Tables, g: Grid, iterations: nat)
    requires WellFormed(t) && g.a != 0.0 && B(t)[0] != Zero
    ensures var xy := ForwardXY(t, g, g.longZero, g.latZero);
      Refinable(B(t), InverseZ(g, xy.x, xy.y), FirstTheta(t, InverseZ(g, xy.x, xy.y)), iterations)
      && InverseLonLat(t, g, iterations, xy.x, xy.y).x == g.longZero
      && InverseLonLat(t, g, iterations, xy.x, xy.y).y == g.latZero
  {
    InverseOfOrigin(t, g, iterations);
  }

  // ------------------------------------------------------------ the object

  class NzmgProjection {
    var a: real
    var latZero: real
    var longZero: real
    var xZero: real
    var yZero: real
    /** Refinements of the inverse: 0 gives kilometres, 1 metres, 2
        millimetres. */
    var iterations: nat
    var A: seq<real>
    var bRe: seq<real>
    var bIm: seq<real>
    var cRe: seq<real>
    var cIm: seq<real>
    var D: seq<real>

    /** A projection object with its grid; one refinement by default, and
        the tables empty until `init`. */
    constructor(g: Grid)
      ensures Params() == g && iterations == 1
      ensures Coefficients() == Tables([], [], [], [], [], [])
    {
      a, latZero, longZero, xZero, yZero := g.a, g.latZero, g.longZero, g.xZero, g.yZero;
      iterations := 1;
      A, bRe, bIm, cRe, cIm, D := [], [], [], [], [], [];
    }

    function Params(): Grid
      reads this
    {
      Grid(a, latZero, longZero, xZero, yZero)
    }

    function Coefficients(): Tables
      reads this
    {
      Tables(A, bRe, bIm, cRe, cIm, D)
    }

    /** `init`: the coefficient tables of the grid. */
    method Init()
      modifies this
      ensures Coefficients() == InitTables && WellFormed(Coefficients())
      ensures Params() == old(Params()) && iterations == old(iterations)
    {
      A := [0.6399175073, -0.1358797613, 0.063294409, -0.02526853, 0.0117879,
            -0.0055161, 0.0026906, -0.001333, 0.00067, -0.00034];
      bRe := [0.7557853228, 0.249204646, -0.001541739, -0.10162907, -0.26623489, -0.6870983];
      bIm := [0.0, 0.003371507, 0.041058560, 0.01727609, -0.36249218, -1.1651967];
      cRe := [1.3231270439, -0.577245789, 0.508307513, -0.15094762, 1.01418179, 1.9660549];
      cIm := [0.0, -0.007809598, -0.112208952, 0.18200602, 1.64497696, 2.5127645];
      D := [1.5627014243, 0.5185406398, -0.03333098, -0.1052906, -0.0368594,
            0.007317, 0.01220, 0.00394, -0.0013];
    }

    /** `forward`: longitude and latitude in `p` become easting and
        northing. */
    method Forward(p: Point)
      modifies p
      requires WellFormed(Coefficients())
      ensures Pair(p.x, p.y) == ForwardXY(Coefficients(), Params(), old(p.x), old(p.y))
      ensures p.z == old(p.z)
    {
      var x, y := ForwardPoint(Coefficients(), Params(), p.x, p.y);
      p.x := x;
      p.y := y;
    }

    /** `inverse`: easting and northing in `p` become longitude and
        latitude, after `iterations` refinements of θ. */
    method Inverse(p: Point)
      modifies p
      requires WellFormed(Coefficients()) && a != 0.0
      requires Refinable(B(Coefficients()), InverseZ(Params(), p.x, p.y),
                         FirstTheta(Coefficients(), InverseZ(Params(), p.x, p.y)), iterations)
      ensures Pair(p.x, p.y) == InverseLonLat(Coefficients(), Params(), iterations, old(p.x), old(p.y))
      ensures p.z == old(p.z)
    {
      var x := p.x;
      var y := p.y;
      var deltaX := x - xZero;
      var deltaY := y - yZero;
      var zRe := deltaY / a;
      var zIm := deltaX / a;
      assert Complex(zRe, zIm) == InverseZ(Params(), x, y);
      var thRe, thIm := SumComplexSeries(cRe, cIm, zRe, zIm);
      ghost var b := B(Coefficients());
      ghost var z := Complex(zRe, zIm);
      ghost var th0 := Complex(thRe, thIm);
      assert th0 == FirstTheta(Coefficients(), z);
      assert Refinable(b, z, th0, iterations);
      for i := 0 to iterations
        invariant unchanged(p)
        invariant Refinable(b, z, th0, i)
        invariant Complex(thRe, thIm) == Refine(b, z, th0, i)
      {
        RefinablePrefix(b, z, th0, iterations, i + 1);
        thRe, thIm := RefineOnce(bRe, bIm, zRe, zIm, thRe, thIm);
      }
      var dPsi := thRe;
      var dLambda := thIm;
      var dPhi := SumRealSeries(D, dPsi, 9);
      InverseLonLatOf(Coefficients(), Params(), iterations, x, y, Complex(thRe, thIm));
      var lat := latZero + (dPhi * SecToRad * 100000.0);
      var lon := longZero + dLambda;
      p.x := lon;
      p.y := lat;
    }
  }
}
