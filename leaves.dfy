/**
 * The leaf circuit elements of src/structures.py and the sparse linear rows
 * ("field equations") each of them contributes. A row maps pin identities to
 * complex coefficients; the sum of coefficient × field amplitude over the row
 * equals zero, or the Source's amplitude for a Source row.
 *
 * One frequency sample is modelled: where the source holds a numpy array of
 * coefficients over the sweep, the model holds one complex value. The
 * transcendental factors (the waveguide's loss·exp(i·k·L), exp(i·phase) and
 * sqrt(1 - κ²) of the coupler) are not computed: they enter as parameters.
 */
module Leaves {
  import opened Complex

  /** A pin is known only by its identity. */
  type Pin = nat

  /** One field equation: the coefficient of each pin it mentions. */
  type Equation = map<Pin, Complex>

  /** The pins of a sequence, as a set. */
  function Elems(s: seq<Pin>): set<Pin> {
    set p | p in s
  }

  /** Fresh default pins are pairwise distinct (an assumption about the pin allocator). */
  predicate Distinct(s: seq<Pin>) {
    forall i, j :: 0 <= i < j < |s| ==> s[i] != s[j]
  }

  /** Every pin mentioned by some row of `rows`. */
  function Keys(rows: seq<Equation>): set<Pin> {
    if rows == [] then {} else rows[0].Keys + Keys(rows[1..])
  }

  lemma KeysOfSingle(row: Equation)
    ensures Keys([row]) == row.Keys
  {
    assert [row][1..] == [];
  }

  /** The pins a list of rows mentions are those of its two halves. */
  lemma {:induction false} KeysAppend(a: seq<Equation>, b: seq<Equation>)
    ensures Keys(a + b) == Keys(a) + Keys(b)
  {
    if a == [] {
      assert a + b == b;
    } else {
      assert (a + b)[1..] == a[1..] + b;
      KeysAppend(a[1..], b);
    }
  }

  /**
   * A leaf element. `propagation` is the waveguide's complex transfer factor
   * loss·exp(i·k·L) at the sampled frequency; `phase` is the Source's phase,
   * which the source stores but uses nowhere.
   */
  datatype Leaf =
    | Waveguide(pins: seq<Pin>, propagation: Complex)
    | Source(pins: seq<Pin>, amplitude: Complex, phase: real)
    | DirectionalCoupler(pins: seq<Pin>, kappa: Complex, sigma: Complex)

  /** The class constant num_pins of each leaf type. */
  function NumPins(l: Leaf): nat {
    match l
    case Waveguide(_, _) => 2
    case Source(_, _, _) => 1
    case DirectionalCoupler(_, _, _) => 4
  }

  /** The class constant num_equations of each leaf type. */
  function NumEquations(l: Leaf): nat {
    match l
    case Waveguide(_, _) => 1
    case Source(_, _, _) => 1
    case DirectionalCoupler(_, _, _) => 2
  }

  /** A structure's pin list has exactly num_pins entries. */
  predicate WellFormed(l: Leaf) {
    |l.pins| == NumPins(l)
  }

  /** The field_equations property of each leaf: num_equations rows. */
  function FieldEquations(l: Leaf): (rows: seq<Equation>)
    requires WellFormed(l)
    ensures |rows| == NumEquations(l)
  {
    match l
    case Waveguide(pins, propagation) =>
      [map[pins[0] := Neg(propagation), pins[1] := ONE]]
    case Source(pins, _, _) =>
      [map[pins[0] := ONE]]
    case DirectionalCoupler(pins, kappa, sigma) =>
      [map[pins[0] := sigma, pins[1] := kappa, pins[2] := MINUS_ONE],
       map[pins[0] := Neg(Conj(kappa)), pins[1] := Conj(sigma), pins[3] := MINUS_ONE]]
  }

  /** Together, a leaf's rows mention exactly the leaf's own pins. */
  lemma FieldEquationsKeys(l: Leaf)
    requires WellFormed(l)
    ensures Keys(FieldEquations(l)) == Elems(l.pins)
  {
    var rows := FieldEquations(l);
    if l.DirectionalCoupler? {
      KeysOfSingle(rows[0]);
      KeysOfSingle(rows[1]);
      KeysAppend([rows[0]], [rows[1]]);
      assert [rows[0]] + [rows[1]] == rows;
      assert Elems(l.pins) == {l.pins[0], l.pins[1], l.pins[2], l.pins[3]};
    } else {
      KeysOfSingle(rows[0]);
      assert [rows[0]] == rows;
      assert Elems(l.pins) == set i | 0 <= i < NumPins(l) :: l.pins[i];
    }
  }

  /** The right-hand side a Source contributes: one entry per Source row. */
  function OrdinateVector(s: Leaf): (v: seq<Complex>)
    requires s.Source? && WellFormed(s)
    ensures |v| == |FieldEquations(s)|
    ensures forall k :: 0 <= k < |v| ==> v[k] == s.amplitude
  {
    [s.amplitude]
  }

  /**
   * The DirectionalCoupler constructor: kappa = κ·exp(i·φκ) and
   * sigma = sqrt(1 - κ²)·exp(i·φσ), with `selfMagnitude` standing for the
   * square root and `selfPhase`, `crossPhase` for the two exponentials.
   */
  function NewDirectionalCoupler(cross: real, selfMagnitude: real, selfPhase: Complex, crossPhase: Complex,
                                 pins: seq<Pin>): (c: Leaf)
    ensures c.DirectionalCoupler? && c.pins == pins
  {
    DirectionalCoupler(pins, Scale(cross, crossPhase), Scale(selfMagnitude, selfPhase))
  }

  /** `s` is what np.sqrt(1 - κ²) denotes: the non-negative root. */
  predicate IsSelfMagnitude(s: real, cross: real) {
    s >= 0.0 && s * s == 1.0 - cross * cross
  }

  /** A Waveguide gives one row over its two pins, with coefficient 1 on the output pin. */
  lemma WaveguideRow(w: Leaf)
    requires w.Waveguide? && WellFormed(w)
    ensures |FieldEquations(w)| == 1
    ensures FieldEquations(w)[0].Keys == {w.pins[0], w.pins[1]}
    ensures FieldEquations(w)[0][w.pins[1]] == ONE
    ensures w.pins[0] != w.pins[1] ==> FieldEquations(w)[0][w.pins[0]] == Neg(w.propagation)
  {
  }

  /** A Source gives the single row {pin: 1}, and its ordinate vector is [amplitude]. */
  lemma SourceRow(s: Leaf)
    requires s.Source? && WellFormed(s)
    ensures FieldEquations(s) == [map[s.pins[0] := ONE]]
    ensures OrdinateVector(s) == [s.amplitude]
  {
  }

  /**
   * A DirectionalCoupler gives two rows: the first over pins 0, 1, 2 with
   * -1 on pin 2, the second over pins 0, 1, 3 with -1 on pin 3.
   */
  lemma CouplerRowKeys(c: Leaf)
    requires c.DirectionalCoupler? && WellFormed(c)
    ensures |FieldEquations(c)| == 2
    ensures FieldEquations(c)[0].Keys == {c.pins[0], c.pins[1], c.pins[2]}
    ensures FieldEquations(c)[1].Keys == {c.pins[0], c.pins[1], c.pins[3]}
    ensures FieldEquations(c)[0][c.pins[2]] == MINUS_ONE
    ensures FieldEquations(c)[1][c.pins[3]] == MINUS_ONE
  {
  }

  /** On distinct pins, the pin that closes one coupler row never appears in the other. */
  lemma CouplerRowsSeparate(c: Leaf)
    requires c.DirectionalCoupler? && WellFormed(c) && Distinct(c.pins)
    ensures c.pins[3] !in FieldEquations(c)[0] && c.pins[2] !in FieldEquations(c)[1]
  {
    CouplerRowKeys(c);
    assert c.pins[3] != c.pins[0] && c.pins[3] != c.pins[1] && c.pins[3] != c.pins[2];
    assert c.pins[2] != c.pins[0] && c.pins[2] != c.pins[1];
  }

  /**
   * The coupler's second row is the conjugate partner of its first:
   * row2[pin0] = -conj(row1[pin1]) and row2[pin1] = conj(row1[pin0]);
   * conjugating back recovers the first row's coefficients.
   */
  lemma CouplerConjugatePartner(c: Leaf)
    requires c.DirectionalCoupler? && WellFormed(c) && Distinct(c.pins)
    ensures var rows := FieldEquations(c);
      && rows[0][c.pins[0]] == c.sigma && rows[0][c.pins[1]] == c.kappa
      && rows[1][c.pins[0]] == Neg(Conj(rows[0][c.pins[1]]))
      && rows[1][c.pins[1]] == Conj(rows[0][c.pins[0]])
      && Conj(rows[1][c.pins[1]]) == rows[0][c.pins[0]]
      && Neg(Conj(rows[1][c.pins[0]])) == rows[0][c.pins[1]]
  {
    ConjInvolution(c.sigma);
    ConjInvolution(c.kappa);
  }

  /**
   * sqrt(1 - κ²) is a real number only for -1 <= κ <= 1; outside that
   * range numpy's square root gives nan.
   */
  lemma SelfMagnitudeDomain(s: real, cross: real)
    requires IsSelfMagnitude(s, cross)
    ensures -1.0 <= cross <= 1.0
  {
  }

  /**
   * Unitarity of the coupler constructor: for a cross-coupling magnitude κ
   * with self-coupling magnitude sqrt(1 - κ²) and unit phases,
   * |kappa|² = κ², |sigma|² = 1 - κ², so |sigma|² + |kappa|² = 1.
   */
  lemma CouplerUnitarity(cross: real, selfMagnitude: real, selfPhase: Complex, crossPhase: Complex, pins: seq<Pin>)
    requires IsSelfMagnitude(selfMagnitude, cross)
    requires IsUnitPhase(selfPhase) && IsUnitPhase(crossPhase)
    ensures var c := NewDirectionalCoupler(cross, selfMagnitude, selfPhase, crossPhase, pins);
      && Abs2(c.kappa) == cross * cross
      && Abs2(c.sigma) == 1.0 - cross * cross
      && Abs2(c.sigma) + Abs2(c.kappa) == 1.0
  {
    Abs2Scale(cross, crossPhase);
    Abs2Scale(selfMagnitude, selfPhase);
  }

  /** The coupler with the default phases exp(i·0) = 1 and exp(i·π/2) = i conserves power. */
  lemma DefaultPhaseCouplerUnitarity(cross: real, selfMagnitude: real, pins: seq<Pin>)
    requires IsSelfMagnitude(selfMagnitude, cross)
    ensures var c := NewDirectionalCoupler(cross, selfMagnitude, ONE, I, pins);
      Abs2(c.sigma) + Abs2(c.kappa) == 1.0
  {
    DefaultPhasesAreUnit();
    CouplerUnitarity(cross, selfMagnitude, ONE, I, pins);
  }

  /**
   * The 2×2 block a coupler's rows put on pins 0 and 1,
   * [[sigma, kappa], [-conj(kappa), conj(sigma)]], has orthogonal rows and
   * determinant |sigma|² + |kappa|²; with unitarity the block is unitary.
   */
  lemma CouplerBlockUnitary(c: Leaf)
    requires c.DirectionalCoupler? && WellFormed(c) && Distinct(c.pins)
    ensures var rows := FieldEquations(c);
      var a, b := rows[0][c.pins[0]], rows[0][c.pins[1]];
      var d, e := rows[1][c.pins[0]], rows[1][c.pins[1]];
      && Add(Mul(a, Conj(d)), Mul(b, Conj(e))) == ZERO
      && Sub(Mul(a, e), Mul(b, d)) == Complex(Abs2(c.sigma) + Abs2(c.kappa), 0.0)
      && (Abs2(c.sigma) + Abs2(c.kappa) == 1.0 ==> Abs2(a) + Abs2(b) == 1.0 && Abs2(d) + Abs2(e) == 1.0)
  {
  }
}
