/**
 * The composite structures of src/structures.py: a RingResonator (one
 * coupler closed by one waveguide) and an AddDropFilter (two couplers joined
 * by two waveguides). Connectivity is nothing but the same pin identity
 * handed to several children. A composite's equations are the in-order
 * concatenation of its children's rows, and the debug builders append
 * Sources to make the linear system square.
 */
module Composites {
  import opened Complex
  import opened Leaves

  const RING_PINS: nat := 4
  const RING_EQUATIONS: nat := 3
  const ADD_DROP_PINS: nat := 8
  const ADD_DROP_EQUATIONS: nat := 6

  /** Columns of the solved field array that the AddDropFilter reads. */
  const FIELD_ENHANCEMENT_COLUMN: nat := 3
  const TRANSMISSION_COLUMN: nat := 6

  predicate AllWellFormed(children: seq<Leaf>) {
    forall k :: 0 <= k < |children| ==> WellFormed(children[k])
  }

  /** The sum of the children's num_equations constants. */
  function TotalEquations(children: seq<Leaf>): nat {
    if children == [] then 0 else NumEquations(children[0]) + TotalEquations(children[1..])
  }

  /** Every pin handed to some child. */
  function ChildPins(children: seq<Leaf>): set<Pin> {
    if children == [] then {} else Elems(children[0].pins) + ChildPins(children[1..])
  }

  /**
   * The composite's field_equations: the children's rows, child by child,
   * in order. There are as many rows as the children's num_equations add up
   * to.
   */
  function Flatten(children: seq<Leaf>): (rows: seq<Equation>)
    requires AllWellFormed(children)
    ensures |rows| == TotalEquations(children)
  {
    if children == [] then [] else FieldEquations(children[0]) + Flatten(children[1..])
  }

  /** A composite's rows mention exactly the pins handed to its children. */
  lemma {:induction false} FlattenKeys(children: seq<Leaf>)
    requires AllWellFormed(children)
    ensures Keys(Flatten(children)) == ChildPins(children)
  {
    if children != [] {
      FieldEquationsKeys(children[0]);
      FlattenKeys(children[1..]);
      KeysAppend(FieldEquations(children[0]), Flatten(children[1..]));
    }
  }

  /** Appending children appends their rows and leaves the earlier rows as they were. */
  lemma {:induction false} FlattenAppend(a: seq<Leaf>, b: seq<Leaf>)
    requires AllWellFormed(a) && AllWellFormed(b)
    ensures AllWellFormed(a + b)
    ensures Flatten(a + b) == Flatten(a) + Flatten(b)
  {
    assert AllWellFormed(a + b) by {
      forall k | 0 <= k < |a + b| ensures WellFormed((a + b)[k]) {
        if k < |a| { assert (a + b)[k] == a[k]; } else { assert (a + b)[k] == b[k - |a|]; }
      }
    }
    if a == [] {
      assert a + b == b;
    } else {
      assert (a + b)[0] == a[0];
      assert (a + b)[1..] == a[1..] + b;
      FlattenAppend(a[1..], b);
    }
  }

  lemma FlattenSingle(c: Leaf)
    requires WellFormed(c)
    ensures Flatten([c]) == FieldEquations(c)
  {
    assert [c][1..] == [];
  }

  lemma {:induction false} TotalEquationsAppend(a: seq<Leaf>, b: seq<Leaf>)
    ensures TotalEquations(a + b) == TotalEquations(a) + TotalEquations(b)
  {
    if a == [] {
      assert a + b == b;
    } else {
      assert (a + b)[0] == a[0];
      assert (a + b)[1..] == a[1..] + b;
      TotalEquationsAppend(a[1..], b);
    }
  }

  lemma {:induction false} ChildPinsAppend(a: seq<Leaf>, b: seq<Leaf>)
    ensures ChildPins(a + b) == ChildPins(a) + ChildPins(b)
  {
    if a == [] {
      assert a + b == b;
    } else {
      assert (a + b)[0] == a[0];
      assert (a + b)[1..] == a[1..] + b;
      ChildPinsAppend(a[1..], b);
    }
  }

  lemma OfSingle(c: Leaf)
    ensures TotalEquations([c]) == NumEquations(c)
    ensures ChildPins([c]) == Elems(c.pins)
  {
    assert [c][1..] == [];
  }

  lemma OfFour(a: Leaf, b: Leaf, c: Leaf, d: Leaf)
    ensures TotalEquations([a, b, c, d]) == NumEquations(a) + NumEquations(b) + NumEquations(c) + NumEquations(d)
    ensures ChildPins([a, b, c, d]) == Elems(a.pins) + Elems(b.pins) + Elems(c.pins) + Elems(d.pins)
  {
    OfSingle(d);
    assert [c, d][1..] == [d];
    assert TotalEquations([c, d]) == NumEquations(c) + NumEquations(d);
    assert ChildPins([c, d]) == Elems(c.pins) + Elems(d.pins);
    assert [b, c, d][1..] == [c, d];
    assert TotalEquations([b, c, d]) == NumEquations(b) + TotalEquations([c, d]);
    assert ChildPins([b, c, d]) == Elems(b.pins) + ChildPins([c, d]);
    assert [a, b, c, d][1..] == [b, c, d];
    assert TotalEquations([a, b, c, d]) == NumEquations(a) + TotalEquations([b, c, d]);
    assert ChildPins([a, b, c, d]) == Elems(a.pins) + ChildPins([b, c, d]);
  }

  /** The pins of a sequence that has no repeated pin number as many as its length. */
  lemma {:induction false} DistinctCardinality(s: seq<Pin>)
    requires Distinct(s)
    ensures |Elems(s)| == |s|
  {
    if s != [] {
      assert Elems(s) == {s[0]} + Elems(s[1..]);
      assert s[0] !in Elems(s[1..]);
      DistinctCardinality(s[1..]);
    }
  }

  /** A system is square when it has one row per distinct pin it mentions. */
  predicate IsSquare(rows: seq<Equation>) {
    |rows| == |Keys(rows)|
  }

  /**
   * Attaching boundary children to a composite whose children use exactly
   * its distinct pins: the composite's rows come first, unchanged, and when
   * the added rows make up the missing count the system is square.
   */
  lemma SquareAfterAttaching(children: seq<Leaf>, added: seq<Leaf>, pins: seq<Pin>)
    requires AllWellFormed(children) && AllWellFormed(added)
    requires Distinct(pins)
    requires ChildPins(children) == Elems(pins)
    requires ChildPins(added) <= Elems(pins)
    requires TotalEquations(children) + TotalEquations(added) == |pins|
    ensures AllWellFormed(children + added)
    ensures var rows := Flatten(children + added);
      && |rows| == |pins|
      && rows[..TotalEquations(children)] == Flatten(children)
      && Keys(rows) == Elems(pins)
      && IsSquare(rows)
  {
    FlattenAppend(children, added);
    TotalEquationsAppend(children, added);
    ChildPinsAppend(children, added);
    DistinctCardinality(pins);
    FlattenKeys(children + added);
    var rows := Flatten(children + added);
    assert rows[..TotalEquations(children)] == Flatten(children);
  }

  /**
   * The children RingResonator.__init__ builds: a coupler on the ring's own
   * four pins (default phases exp(i·0) = 1 and exp(i·π/2) = i) and the
   * waveguide closing the ring from pins[3] back to pins[1].
   */
  function RingChildren(cross: real, selfMagnitude: real, propagation: Complex, pins: seq<Pin>): (children: seq<Leaf>)
    requires |pins| == RING_PINS
    ensures AllWellFormed(children)
    ensures ChildPins(children) == Elems(pins)
    ensures TotalEquations(children) == RING_EQUATIONS
  {
    var coupler := NewDirectionalCoupler(cross, selfMagnitude, ONE, I, pins);
    var closing := Waveguide([pins[3], pins[1]], propagation);
    OfSingle(coupler);
    OfSingle(closing);
    TotalEquationsAppend([coupler], [closing]);
    ChildPinsAppend([coupler], [closing]);
    assert [coupler] + [closing] == [coupler, closing];
    [coupler, closing]
  }

  /**
   * The children AddDropFilter.__init__ builds: an input coupler on
   * pins[:4], an auxiliary coupler on pins[4:], and two waveguides
   * [pins[3], pins[5]] and [pins[7], pins[1]].
   */
  function AddDropChildren(inputCross: real, inputSelfMagnitude: real, auxiliaryCross: real,
                           auxiliarySelfMagnitude: real, propagation: Complex, pins: seq<Pin>): (children: seq<Leaf>)
    requires |pins| == ADD_DROP_PINS
    ensures AllWellFormed(children)
    ensures ChildPins(children) == Elems(pins)
    ensures TotalEquations(children) == ADD_DROP_EQUATIONS
  {
    var input := NewDirectionalCoupler(inputCross, inputSelfMagnitude, ONE, I, pins[..4]);
    var auxiliary := NewDirectionalCoupler(auxiliaryCross, auxiliarySelfMagnitude, ONE, I, pins[4..]);
    var upper := Waveguide([pins[3], pins[5]], propagation);
    var lower := Waveguide([pins[7], pins[1]], propagation);
    OfFour(input, auxiliary, upper, lower);
    assert Elems(pins) == Elems(pins[..4]) + Elems(pins[4..]) by {
      assert pins == pins[..4] + pins[4..];
    }
    [input, auxiliary, upper, lower]
  }

  /** The filter's rows, row by row, and the pins each one mentions. */
  lemma AddDropRowKeys(inputCross: real, inputSelfMagnitude: real, auxiliaryCross: real,
                       auxiliarySelfMagnitude: real, propagation: Complex, pins: seq<Pin>)
    requires |pins| == ADD_DROP_PINS
    ensures var rows := Flatten(AddDropChildren(inputCross, inputSelfMagnitude, auxiliaryCross,
                                                 auxiliarySelfMagnitude, propagation, pins));
      && |rows| == ADD_DROP_EQUATIONS
      && rows[0].Keys == {pins[0], pins[1], pins[2]}
      && rows[1].Keys == {pins[0], pins[1], pins[3]}
      && rows[2].Keys == {pins[4], pins[5], pins[6]}
      && rows[3].Keys == {pins[4], pins[5], pins[7]}
      && rows[4].Keys == {pins[3], pins[5]}
      && rows[5].Keys == {pins[7], pins[1]}
  {
    var children := AddDropChildren(inputCross, inputSelfMagnitude, auxiliaryCross,
                                    auxiliarySelfMagnitude, propagation, pins);
    FilterRowKeys(children, pins);
  }

  /** The row keys of any four children wired as the AddDropFilter wires its children. */
  lemma FilterRowKeys(children: seq<Leaf>, pins: seq<Pin>)
    requires |pins| == ADD_DROP_PINS && |children| == 4 && AllWellFormed(children)
    requires children[0].DirectionalCoupler? && children[0].pins == pins[..4]
    requires children[1].DirectionalCoupler? && children[1].pins == pins[4..]
    requires children[2].Waveguide? && children[2].pins == [pins[3], pins[5]]
    requires children[3].Waveguide? && children[3].pins == [pins[7], pins[1]]
    ensures var rows := Flatten(children);
      && |rows| == ADD_DROP_EQUATIONS
      && rows[0].Keys == {pins[0], pins[1], pins[2]}
      && rows[1].Keys == {pins[0], pins[1], pins[3]}
      && rows[2].Keys == {pins[4], pins[5], pins[6]}
      && rows[3].Keys == {pins[4], pins[5], pins[7]}
      && rows[4].Keys == {pins[3], pins[5]}
      && rows[5].Keys == {pins[7], pins[1]}
  {
    var c0, c1, c2, c3 := children[0], children[1], children[2], children[3];
    FlattenFour(children);
    CouplerRowKeys(c0);
    CouplerRowKeys(c1);
    WaveguideRow(c2);
    WaveguideRow(c3);
    var a, b, c, d := FieldEquations(c0), FieldEquations(c1), FieldEquations(c2), FieldEquations(c3);
    var rows := a + (b + (c + d));
    assert rows[0] == a[0] && rows[1] == a[1] && rows[2] == b[0] && rows[3] == b[1];
    assert rows[4] == c[0] && rows[5] == d[0];
    assert c0.pins[0] == pins[0] && c0.pins[1] == pins[1] && c0.pins[2] == pins[2] && c0.pins[3] == pins[3];
    assert c1.pins[0] == pins[4] && c1.pins[1] == pins[5] && c1.pins[2] == pins[6] && c1.pins[3] == pins[7];
  }

  /** Four children's rows, one child after the other. */
  lemma FlattenFour(children: seq<Leaf>)
    requires |children| == 4 && AllWellFormed(children)
    ensures Flatten(children) == FieldEquations(children[0]) + (FieldEquations(children[1])
                                 + (FieldEquations(children[2]) + FieldEquations(children[3])))
  {
    var c0, c1, c2, c3 := children[0], children[1], children[2], children[3];
    assert children == [c0] + ([c1] + ([c2] + [c3]));
    FlattenSingle(c3);
    FlattenCons(c2, [c3]);
    FlattenCons(c1, [c2] + [c3]);
    FlattenCons(c0, [c1] + ([c2] + [c3]));
  }

  lemma FlattenCons(c: Leaf, rest: seq<Leaf>)
    requires WellFormed(c) && AllWellFormed(rest)
    ensures AllWellFormed([c] + rest)
    ensures Flatten([c] + rest) == FieldEquations(c) + Flatten(rest)
  {
    assert ([c] + rest)[0] == c;
    assert ([c] + rest)[1..] == rest;
  }

  /** The ring's rows: the coupler's two rows, then the closing waveguide's. */
  lemma RingRowKeys(cross: real, selfMagnitude: real, propagation: Complex, pins: seq<Pin>)
    requires |pins| == RING_PINS
    ensures var rows := Flatten(RingChildren(cross, selfMagnitude, propagation, pins));
      && |rows| == RING_EQUATIONS
      && rows[0].Keys == {pins[0], pins[1], pins[2]}
      && rows[1].Keys == {pins[0], pins[1], pins[3]}
      && rows[2].Keys == {pins[3], pins[1]}
  {
    var children := RingChildren(cross, selfMagnitude, propagation, pins);
    var c0, c1 := children[0], children[1];
    assert children == [c0] + [c1];
    FlattenAppend([c0], [c1]);
    FlattenSingle(c0);
    FlattenSingle(c1);
    CouplerRowKeys(c0);
  }

  /**
   * RingResonator wiring: the coupler gets the ring's four pins in order,
   * the closing waveguide gets [pins[3], pins[1]], there are 2 + 1 = 3 rows,
   * and every pin a row mentions is one of the ring's pins.
   */
  lemma RingWiring(cross: real, selfMagnitude: real, propagation: Complex, pins: seq<Pin>)
    requires |pins| == RING_PINS
    ensures var children := RingChildren(cross, selfMagnitude, propagation, pins);
      && |children| == 2
      && children[0].DirectionalCoupler? && children[0].pins == pins
      && children[1].Waveguide? && children[1].pins == [pins[3], pins[1]]
      && |Flatten(children)| == RING_EQUATIONS
      && Keys(Flatten(children)) == Elems(pins)
  {
    FlattenKeys(RingChildren(cross, selfMagnitude, propagation, pins));
  }

  /** With the default phases, the ring's coupler keeps |sigma|² + |kappa|² = 1. */
  lemma RingCouplerUnitary(cross: real, selfMagnitude: real, propagation: Complex, pins: seq<Pin>)
    requires |pins| == RING_PINS
    requires IsSelfMagnitude(selfMagnitude, cross)
    ensures var coupler := RingChildren(cross, selfMagnitude, propagation, pins)[0];
      Abs2(coupler.sigma) + Abs2(coupler.kappa) == 1.0
  {
    assert RingChildren(cross, selfMagnitude, propagation, pins)[0]
        == NewDirectionalCoupler(cross, selfMagnitude, ONE, I, pins);
    DefaultPhaseCouplerUnitarity(cross, selfMagnitude, pins);
  }

  /**
   * AddDropFilter wiring: the couplers take pins[:4] and pins[4:], which
   * together are all eight pins and, for distinct pins, share none; the
   * waveguides take [pins[3], pins[5]] and [pins[7], pins[1]]; there are
   * 2 + 2 + 1 + 1 = 6 rows over exactly the filter's pins.
   */
  lemma AddDropWiring(inputCross: real, inputSelfMagnitude: real, auxiliaryCross: real,
                      auxiliarySelfMagnitude: real, propagation: Complex, pins: seq<Pin>)
    requires |pins| == ADD_DROP_PINS
    ensures var children := AddDropChildren(inputCross, inputSelfMagnitude, auxiliaryCross,
                                             auxiliarySelfMagnitude, propagation, pins);
      && |children| == 4
      && children[0].DirectionalCoupler? && children[0].pins == pins[..4]
      && children[1].DirectionalCoupler? && children[1].pins == pins[4..]
      && children[0].pins + children[1].pins == pins
      && (Distinct(pins) ==> Elems(children[0].pins) !! Elems(children[1].pins))
      && children[2].Waveguide? && children[2].pins == [pins[3], pins[5]]
      && children[3].Waveguide? && children[3].pins == [pins[7], pins[1]]
      && |Flatten(children)| == ADD_DROP_EQUATIONS
      && Keys(Flatten(children)) == Elems(pins)
  {
    FlattenKeys(AddDropChildren(inputCross, inputSelfMagnitude, auxiliaryCross,
                                auxiliarySelfMagnitude, propagation, pins));
    assert pins[..4] + pins[4..] == pins;
    if Distinct(pins) {
      forall p | p in Elems(pins[..4]) ensures p !in Elems(pins[4..]) {
        var i :| 0 <= i < 4 && pins[..4][i] == p;
        forall j | 0 <= j < 4 ensures pins[4..][j] != p {
          assert pins[4..][j] == pins[4 + j];
        }
      }
    }
  }

  /** With the default phases, both of the filter's couplers keep |sigma|² + |kappa|² = 1. */
  lemma AddDropCouplersUnitary(inputCross: real, inputSelfMagnitude: real, auxiliaryCross: real,
                               auxiliarySelfMagnitude: real, propagation: Complex, pins: seq<Pin>)
    requires |pins| == ADD_DROP_PINS
    requires IsSelfMagnitude(inputSelfMagnitude, inputCross)
    requires IsSelfMagnitude(auxiliarySelfMagnitude, auxiliaryCross)
    ensures var children := AddDropChildren(inputCross, inputSelfMagnitude, auxiliaryCross,
                                             auxiliarySelfMagnitude, propagation, pins);
      && Abs2(children[0].sigma) + Abs2(children[0].kappa) == 1.0
      && Abs2(children[1].sigma) + Abs2(children[1].kappa) == 1.0
  {
    var children := AddDropChildren(inputCross, inputSelfMagnitude, auxiliaryCross,
                                    auxiliarySelfMagnitude, propagation, pins);
    assert children[0] == NewDirectionalCoupler(inputCross, inputSelfMagnitude, ONE, I, pins[..4]);
    assert children[1] == NewDirectionalCoupler(auxiliaryCross, auxiliarySelfMagnitude, ONE, I, pins[4..]);
    DefaultPhaseCouplerUnitarity(inputCross, inputSelfMagnitude, pins[..4]);
    DefaultPhaseCouplerUnitarity(auxiliaryCross, auxiliarySelfMagnitude, pins[4..]);
  }

  /**
   * A ring without a boundary Source is under-determined: 3 rows for 4
   * distinct pins.
   */
  lemma RingAloneUnderdetermined(cross: real, selfMagnitude: real, propagation: Complex, pins: seq<Pin>)
    requires |pins| == RING_PINS && Distinct(pins)
    ensures var rows := Flatten(RingChildren(cross, selfMagnitude, propagation, pins));
      |rows| < |Keys(rows)|
  {
    FlattenKeys(RingChildren(cross, selfMagnitude, propagation, pins));
    DistinctCardinality(pins);
  }

  /**
   * ring_degub's boundary: the ring plus a Source on pins[0] has 4 rows
   * over its 4 distinct pins; the ring's own 3 rows come first, unchanged.
   */
  lemma RingWithSourceSquare(cross: real, selfMagnitude: real, propagation: Complex, source: Leaf, pins: seq<Pin>)
    requires |pins| == RING_PINS && Distinct(pins)
    requires source.Source? && source.pins == [pins[0]]
    ensures var children := RingChildren(cross, selfMagnitude, propagation, pins);
      var rows := Flatten(children + [source]);
      && |rows| == RING_PINS
      && rows[..RING_EQUATIONS] == Flatten(children)
      && Keys(rows) == Elems(pins)
      && IsSquare(rows)
  {
    OfSingle(source);
    SquareAfterAttaching(RingChildren(cross, selfMagnitude, propagation, pins), [source], pins);
  }

  /**
   * add_drop_filter_debug's boundary: the filter plus Sources on pins[0]
   * and pins[4] has 8 rows over its 8 distinct pins; the filter's own 6 rows
   * come first, unchanged.
   */
  lemma AddDropWithSourcesSquare(inputCross: real, inputSelfMagnitude: real, auxiliaryCross: real,
                                 auxiliarySelfMagnitude: real, propagation: Complex,
                                 input: Leaf, auxiliary: Leaf, pins: seq<Pin>)
    requires |pins| == ADD_DROP_PINS && Distinct(pins)
    requires input.Source? && input.pins == [pins[0]]
    requires auxiliary.Source? && auxiliary.pins == [pins[4]]
    ensures var children := AddDropChildren(inputCross, inputSelfMagnitude, auxiliaryCross,
                                             auxiliarySelfMagnitude, propagation, pins);
      var rows := Flatten(children + [input] + [auxiliary]);
      && |rows| == ADD_DROP_PINS
      && rows[..ADD_DROP_EQUATIONS] == Flatten(children)
      && Keys(rows) == Elems(pins)
      && IsSquare(rows)
  {
    var children := AddDropChildren(inputCross, inputSelfMagnitude, auxiliaryCross,
                                    auxiliarySelfMagnitude, propagation, pins);
    OfSingle(input);
    OfSingle(auxiliary);
    TotalEquationsAppend([input], [auxiliary]);
    ChildPinsAppend([input], [auxiliary]);
    assert [input] + [auxiliary] == [input, auxiliary];
    assert children + [input] + [auxiliary] == children + [input, auxiliary];
    SquareAfterAttaching(children, [input, auxiliary], pins);
  }

  /**
   * On the filter's rows with distinct pins, pins[6] (the auxiliary
   * coupler's port 2) appears in row 2 only, and pins[3] (the input
   * coupler's port 3, which feeds the first waveguide) in rows 1 and 4 only.
   */
  lemma MonitorPinRows(inputCross: real, inputSelfMagnitude: real, auxiliaryCross: real,
                       auxiliarySelfMagnitude: real, propagation: Complex, pins: seq<Pin>)
    requires |pins| == ADD_DROP_PINS && Distinct(pins)
    ensures var rows := Flatten(AddDropChildren(inputCross, inputSelfMagnitude, auxiliaryCross,
                                                 auxiliarySelfMagnitude, propagation, pins));
      && (forall k :: 0 <= k < |rows| ==> (pins[6] in rows[k] <==> k == 2))
      && (forall k :: 0 <= k < |rows| ==> (pins[3] in rows[k] <==> k == 1 || k == 4))
  {
    AddDropRowKeys(inputCross, inputSelfMagnitude, auxiliaryCross, auxiliarySelfMagnitude, propagation, pins);
    MonitorPinRowsOf(Flatten(AddDropChildren(inputCross, inputSelfMagnitude, auxiliaryCross,
                                             auxiliarySelfMagnitude, propagation, pins)), pins);
  }

  lemma MonitorPinRowsOf(rows: seq<Equation>, pins: seq<Pin>)
    requires |pins| == ADD_DROP_PINS && Distinct(pins)
    requires |rows| == ADD_DROP_EQUATIONS
    requires rows[0].Keys == {pins[0], pins[1], pins[2]}
    requires rows[1].Keys == {pins[0], pins[1], pins[3]}
    requires rows[2].Keys == {pins[4], pins[5], pins[6]}
    requires rows[3].Keys == {pins[4], pins[5], pins[7]}
    requires rows[4].Keys == {pins[3], pins[5]}
    requires rows[5].Keys == {pins[7], pins[1]}
    ensures forall k :: 0 <= k < |rows| ==> (pins[6] in rows[k] <==> k == 2)
    ensures forall k :: 0 <= k < |rows| ==> (pins[3] in rows[k] <==> k == 1 || k == 4)
  {
    assert pins[6] != pins[0] && pins[6] != pins[1] && pins[6] != pins[2] && pins[6] != pins[3];
    assert pins[6] != pins[4] && pins[6] != pins[5] && pins[6] != pins[7];
    assert pins[3] != pins[0] && pins[3] != pins[1] && pins[3] != pins[2] && pins[3] != pins[4];
    assert pins[3] != pins[5] && pins[3] != pins[6] && pins[3] != pins[7];
  }

  /**
   * The monitor columns of field_enhancement (3) and transmission (6) lie
   * inside the filter's 8 pins, and the pins in those positions are pins the
   * filter's rows actually mention.
   */
  lemma MonitorColumns(inputCross: real, inputSelfMagnitude: real, auxiliaryCross: real,
                       auxiliarySelfMagnitude: real, propagation: Complex, pins: seq<Pin>)
    requires |pins| == ADD_DROP_PINS
    ensures FIELD_ENHANCEMENT_COLUMN < ADD_DROP_PINS && TRANSMISSION_COLUMN < ADD_DROP_PINS
    ensures var rows := Flatten(AddDropChildren(inputCross, inputSelfMagnitude, auxiliaryCross,
                                                 auxiliarySelfMagnitude, propagation, pins));
      && pins[FIELD_ENHANCEMENT_COLUMN] in Keys(rows)
      && pins[TRANSMISSION_COLUMN] in Keys(rows)
  {
    FlattenKeys(AddDropChildren(inputCross, inputSelfMagnitude, auxiliaryCross,
                                auxiliarySelfMagnitude, propagation, pins));
  }

  /**
   * A composite structure: its fixed pin list and its mutable list of
   * children. In the part modelled here, RingResonator and AddDropFilter
   * differ only in what their constructors put there; the filter's monitor
   * columns are the module constants FIELD_ENHANCEMENT_COLUMN and
   * TRANSMISSION_COLUMN.
   */
  class CompositeStructure {
    const numPins: nat
    const numEquations: nat
    const pins: seq<Pin>
    const radius: real
    var structures: seq<Leaf>

    ghost predicate Valid()
      reads this
    {
      |pins| == numPins && AllWellFormed(structures)
    }

    /** The composite's rows, recomputed from the current children on every call. */
    function FieldEquations(): (rows: seq<Equation>)
      reads this
      requires Valid()
      ensures |rows| == TotalEquations(structures)
      ensures Keys(rows) == ChildPins(structures)
    {
      FlattenKeys(structures);
      Flatten(structures)
    }

    constructor RingResonator(radius: real, cross: real, selfMagnitude: real, propagation: Complex, pins: seq<Pin>)
      requires |pins| == RING_PINS
      ensures Valid()
      ensures numPins == RING_PINS && numEquations == RING_EQUATIONS
      ensures this.pins == pins && this.radius == radius
      ensures structures == RingChildren(cross, selfMagnitude, propagation, pins)
      ensures TotalEquations(structures) == numEquations
    {
      numPins, numEquations := RING_PINS, RING_EQUATIONS;
      this.pins, this.radius := pins, radius;
      structures := RingChildren(cross, selfMagnitude, propagation, pins);
    }

    constructor AddDropFilter(radius: real, inputCross: real, inputSelfMagnitude: real, auxiliaryCross: real,
                              auxiliarySelfMagnitude: real, propagation: Complex, pins: seq<Pin>)
      requires |pins| == ADD_DROP_PINS
      ensures Valid()
      ensures numPins == ADD_DROP_PINS && numEquations == ADD_DROP_EQUATIONS
      ensures this.pins == pins && this.radius == radius
      ensures structures == AddDropChildren(inputCross, inputSelfMagnitude, auxiliaryCross,
                                            auxiliarySelfMagnitude, propagation, pins)
      ensures TotalEquations(structures) == numEquations
    {
      numPins, numEquations := ADD_DROP_PINS, ADD_DROP_EQUATIONS;
      this.pins, this.radius := pins, radius;
      structures := AddDropChildren(inputCross, inputSelfMagnitude, auxiliaryCross,
                                    auxiliarySelfMagnitude, propagation, pins);
    }

    /**
     * structures.append(child): the child goes last and the earlier children
     * stay as they were, so the row count grows by the child's
     * num_equations (FlattenAppend: the earlier rows stay a prefix).
     */
    method Append(child: Leaf)
      requires Valid() && WellFormed(child)
      modifies this
      ensures Valid()
      ensures structures == old(structures) + [child]
      ensures TotalEquations(structures) == TotalEquations(old(structures)) + NumEquations(child)
    {
      FlattenAppend(structures, [child]);
      TotalEquationsAppend(structures, [child]);
      OfSingle(child);
      structures := structures + [child];
    }
  }

  /**
   * ring_degub: a ring of radius 120 µm and cross-coupling 0.1 on fresh
   * pins, terminated by a unit Source on pins[0]; the result is square.
   * `selfMagnitude` stands for sqrt(1 - 0.1²) and `propagation` for the
   * closing waveguide's transfer factor at the sampled frequency.
   */
  method RingDebug(selfMagnitude: real, propagation: Complex, pins: seq<Pin>) returns (ring: CompositeStructure)
    requires |pins| == RING_PINS && Distinct(pins)
    requires IsSelfMagnitude(selfMagnitude, 0.1)
    ensures fresh(ring) && ring.Valid() && ring.pins == pins && ring.radius == 0.00012
    ensures ring.structures == RingChildren(0.1, selfMagnitude, propagation, pins) + [Source([pins[0]], ONE, 0.0)]
    ensures Abs2(ring.structures[0].sigma) + Abs2(ring.structures[0].kappa) == 1.0
    ensures |ring.FieldEquations()| == ring.numPins
    ensures IsSquare(ring.FieldEquations())
  {
    ring := new CompositeStructure.RingResonator(0.00012, 0.1, selfMagnitude, propagation, pins);
    ring.Append(Source([ring.pins[0]], ONE, 0.0));
    RingDebugSquare(ring, 0.1, selfMagnitude, propagation);
    RingCouplerUnitary(0.1, selfMagnitude, propagation, pins);
  }

  /** A ring whose children are its own plus a Source on pins[0] has one row per pin. */
  lemma RingDebugSquare(ring: CompositeStructure, cross: real, selfMagnitude: real, propagation: Complex)
    requires ring.Valid() && ring.numPins == RING_PINS && Distinct(ring.pins)
    requires ring.structures == RingChildren(cross, selfMagnitude, propagation, ring.pins) + [Source([ring.pins[0]], ONE, 0.0)]
    ensures |ring.FieldEquations()| == ring.numPins
    ensures IsSquare(ring.FieldEquations())
  {
    RingWithSourceSquare(cross, selfMagnitude, propagation, Source([ring.pins[0]], ONE, 0.0), ring.pins);
  }

  /**
   * add_drop_filter_debug: a filter of radius 120 µm with both
   * cross-couplings 0.1 on fresh pins, a unit Source on pins[0] and a
   * zero-amplitude Source on pins[4]; the result is square.
   */
  method AddDropFilterDebug(selfMagnitude: real, propagation: Complex, pins: seq<Pin>)
    returns (filter: CompositeStructure)
    requires |pins| == ADD_DROP_PINS && Distinct(pins)
    requires IsSelfMagnitude(selfMagnitude, 0.1)
    ensures fresh(filter) && filter.Valid() && filter.pins == pins && filter.radius == 0.00012
    ensures filter.structures == AddDropChildren(0.1, selfMagnitude, 0.1, selfMagnitude, propagation, pins)
                                 + [Source([pins[0]], ONE, 0.0)] + [Source([pins[4]], ZERO, 0.0)]
    ensures Abs2(filter.structures[0].sigma) + Abs2(filter.structures[0].kappa) == 1.0
    ensures Abs2(filter.structures[1].sigma) + Abs2(filter.structures[1].kappa) == 1.0
    ensures |filter.FieldEquations()| == filter.numPins
    ensures IsSquare(filter.FieldEquations())
  {
    filter := new CompositeStructure.AddDropFilter(0.00012, 0.1, selfMagnitude, 0.1, selfMagnitude, propagation, pins);
    filter.Append(Source([filter.pins[0]], ONE, 0.0));
    filter.Append(Source([filter.pins[4]], ZERO, 0.0));
    AddDropDebugSquare(filter, 0.1, selfMagnitude, 0.1, selfMagnitude, propagation);
    AddDropCouplersUnitary(0.1, selfMagnitude, 0.1, selfMagnitude, propagation, pins);
  }

  /**
   * A filter whose children are its own plus Sources on pins[0] and pins[4]
   * has one row per pin.
   */
  lemma AddDropDebugSquare(filter: CompositeStructure, inputCross: real, inputSelfMagnitude: real,
                           auxiliaryCross: real, auxiliarySelfMagnitude: real, propagation: Complex)
    requires filter.Valid() && filter.numPins == ADD_DROP_PINS && Distinct(filter.pins)
    requires filter.structures == AddDropChildren(inputCross, inputSelfMagnitude, auxiliaryCross,
                                                  auxiliarySelfMagnitude, propagation, filter.pins)
                                  + [Source([filter.pins[0]], ONE, 0.0)] + [Source([filter.pins[4]], ZERO, 0.0)]
    ensures |filter.FieldEquations()| == filter.numPins
    ensures IsSquare(filter.FieldEquations())
  {
    AddDropWithSourcesSquare(inputCross, inputSelfMagnitude, auxiliaryCross, auxiliarySelfMagnitude, propagation,
                             Source([filter.pins[0]], ONE, 0.0), Source([filter.pins[4]], ZERO, 0.0), filter.pins);
  }
}
