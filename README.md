# Photonic circuit wiring and equation shapes

A Dafny model of the wiring layer of a frequency-domain photonic circuit
simulator (`src/structures.py`). Each circuit element contributes sparse
linear rows ("field equations") that map pin identities to complex
coefficients. A row says that the sum of coefficient times field amplitude
over its pins is zero, or, for a Source, that the amplitude at its pin equals
the Source's amplitude.

- **Leaves** (`leaves.dfy`, module `Leaves`):
  - A `Waveguide` gives one row over its two pins.
  - A `Source` gives one row `{pin: 1}` and the ordinate vector `[amplitude]`.
  - A `DirectionalCoupler` gives two rows over its four pins. The second row
    is the conjugate partner of the first.
- **Composites** (`composites.dfy`, module `Composites`):
  - A `RingResonator` is a coupler closed by a waveguide.
  - An `AddDropFilter` is two couplers joined by two waveguides.
  - Both are built only by handing the same pin identities to several
    children. The class `CompositeStructure` holds a composite's fixed pin
    list and its mutable `structures` list.
  - The debug builders append Sources, which makes the system square: one row
    per distinct pin.
- **Complex numbers** (`complex.dfy`, module `Complex`): pairs of reals with
  negation, conjugation, products and squared magnitudes.

Modelling choices:

- A pin is a `nat` identity. A row is a `map<Pin, Complex>`.
- One frequency sample is modelled. The source keeps numpy arrays of
  coefficients over the whole sweep; the model keeps one complex value.
- Transcendental values are parameters rather than computed:
  - `propagation` is the waveguide factor `exp(-loss·ln10/20·L)·exp(i·k·L)`.
  - `selfMagnitude` is the coupler's `np.sqrt(1 - κ²)`. Lemmas that need it
    require `IsSelfMagnitude`, its defining equation.
  - `selfPhase` and `crossPhase` are `exp(i·φ)`. In real arithmetic the
    default phases 0 and π/2 give exactly `ONE` and `I`; float64 rounding is
    not modelled.
- A composite's `field_equations` is the in-order concatenation of its
  children's rows (`Flatten`). That flattening lives in `src/base.py`, which
  is not part of this model, so this is an assumption.
- Fresh default pins are assumed to be pairwise distinct (`Distinct`). The
  lemmas and debug builders that need distinctness require it.
- A leaf's pin list has exactly `num_pins` entries (`WellFormed`). The
  composite constructors require 4 and 8 pins. This is the assumed structure
  invariant behind every `WellFormed` requires; `src/base.py`, where pins are
  assigned, is not part of this model.

## Model

| member | source | states |
|---|---|---|
| `Leaves.FieldEquations` | src/structures.py:42-134 | every leaf gives exactly `num_equations` rows: 1 for a Waveguide, 1 for a Source, 2 for a DirectionalCoupler |
| `Leaves.FieldEquationsKeys` | src/structures.py:42-134 | together, a leaf's rows mention exactly the leaf's own pins, no more and no fewer |
| `Leaves.WaveguideRow` | src/structures.py:42-49 | a Waveguide has one row whose keys are {pins[0], pins[1]}, with coefficient 1 on pins[1]; when the two pins differ, the pins[0] coefficient is minus the propagation factor |
| `Leaves.SourceRow` | src/structures.py:70-78 | a Source's rows are exactly `[{pins[0]: 1}]` and its ordinate vector is `[amplitude]` |
| `Leaves.OrdinateVector` | src/structures.py:75-78 | a Source's ordinate vector has as many entries as it has rows, and each one is the amplitude |
| `Leaves.NewDirectionalCoupler` | src/structures.py:108-117 | the constructor builds a DirectionalCoupler on exactly the pins it is given; its magnitudes are stated by `CouplerUnitarity` |
| `Leaves.CouplerRowKeys` | src/structures.py:123-134 | a coupler has two rows, keyed by {pins[0], pins[1], pins[2]} and {pins[0], pins[1], pins[3]}, holding -1 on pins[2] and on pins[3] respectively |
| `Leaves.CouplerRowsSeparate` | src/structures.py:124-134 | on distinct pins, pins[3] is absent from row 1 and pins[2] is absent from row 2 |
| `Leaves.CouplerConjugatePartner` | src/structures.py:125-133 | row 2's pins[0] entry is -conj(row 1's pins[1] entry) and its pins[1] entry is conj(row 1's pins[0] entry); conjugating back recovers sigma and kappa |
| `Complex.ConjInvolution` | src/structures.py:130-131 | conjugation applied twice is the identity |
| `Leaves.SelfMagnitudeDomain` | src/structures.py:117 | a real sqrt(1 - κ²) exists only for -1 ≤ κ ≤ 1 |
| `Leaves.CouplerUnitarity` | src/structures.py:116-117 | with sigma = sqrt(1-κ²) and unit phases: \|kappa\|² = κ², \|sigma\|² = 1 - κ², and \|sigma\|² + \|kappa\|² = 1 |
| `Leaves.DefaultPhaseCouplerUnitarity` | src/structures.py:108-117 | the coupler built with the default phases exp(i·0) = 1 and exp(i·π/2) = i and sigma = sqrt(1-κ²) has \|sigma\|² + \|kappa\|² = 1 (an instance of `CouplerUnitarity`) |
| `Leaves.CouplerBlockUnitary` | src/structures.py:81-104 | the 2×2 block on pins 0 and 1 has orthogonal rows and determinant \|sigma\|² + \|kappa\|²; under unitarity each row has unit norm |
| `Composites.Flatten` | src/structures.py:137-139 | a composite's rows number the sum of its children's `num_equations` |
| `Composites.FlattenKeys` | src/structures.py:137-139 | a composite's rows mention exactly the pins handed to its children: no pin is lost and none is invented |
| `Composites.FlattenAppend` | src/structures.py:295 | appending children appends their rows, so the earlier rows stay an unchanged prefix |
| `Composites.SquareAfterAttaching` | src/structures.py:314-315 | attaching boundary children that make up the missing row count over a composite's distinct pins gives a square system, with the composite's own rows first |
| `Composites.RingChildren` | src/structures.py:157-169 | the ring's children are well formed, use exactly the ring's pins (no new pin) and give 3 rows in total |
| `Composites.RingRowKeys` | src/structures.py:157-169 | the ring's three rows are keyed {p0,p1,p2}, {p0,p1,p3} and {p3,p1} |
| `Composites.RingWiring` | src/structures.py:138-169 | the coupler gets the ring's 4 pins in order, the waveguide gets [pins[3], pins[1]], there are 3 rows (= `num_equations`), and the rows mention exactly the ring's pins |
| `Composites.RingCouplerUnitary` | src/structures.py:158 | the ring's coupler, with its default phases, satisfies \|sigma\|² + \|kappa\|² = 1 |
| `Composites.RingAloneUnderdetermined` | src/structures.py:138-139 | without a Source the ring has 3 rows over 4 distinct pins |
| `Composites.AddDropChildren` | src/structures.py:220-243 | the filter's children are well formed, use exactly the filter's 8 pins and give 6 rows in total |
| `Composites.AddDropRowKeys` | src/structures.py:220-243 | the filter's six rows are keyed {p0,p1,p2}, {p0,p1,p3}, {p4,p5,p6}, {p4,p5,p7}, {p3,p5} and {p7,p1} |
| `Composites.AddDropWiring` | src/structures.py:199-243 | the couplers take pins[:4] and pins[4:], which together are all 8 pins and are disjoint when the pins are distinct; the waveguides take [pins[3], pins[5]] and [pins[7], pins[1]]; there are 6 rows (= `num_equations`) over exactly the filter's pins |
| `Composites.AddDropCouplersUnitary` | src/structures.py:221-222 | both couplers, with their default phases, satisfy \|sigma\|² + \|kappa\|² = 1 |
| `Composites.RingWithSourceSquare` | src/structures.py:295 | ring plus a Source on pins[0]: 4 rows over exactly the 4 distinct pins, a square system whose first 3 rows are the ring's |
| `Composites.AddDropWithSourcesSquare` | src/structures.py:314-315 | filter plus Sources on pins[0] and pins[4]: 8 rows over exactly the 8 distinct pins, a square system whose first 6 rows are the filter's |
| `Composites.MonitorPinRows` | src/structures.py:249-255 | on distinct pins, pins[6] (the drop port) appears only in row 2, and pins[3] appears only in rows 1 and 4 |
| `Composites.MonitorColumns` | src/structures.py:250-255 | columns 3 and 6 are below the filter's 8 pins, and the pins in those positions are mentioned by the filter's rows |
| `Composites.CompositeStructure.FieldEquations` | src/structures.py:157-169 | the composite's rows, recomputed from the current children, number their total `num_equations` and mention exactly their pins |
| `Composites.CompositeStructure.RingResonator` | src/structures.py:141-169 | the constructor stores the pins and sets `structures` to the ring's coupler and closing waveguide, whose `num_equations` add up to the ring's 3 |
| `Composites.CompositeStructure.AddDropFilter` | src/structures.py:202-243 | the constructor stores the pins and sets `structures` to the two couplers and two waveguides, whose `num_equations` add up to the filter's 6 |
| `Composites.CompositeStructure.Append` | src/structures.py:295 | `structures.append(child)`: the child goes last, earlier children are unchanged, and the row count grows by the child's `num_equations`; `FlattenAppend` gives the rows themselves |
| `Composites.RingDebugSquare` | src/structures.py:295 | a ring holding its own children plus a Source on pins[0] has one row per pin and is square |
| `Composites.AddDropDebugSquare` | src/structures.py:314-315 | a filter holding its own children plus Sources on pins[0] and pins[4] has one row per pin and is square |
| `Composites.RingDebug` | src/structures.py:281-296 | builds the ring of radius 120 µm with κ = 0.1 (and `selfMagnitude` = sqrt(1 - 0.1²)), appends a unit Source on pins[0]; the coupler conserves power and the result is square with 4 rows for 4 pins |
| `Composites.AddDropFilterDebug` | src/structures.py:299-319 | builds the filter of radius 120 µm with both κ = 0.1, appends a unit Source on pins[0] and a zero-amplitude Source on pins[4]; both couplers conserve power and the result is square with 8 rows for 8 pins |

## Left out

- `Waveguide.wavevector` and the loss and phase factor of the waveguide row (src/structures.py:33-49): floating-point transcendental numerics over numpy arrays. The factor enters as the opaque `propagation` parameter, one value per sampled frequency, and the waveguide's stored physical parameters are not kept.
- `np.sqrt(1 - κ²)` and `np.exp(1j·phase)` in the coupler constructor: passed in as `selfMagnitude`, `selfPhase` and `crossPhase`. For |κ| > 1, numpy gives nan; the model has no nan, and no real `selfMagnitude` exists there (`SelfMagnitudeDomain`).
- `plot_spectrum` in both composites: matplotlib plotting and analytic floating-point curves. The `plot_spectrum` calls at the end of the debug builders are left out for the same reason.
- The absolute value and power of `field_enhancement` and `transmission`: magnitudes of the solved floating-point field array. Only the columns they read are modelled.
- The solved field array, the coefficient matrix, the assembled ordinate vector and the linear solve: these are in `src/base.py`, which is not part of this model, and the solve is a dense floating-point call.
- `Pin`, its identity counter and default pin allocation (`src/base.py`): pins are parameters, and fresh default pins are assumed distinct.
- The construction parameters other than `radius` (`cross_coupling_coefficient`, the two add-drop coefficients, the refractive indices, GVD, loss, wavelength and frequencies) are not stored as fields. The constructors do read them to build the children (src/structures.py:158-166 and 221-240); their effect on the children enters through `cross`, `selfMagnitude` and `propagation`.
- float64 rounding: the coefficients are exact reals. In particular numpy's `np.exp(1j*np.pi/2)` is 6.1e-17+1j rather than exactly `I`, and `np.sqrt` rounds; the model's default phases are exactly `ONE` and `I`.
- `__str__` of every class: string formatting of an identity assigned in `src/base.py`.
- Nesting a composite inside another composite: the shown composites have only leaf children, so `structures` holds leaves.
