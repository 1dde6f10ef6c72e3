/** Dynamic scoring in exact arithmetic: the value of a challenge falls from its initial score to its
    minimum as accounts solve it. */
module DynamicScore {
  import opened Options

  datatype Decay = Static | Linear | Logarithmic

  /** `initial`, `minimum` and `decay` of a dynamic challenge. */
  datatype Curve = Curve(initial: int, minimum: int, decay: int, mode: Decay)

  const I32_MIN := -0x8000_0000
  const I32_MAX := 0x7fff_ffff

  function Ceil(x: real): int { -((-x).Floor) }

  /** `as i32`: saturating. */
  function AsI32(x: int): int { if x < I32_MIN then I32_MIN else if x > I32_MAX then I32_MAX else x }

  function Max(a: int, b: int): int { if a >= b then a else b }

  function Calculated(c: Curve, solves: nat): real {
    var adjusted := Max(solves - 1, 0) as real;
    var decay := Max(c.decay, 1) as real;
    if c.mode.Linear? then c.initial as real - decay * adjusted
    else (c.minimum - c.initial) as real / (decay * decay) * (adjusted * adjusted) + c.initial as real
  }

  /** The value that `recalculate_dynamic_value` stores for that many solves by visible accounts. */
  function Value(c: Curve, solves: nat): int { Max(AsI32(Ceil(Calculated(c, solves))), c.minimum) }

  /** What the validation of challenges admits. */
  predicate Sound(c: Curve) {
    0 <= c.minimum <= c.initial <= I32_MAX && 0 < c.decay <= I32_MAX && !c.mode.Static?
  }

  // ------------------------------------------------------------------ rounding

  lemma CeilBounds(x: real)
    ensures x <= Ceil(x) as real < x + 1.0
  {
  }

  lemma CeilMonotone(x: real, y: real)
    requires x <= y
    ensures Ceil(x) <= Ceil(y)
  {
    CeilBounds(x);
    CeilBounds(y);
  }

  lemma CeilAgainst(x: real, n: int)
    ensures Ceil(x) <= n <==> x <= n as real
  {
    CeilBounds(x);
  }

  // ------------------------------------------------------------------ the curve

  /** `m/d * x <= m/d * y` for a factor that is not positive and `x >= y`. */
  lemma FallingProduct(factor: real, x: real, y: real)
    requires factor <= 0.0 && y <= x
    ensures factor * x <= factor * y
  {
  }

  lemma SquaresGrow(x: real, y: real)
    requires 0.0 <= x <= y
    ensures x * x <= y * y
  {
    assert x * x <= x * y <= y * y;
  }

  lemma FactorIsNotPositive(c: Curve)
    requires Sound(c)
    ensures (c.minimum - c.initial) as real / (c.decay as real * c.decay as real) <= 0.0
  {
    var d := c.decay as real * c.decay as real;
    assert d > 0.0;
    var q := (c.minimum - c.initial) as real / d;
    ProductsCompare(q, 0.0, d);
    assert q * d == (c.minimum - c.initial) as real;
  }

  /** A positive factor keeps the order. */
  lemma ProductsCompare(a: real, b: real, y: real)
    requires y > 0.0
    ensures a * y <= b * y <==> a <= b
  {
    if a <= b {
      assert (b - a) * y >= 0.0;
    } else {
      assert (a - b) * y > 0.0;
    }
  }

  lemma ParabolaFalls(factor: real, x: real, x': real, top: real)
    requires factor <= 0.0 && 0.0 <= x <= x'
    ensures factor * (x' * x') + top <= factor * (x * x) + top
  {
    SquaresGrow(x, x');
    FallingProduct(factor, x' * x', x * x);
  }

  lemma LogarithmicForm(c: Curve, s: nat)
    requires Sound(c) && c.mode.Logarithmic?
    ensures var a := Max(s - 1, 0) as real;
            Calculated(c, s)
            == (c.minimum - c.initial) as real / (c.decay as real * c.decay as real) * (a * a) + c.initial as real
  {
    assert Max(c.decay, 1) == c.decay;
  }

  lemma CalculatedFalls(c: Curve, s: nat, s': nat)
    requires Sound(c) && s <= s'
    ensures Calculated(c, s') <= Calculated(c, s)
  {
    var a, a' := Max(s - 1, 0) as real, Max(s' - 1, 0) as real;
    if c.mode.Linear? {
      FallingProduct(-(c.decay as real), a', a);
    } else {
      FactorIsNotPositive(c);
      LogarithmicForm(c, s);
      LogarithmicForm(c, s');
      ParabolaFalls((c.minimum - c.initial) as real / (c.decay as real * c.decay as real), a, a', c.initial as real);
      hide Calculated;
    }
  }

  lemma CalculatedAtStart(c: Curve, s: nat)
    requires s <= 1
    ensures Calculated(c, s) == c.initial as real
  {
    assert Max(s - 1, 0) == 0;
  }

  /** More solves never raise the value. */
  lemma ValueNeverRises(c: Curve, s: nat, s': nat)
    requires Sound(c) && s <= s'
    ensures Value(c, s') <= Value(c, s)
  {
    CalculatedFalls(c, s, s');
    CeilMonotone(Calculated(c, s'), Calculated(c, s));
  }

  /** The first solver still gets the initial score. */
  lemma ValueStartsAtInitial(c: Curve, s: nat)
    requires Sound(c) && s <= 1
    ensures Value(c, s) == c.initial
  {
    CalculatedAtStart(c, s);
    CeilAgainst(c.initial as real, c.initial);
    CeilAgainst(c.initial as real, c.initial - 1);
  }

  /** The value stays between the minimum and the initial score. */
  lemma ValueStaysInRange(c: Curve, s: nat)
    requires Sound(c)
    ensures c.minimum <= Value(c, s) <= c.initial
  {
    ValueNeverRises(c, 0, s);
    ValueStartsAtInitial(c, 0);
  }

  /** Below its minimum the curve is cut off: the value is the minimum exactly when the exact curve is at
      or below it. */
  lemma MinimumExactlyWhenCalculated(c: Curve, s: nat)
    requires Sound(c)
    ensures Value(c, s) == c.minimum <==> Calculated(c, s) <= c.minimum as real
  {
    CeilAgainst(Calculated(c, s), c.minimum);
    CalculatedFalls(c, 0, s);
    CalculatedAtStart(c, 0);
    CeilAgainst(Calculated(c, s), c.initial);
  }

  /** Logarithmic scoring reaches its minimum exactly when more accounts than `decay` have solved. */
  lemma LogarithmicMinimum(c: Curve, s: nat)
    requires Sound(c) && c.mode.Logarithmic? && c.minimum < c.initial
    ensures Value(c, s) == c.minimum <==> s > c.decay
  {
    MinimumExactlyWhenCalculated(c, s);
    ScaledDrop(c, s);
    LostExactlyPastDecay(c, s);
    LostDrop(c.initial, c.minimum, Lost(c, s));
    hide Calculated, Value, Lost;
  }

  /** What logarithmic scoring takes away from the initial score. */
  function Lost(c: Curve, s: nat): real
    requires c.decay > 0
  {
    var a, d := Max(s - 1, 0), c.decay;
    assert d * d > 0;
    (c.initial - c.minimum) as real * (a * a) as real / (d * d) as real
  }

  lemma LostExactlyPastDecay(c: Curve, s: nat)
    requires c.decay > 0 && c.minimum < c.initial
    ensures Lost(c, s) >= (c.initial - c.minimum) as real <==> s > c.decay
  {
    var a, d := Max(s - 1, 0), c.decay;
    assert d * d > 0;
    IntSquares(a, d);
    RatioCompares((c.initial - c.minimum) as real, (a * a) as real, (d * d) as real);
  }

  lemma LostDrop(initial: int, minimum: int, lost: real)
    ensures initial as real - lost <= minimum as real <==> lost >= (initial - minimum) as real
  {
  }

  lemma IntSquares(x: nat, y: nat)
    ensures x * x >= y * y <==> x >= y
  {
    if x < y { IntSquaresGrow(x, y); } else { assert x * x >= x * y >= y * y; }
  }

  lemma IntSquaresGrow(x: nat, y: nat)
    requires x < y
    ensures x * x < y * y
  {
    assert x * x <= x * y < y * y;
  }

  lemma ScaledDrop(c: Curve, s: nat)
    requires Sound(c) && c.mode.Logarithmic?
    ensures Calculated(c, s) == c.initial as real - Lost(c, s)
  {
    var a, d := Max(s - 1, 0), c.decay;
    assert (a * a) as real == a as real * a as real;
    assert (d * d) as real == d as real * d as real;
    var m, x, y := (c.initial - c.minimum) as real, (a * a) as real, (d * d) as real;
    assert (c.minimum - c.initial) as real == -m;
    NegatedQuotient(m, x, y);
  }

  lemma NegatedQuotient(m: real, x: real, y: real)
    requires y > 0.0
    ensures (-m) / y * x == -(m * x / y)
  {
    var p, q := (-m) / y, m * x / y;
    assert p * y == -m;
    assert q * y == m * x;
    assert (p * x) * y == (p * y) * x == -m * x == -(q * y) == (-q) * y;
    CancelFactor(p * x, -q, y);
  }

  lemma CancelFactor(a: real, b: real, y: real)
    requires y != 0.0 && a * y == b * y
    ensures a == b
  {
    assert (a - b) * y == 0.0;
  }

  lemma RatioCompares(m: real, x: real, y: real)
    requires m > 0.0 && y > 0.0
    ensures m * x / y >= m <==> x >= y
  {
    var q := m * x / y;
    assert q * y == m * x;
    ProductsCompare(m, q, y);
    ProductsCompare(y, x, m);
    assert m * y == y * m && m * x == x * m;
  }

  /** Linear scoring reaches its minimum exactly when the solves after the first have used up the drop. */
  lemma LinearMinimum(c: Curve, s: nat)
    requires Sound(c) && c.mode.Linear?
    ensures Value(c, s) == c.minimum <==> c.decay * Max(s - 1, 0) >= c.initial - c.minimum
  {
    MinimumExactlyWhenCalculated(c, s);
    assert c.decay as real * Max(s - 1, 0) as real == (c.decay * Max(s - 1, 0)) as real;
  }

  /** Linear scoring takes the decay off for each solve after the first, down to the minimum. */
  lemma LinearExactly(c: Curve, s: nat)
    requires Sound(c) && c.mode.Linear?
    ensures var left := c.initial - c.decay * (if s <= 1 then 0 else s - 1);
            Value(c, s) == if left > c.minimum then left else c.minimum
  {
    var a := Max(s - 1, 0);
    assert c.decay as real * a as real == (c.decay * a) as real;
    assert Calculated(c, s) == (c.initial - c.decay * a) as real;
    CeilAgainst(Calculated(c, s), c.initial - c.decay * a);
    CeilAgainst(Calculated(c, s), c.initial - c.decay * a - 1);
    assert c.decay * a >= 0;
  }

  /** Logarithmic scoring in whole numbers: up to `decay` solves the value is the least one that is not below
      initial - (initial - minimum) * (s - 1)^2 / decay^2, and after that it is the minimum. */
  lemma LogarithmicExactly(c: Curve, s: nat)
    requires Sound(c) && c.mode.Logarithmic?
    ensures var a := if s <= 1 then 0 else s - 1;
            var exact := c.initial * (c.decay * c.decay) - (c.initial - c.minimum) * (a * a);
            if s > c.decay then Value(c, s) == c.minimum
            else (Value(c, s) - 1) * (c.decay * c.decay) < exact <= Value(c, s) * (c.decay * c.decay)
  {
    if s > c.decay {
      if c.minimum < c.initial { LogarithmicMinimum(c, s); } else { ValueStaysInRange(c, s); }
    } else {
      ScaledDrop(c, s);
      LostWithinDrop(c, s);
      var calculated, v := Calculated(c, s), Ceil(Calculated(c, s));
      CeilAgainst(calculated, c.initial);
      CeilAgainst(calculated, c.minimum - 1);
      CeilBounds(calculated);
      assert Value(c, s) == v;
      hide Calculated, Value, Ceil, Lost;
      LostInWholeNumbers(c, s, v);
    }
  }

  /** At most the whole drop is lost while no more than `decay` accounts have solved. */
  lemma LostWithinDrop(c: Curve, s: nat)
    requires Sound(c) && s <= c.decay
    ensures 0.0 <= Lost(c, s) <= (c.initial - c.minimum) as real
  {
    var a, d := Max(s - 1, 0), c.decay;
    assert d * d > 0 && a * a >= 0;
    if a < d { IntSquaresGrow(a, d); }
    QuotientWithin((c.initial - c.minimum) as real, (a * a) as real, (d * d) as real);
  }

  lemma QuotientWithin(m: real, x: real, y: real)
    requires m >= 0.0 && 0.0 <= x <= y && y > 0.0
    ensures 0.0 <= m * x / y <= m
  {
    var q := m * x / y;
    assert q * y == m * x;
    ProductsGrow(m, x, y);
    ProductsCompare(q, m, y);
    ProductsCompare(0.0, q, y);
  }

  lemma ProductsGrow(m: real, x: real, y: real)
    requires m >= 0.0 && 0.0 <= x <= y
    ensures 0.0 <= m * x <= m * y
  {
  }

  function Times(x: real, y: real): real { x * y }

  /** `v` is the ceiling of what is left, times `decay^2`. */
  lemma LostInWholeNumbers(c: Curve, s: nat, v: int)
    requires c.decay > 0 && c.initial as real - Lost(c, s) <= v as real < c.initial as real - Lost(c, s) + 1.0
    ensures var a := Max(s - 1, 0);
            var exact := c.initial * (c.decay * c.decay) - (c.initial - c.minimum) * (a * a);
            (v - 1) * (c.decay * c.decay) < exact <= v * (c.decay * c.decay)
  {
    var a, square := Max(s - 1, 0), c.decay * c.decay;
    assert square > 0;
    LostTimes(c, s);
    WholeCeiling(c.initial, c.initial - c.minimum, a * a, square, v, Lost(c, s));
  }

  lemma LostTimes(c: Curve, s: nat)
    requires c.decay > 0
    ensures var a := Max(s - 1, 0);
            Times(Lost(c, s), (c.decay * c.decay) as real) == Times((c.initial - c.minimum) as real, (a * a) as real)
  {
    var a := Max(s - 1, 0);
    assert c.decay * c.decay > 0;
    QuotientTimes((c.initial - c.minimum) as real * (a * a) as real, (c.decay * c.decay) as real);
  }

  lemma QuotientTimes(x: real, y: real)
    requires y > 0.0
    ensures x / y * y == x
  {
  }

  lemma WholeCeiling(initial: int, drop: int, x: int, y: int, v: int, lost: real)
    requires y > 0 && Times(lost, y as real) == Times(drop as real, x as real)
    requires initial as real - lost <= v as real < initial as real - lost + 1.0
    ensures (v - 1) * y < initial * y - drop * x <= v * y
  {
    hide Times;
    CeilingTimes(initial as real, lost, v as real, y as real);
    WholeProduct(drop, x);
    WholeProduct(initial, y);
    WholeProduct(v, y);
    WholeProduct(v - 1, y);
    assert (v - 1) as real == v as real - 1.0;
    var low, high, all, off := (v - 1) * y, v * y, initial * y, drop * x;
    assert low as real < all as real - off as real <= high as real;
    assert low < all - off <= high;
  }

  lemma CeilingTimes(initial: real, lost: real, v: real, y: real)
    requires y > 0.0 && initial - lost <= v < initial - lost + 1.0
    ensures Times(v - 1.0, y) < Times(initial, y) - Times(lost, y) <= Times(v, y)
  {
    LeftTimes(initial, lost, y);
    ProductsCompare(initial - lost, v, y);
    ProductsCompare(initial - lost, v - 1.0, y);
  }

  lemma LeftTimes(initial: real, lost: real, y: real)
    ensures (initial - lost) * y == initial * y - lost * y
  {
  }

  lemma WholeProduct(x: int, y: int)
    ensures (x * y) as real == Times(x as real, y as real)
  {
  }

  // ------------------------------------------------------------------ validation

  datatype Scoring = Fixed(value: int) | Dynamic(curve: Curve)

  /** The scoring fields of a create request; absent and null fields are `None`. */
  datatype ScoringRequest = ScoringRequest(
    dynamic: bool,
    mode: Decay,
    value: Option<int>,
    initial: Option<int>,
    minimum: Option<int>,
    decay: Option<int>)

  /** The scoring part of `create`: the stored scoring and value, or the first complaint. */
  function Admit(r: ScoringRequest): Option<(Scoring, int)> {
    if r.dynamic == r.mode.Static? then None
    else if !r.dynamic && (r.initial.Some? || r.minimum.Some? || r.decay.Some?) then None
    else if r.dynamic && r.initial.Some? && r.value.Some? && r.initial != r.value then None
    else
      var initial := if r.initial.Some? then r.initial else r.value;
      if r.dynamic && (initial.None? || r.minimum.None? || r.decay.None?) then None
      else if r.dynamic
          && (initial.value < 0 || r.minimum.value < 0 || r.minimum.value > initial.value || r.decay.value <= 0)
      then None
      else
        var value := if r.dynamic then initial else r.value;
        if value.None? || value.value < 0 then None
        else if r.dynamic then Some((Dynamic(Curve(value.value, r.minimum.value, r.decay.value, r.mode)), value.value))
        else Some((Fixed(value.value), value.value))
  }

  predicate InI32(x: Option<int>) { x.Some? ==> I32_MIN <= x.value <= I32_MAX }

  /** The fields are 32-bit integers. */
  predicate Typed(r: ScoringRequest) { InI32(r.value) && InI32(r.initial) && InI32(r.minimum) && InI32(r.decay) }

  /** Whatever is admitted has a sound curve that starts at the stored value, or a fixed value that is not
      negative. */
  lemma AdmissionIsSound(r: ScoringRequest)
    requires Typed(r)
    ensures Admit(r).Some? ==>
              match Admit(r).value.0
              case Fixed(value) => !r.dynamic && value == Admit(r).value.1 >= 0
              case Dynamic(curve) => r.dynamic && Sound(curve) && Admit(r).value.1 == Value(curve, 0)
  {
    if Admit(r).Some? && r.dynamic { ValueStartsAtInitial(Admit(r).value.0.curve, 0); }
  }

  /** Exactly what creation admits: a fixed value that is given and not negative, without parameters of a curve; or all
      the parameters of a sound curve, its initial score given in either field, or alike in both. */
  lemma AdmittedExactly(r: ScoringRequest)
    ensures !r.dynamic ==>
              Admit(r) ==
                if r.mode.Static? && r.initial.None? && r.minimum.None? && r.decay.None? && r.value.Some?
                    && r.value.value >= 0
                then Some((Fixed(r.value.value), r.value.value)) else None
    ensures r.dynamic ==>
              var initial := if r.initial.Some? then r.initial else r.value;
              Admit(r) ==
                if !r.mode.Static? && initial.Some? && r.minimum.Some? && r.decay.Some?
                   && (r.initial.Some? && r.value.Some? ==> r.initial.value == r.value.value)
                   && 0 <= r.minimum.value <= initial.value && 0 < r.decay.value
                then Some((Dynamic(Curve(initial.value, r.minimum.value, r.decay.value, r.mode)), initial.value))
                else None
  {
  }

  /** ... and every sound curve is admitted when it is asked for in full. */
  lemma SoundCurvesAreAdmitted(c: Curve)
    requires Sound(c)
    ensures Admit(ScoringRequest(true, c.mode, None, Some(c.initial), Some(c.minimum), Some(c.decay)))
         == Some((Dynamic(c), Value(c, 0)))
    ensures Admit(ScoringRequest(true, c.mode, Some(c.initial), None, Some(c.minimum), Some(c.decay)))
         == Some((Dynamic(c), Value(c, 0)))
  {
    ValueStartsAtInitial(c, 0);
  }

  /** A patch: a field that is present may still be null. */
  datatype Patch = Patch(
    mode: Option<Decay>,
    value: Option<Option<int>>,
    initial: Option<Option<int>>,
    minimum: Option<Option<int>>,
    decay: Option<Option<int>>)

  /** The scoring part of `update`, on the stored scoring and value; the type cannot change. */
  function Amend(scoring: Scoring, stored: int, p: Patch): Option<(Scoring, int)> {
    match scoring
    case Fixed(_) =>
      if p.mode.GetOr(Static) != Static || p.initial.Some? || p.minimum.Some? || p.decay.Some? then None
      else
        var value := p.value.GetOr(Some(stored));
        if value.None? || value.value < 0 then None else Some((Fixed(value.value), value.value))
    case Dynamic(c) =>
      var mode := p.mode.GetOr(c.mode);
      var initial, minimum, decay := p.initial.GetOr(Some(c.initial)), p.minimum.GetOr(Some(c.minimum)),
          p.decay.GetOr(Some(c.decay));
      if mode.Static? || initial.None? || minimum.None? || decay.None? then None
      else if initial.value < 0 || minimum.value < 0 || minimum.value > initial.value || decay.value <= 0 then None
      else if p.value.Some? && p.value.value.Some? && p.value.value != initial then None
      else Some((Dynamic(Curve(initial.value, minimum.value, decay.value, mode)), initial.value))
  }

  predicate TypedPatch(p: Patch) {
    InI32(p.value.GetOr(None)) && InI32(p.initial.GetOr(None)) && InI32(p.minimum.GetOr(None))
        && InI32(p.decay.GetOr(None))
  }

  /** An admitted patch keeps the curve sound; a patch that changes nothing is admitted. */
  lemma AmendmentIsSound(c: Curve, stored: int, p: Patch)
    requires Sound(c) && TypedPatch(p)
    ensures Amend(Dynamic(c), stored, p).Some? ==>
              var (scoring, value) := Amend(Dynamic(c), stored, p).value;
              scoring.Dynamic? && Sound(scoring.curve) && value == Value(scoring.curve, 0)
    ensures Amend(Dynamic(c), stored, Patch(None, None, None, None, None)) == Some((Dynamic(c), c.initial))
  {
    var amended := Amend(Dynamic(c), stored, p);
    if amended.Some? { ValueStartsAtInitial(amended.value.0.curve, 0); }
  }

  /** What a field becomes: what the patch says, or what it was; nothing when the patch says null. */
  function Patched(field: Option<Option<int>>, stored: int): Option<int> {
    if field.Some? then field.value else Some(stored)
  }

  /** Exactly what an update admits of a curve, and that it takes each field the patch names and no other: none may be
      null, the result is sound, and a value that is given is the initial score. */
  lemma AmendedExactly(c: Curve, stored: int, p: Patch)
    requires Sound(c)
    ensures var initial, minimum, decay :=
              Patched(p.initial, c.initial), Patched(p.minimum, c.minimum), Patched(p.decay, c.decay);
            var mode := if p.mode.Some? then p.mode.value else c.mode;
            Amend(Dynamic(c), stored, p) ==
              if !mode.Static? && initial.Some? && minimum.Some? && decay.Some?
                 && 0 <= minimum.value <= initial.value && 0 < decay.value
                 && (p.value.Some? && p.value.value.Some? ==> p.value.value.value == initial.value)
              then Some((Dynamic(Curve(initial.value, minimum.value, decay.value, mode)), initial.value))
              else None
  {
  }

  /** ... and of a fixed value: nothing but a value that is not negative. */
  lemma FixedAmendedExactly(v: int, stored: int, p: Patch)
    ensures var value := Patched(p.value, stored);
            Amend(Fixed(v), stored, p) ==
              if (p.mode.Some? ==> p.mode.value.Static?) && p.initial.None? && p.minimum.None? && p.decay.None?
                 && value.Some? && value.value >= 0
              then Some((Fixed(value.value), value.value)) else None
  {
  }

  // ------------------------------------------------------------------ a challenge over its life

  class Challenge {
    var scoring: Scoring
    var value: int

    /** Between edits of its submissions the stored value lies on the curve; it always lies within it. */
    ghost predicate Valid() reads this {
      match scoring
      case Fixed(v) => value == v >= 0
      case Dynamic(curve) => Sound(curve) && curve.minimum <= value <= curve.initial
    }

    constructor (r: ScoringRequest)
      requires Typed(r) && Admit(r).Some?
      ensures Valid() && (scoring, value) == Admit(r).value
    {
      AdmissionIsSound(r);
      scoring, value := Admit(r).value.0, Admit(r).value.1;
      new;
      if scoring.Dynamic? { ValueStaysInRange(scoring.curve, 0); }
    }

    /** `recalculate_dynamic_value`, after a solve or an edit of the challenge. */
    method Recalculate(solveCount: nat)
      requires Valid()
      modifies this`value
      ensures Valid()
      ensures scoring.Fixed? ==> value == old(value)
      ensures scoring.Dynamic? ==> value == Value(scoring.curve, solveCount)
    {
      if scoring.Fixed? { return; }
      var c := scoring.curve;
      var calculated := Calculated(c, solveCount);
      value := Max(AsI32(Ceil(calculated)), c.minimum);
      ValueStaysInRange(c, solveCount);
    }

    /** `update`: a refused patch changes nothing, and an admitted one leaves the value on its curve. */
    method Update(p: Patch, solveCount: nat) returns (ok: bool)
      requires Valid() && TypedPatch(p)
      modifies this
      ensures Valid() && ok == Amend(old(scoring), old(value), p).Some?
      ensures !ok ==> scoring == old(scoring) && value == old(value)
      ensures ok ==> scoring == Amend(old(scoring), old(value), p).value.0
      ensures ok && scoring.Dynamic? ==> value == Value(scoring.curve, solveCount)
    {
      var amended := Amend(scoring, value, p);
      if amended.None? { return false; }
      if scoring.Dynamic? {
        AmendmentIsSound(scoring.curve, value, p);
        ValueStaysInRange(amended.value.0.curve, 0);
      }
      scoring, value := amended.value.0, amended.value.1;
      Recalculate(solveCount);
      return true;
    }
  }
}
