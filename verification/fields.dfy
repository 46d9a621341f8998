/**
 This module models the composable scalar-field algebra of the terrain
 generator (the `IBuilder` interface). A field is a total function from an
 integer block coordinate to a real "density"; every combinator returns a new
 field that closes over its operands and never changes them.

 Values are Dafny `real`s rather than IEEE doubles, so rounding, infinities and
 NaN are not part of the model (see `Quot`).
 */
module Fields {

  /** A 3D scalar field; applying it is `IBuilder.get(x, y, z)`. */
  type Field = (int, int, int) -> real

  /** A test on a field value, used by the conditional combinators. */
  type Predicate = real -> bool

  /** A scalar map applied to every value of a field. */
  type ScalarFunction = real -> real

  /* The four shared predicates. */
  const Negative: Predicate := v => v < 0.0
  const Positive: Predicate := v => v > 0.0
  const NotNegative: Predicate := v => v >= 0.0
  const NotPositive: Predicate := v => v <= 0.0

  /** The field that has the value `c` everywhere. */
  function Constant(c: real): Field
  {
    (x, y, z) => c
  }

  /** Two fields agree at every coordinate. */
  ghost predicate SameField(f: Field, g: Field)
  {
    forall x, y, z :: f(x, y, z) == g(x, y, z)
  }

  /** Real division standing in for double division. Where the divisor is zero
      the double result would be an infinity or NaN; the model yields 0.0 there
      and no contract says anything about such points. */
  function Quot(n: real, d: real): (r: real)
    ensures d != 0.0 ==> r * d == n
  {
    if d == 0.0 then 0.0 else n / d
  }

  /** `MathHelper.clamp` of a single value, as a min/max clamp. */
  function ClampValue(v: real, min: real, max: real): (r: real)
    ensures r == v || r == min || r == max
    ensures min <= max ==> min <= r <= max
    ensures min <= v <= max ==> r == v
    ensures v < min ==> r == min
    ensures v >= min && v > max ==> r == max
  {
    if v < min then min else if v > max then max else v
  }

  /** Linear interpolation with an unclamped selector (`MathUtil.lerp`). */
  function LerpValue(t: real, low: real, high: real): real
  {
    low + t * (high - low)
  }

  // ---------------------------------------------------------------------------
  // Unconditional combinators
  // ---------------------------------------------------------------------------

  function Apply(a: Field, func: ScalarFunction): Field
  {
    (x, y, z) => func(a(x, y, z))
  }

  function Add(a: Field, b: Field): Field
  {
    (x, y, z) => a(x, y, z) + b(x, y, z)
  }

  function AddConst(a: Field, c: real): Field
  {
    Apply(a, v => v + c)
  }

  function Sub(a: Field, b: Field): Field
  {
    (x, y, z) => a(x, y, z) - b(x, y, z)
  }

  function SubConst(a: Field, c: real): Field
  {
    Apply(a, v => v - c)
  }

  function Mul(a: Field, b: Field): Field
  {
    (x, y, z) => a(x, y, z) * b(x, y, z)
  }

  function MulConst(a: Field, c: real): Field
  {
    Apply(a, v => v * c)
  }

  function Div(a: Field, b: Field): Field
  {
    (x, y, z) => Quot(a(x, y, z), b(x, y, z))
  }

  function DivConst(a: Field, c: real): Field
  {
    Apply(a, v => Quot(v, c))
  }

  function Clamp(a: Field, min: real, max: real): Field
  {
    Apply(a, v => ClampValue(v, min, max))
  }

  /** The receiver is the selector: 0 picks `low`, 1 picks `high`. */
  function Lerp(selector: Field, low: Field, high: Field): Field
  {
    (x, y, z) => LerpValue(selector(x, y, z), low(x, y, z), high(x, y, z))
  }

  // ---------------------------------------------------------------------------
  // Conditional combinators: the predicate is tested on the receiver's value
  // ---------------------------------------------------------------------------

  function ApplyIf(a: Field, pred: Predicate, func: ScalarFunction): Field
  {
    (x, y, z) => var v := a(x, y, z); if pred(v) then func(v) else v
  }

  function AddIf(a: Field, pred: Predicate, b: Field): Field
  {
    (x, y, z) => var v := a(x, y, z); if pred(v) then v + b(x, y, z) else v
  }

  function AddIfConst(a: Field, pred: Predicate, c: real): Field
  {
    ApplyIf(a, pred, v => v + c)
  }

  function SubIf(a: Field, pred: Predicate, b: Field): Field
  {
    (x, y, z) => var v := a(x, y, z); if pred(v) then v - b(x, y, z) else v
  }

  function SubIfConst(a: Field, pred: Predicate, c: real): Field
  {
    ApplyIf(a, pred, v => v - c)
  }

  function MulIf(a: Field, pred: Predicate, b: Field): Field
  {
    (x, y, z) => var v := a(x, y, z); if pred(v) then v * b(x, y, z) else v
  }

  function MulIfConst(a: Field, pred: Predicate, c: real): Field
  {
    ApplyIf(a, pred, v => v * c)
  }

  function DivIf(a: Field, pred: Predicate, b: Field): Field
  {
    (x, y, z) => var v := a(x, y, z); if pred(v) then Quot(v, b(x, y, z)) else v
  }

  function DivIfConst(a: Field, pred: Predicate, c: real): Field
  {
    ApplyIf(a, pred, v => Quot(v, c))
  }

  function ClampIf(a: Field, pred: Predicate, min: real, max: real): Field
  {
    Apply(a, v => if pred(v) then ClampValue(v, min, max) else v)
  }

  // ---------------------------------------------------------------------------
  // Properties
  // ---------------------------------------------------------------------------

  /** Every value is either negative or not negative, and either positive or
      not positive, never both. */
  lemma PredicatesComplementary(v: real)
    ensures Negative(v) != NotNegative(v)
    ensures Positive(v) != NotPositive(v)
    ensures Negative(v) ==> NotPositive(v)
    ensures Positive(v) ==> NotNegative(v)
  {
  }

  /** Field arithmetic evaluates both operands at the same coordinate and
      combines the two values; a quotient is the ordinary one wherever the
      divisor is nonzero. */
  lemma FieldArithmeticPointwise(a: Field, b: Field, x: int, y: int, z: int)
    ensures Add(a, b)(x, y, z) == a(x, y, z) + b(x, y, z)
    ensures Sub(a, b)(x, y, z) == a(x, y, z) - b(x, y, z)
    ensures Mul(a, b)(x, y, z) == a(x, y, z) * b(x, y, z)
    ensures b(x, y, z) != 0.0 ==> Div(a, b)(x, y, z) * b(x, y, z) == a(x, y, z)
  {
  }

  /** The constant forms, built through `Apply`, agree with the field forms
      applied to a constant field: the result at a point is `a op c`. */
  lemma ConstFormsAgreeWithFieldForms(a: Field, c: real)
    ensures SameField(AddConst(a, c), Add(a, Constant(c)))
    ensures SameField(SubConst(a, c), Sub(a, Constant(c)))
    ensures SameField(MulConst(a, c), Mul(a, Constant(c)))
    ensures SameField(DivConst(a, c), Div(a, Constant(c)))
  {
  }

  /** Subtracting a field undoes adding it, and dividing by a nowhere-zero
      field undoes multiplying by it. */
  lemma InverseOperations(a: Field, b: Field, x: int, y: int, z: int)
    ensures Sub(Add(a, b), b)(x, y, z) == a(x, y, z)
    ensures b(x, y, z) != 0.0 ==> Div(Mul(a, b), b)(x, y, z) == a(x, y, z)
  {
  }

  /** Where the predicate rejects the receiver's value, every conditional
      combinator returns that value untouched, whatever the operand is. */
  lemma ConditionalFrame(a: Field, pred: Predicate, b: Field, c: real,
                         func: ScalarFunction, min: real, max: real,
                         x: int, y: int, z: int)
    requires !pred(a(x, y, z))
    ensures AddIf(a, pred, b)(x, y, z) == a(x, y, z)
    ensures SubIf(a, pred, b)(x, y, z) == a(x, y, z)
    ensures MulIf(a, pred, b)(x, y, z) == a(x, y, z)
    ensures DivIf(a, pred, b)(x, y, z) == a(x, y, z)
    ensures AddIfConst(a, pred, c)(x, y, z) == a(x, y, z)
    ensures SubIfConst(a, pred, c)(x, y, z) == a(x, y, z)
    ensures MulIfConst(a, pred, c)(x, y, z) == a(x, y, z)
    ensures DivIfConst(a, pred, c)(x, y, z) == a(x, y, z)
    ensures ApplyIf(a, pred, func)(x, y, z) == a(x, y, z)
    ensures ClampIf(a, pred, min, max)(x, y, z) == a(x, y, z)
  {
  }

  /** Where the predicate accepts the receiver's value, each conditional
      combinator agrees with its unconditional counterpart: the operation is
      applied exactly once. */
  lemma ConditionalAppliesOnce(a: Field, pred: Predicate, b: Field, c: real,
                               func: ScalarFunction, min: real, max: real,
                               x: int, y: int, z: int)
    requires pred(a(x, y, z))
    ensures AddIf(a, pred, b)(x, y, z) == Add(a, b)(x, y, z)
    ensures SubIf(a, pred, b)(x, y, z) == Sub(a, b)(x, y, z)
    ensures MulIf(a, pred, b)(x, y, z) == Mul(a, b)(x, y, z)
    ensures DivIf(a, pred, b)(x, y, z) == Div(a, b)(x, y, z)
    ensures AddIfConst(a, pred, c)(x, y, z) == AddConst(a, c)(x, y, z)
    ensures SubIfConst(a, pred, c)(x, y, z) == SubConst(a, c)(x, y, z)
    ensures MulIfConst(a, pred, c)(x, y, z) == MulConst(a, c)(x, y, z)
    ensures DivIfConst(a, pred, c)(x, y, z) == DivConst(a, c)(x, y, z)
    ensures ApplyIf(a, pred, func)(x, y, z) == Apply(a, func)(x, y, z)
    ensures ClampIf(a, pred, min, max)(x, y, z) == Clamp(a, min, max)(x, y, z)
  {
  }

  /** The constant conditional forms, built through `ApplyIf`, agree with the
      field conditional forms applied to a constant field. */
  lemma ConditionalConstFormsAgree(a: Field, pred: Predicate, c: real)
    ensures SameField(AddIfConst(a, pred, c), AddIf(a, pred, Constant(c)))
    ensures SameField(SubIfConst(a, pred, c), SubIf(a, pred, Constant(c)))
    ensures SameField(MulIfConst(a, pred, c), MulIf(a, pred, Constant(c)))
    ensures SameField(DivIfConst(a, pred, c), DivIf(a, pred, Constant(c)))
  {
  }

  /** With `min <= max` a clamped field stays inside `[min, max]`, values
      already in range pass through, and clamping twice changes nothing. */
  lemma ClampRange(a: Field, min: real, max: real, x: int, y: int, z: int)
    requires min <= max
    ensures min <= Clamp(a, min, max)(x, y, z) <= max
    ensures min <= a(x, y, z) <= max ==> Clamp(a, min, max)(x, y, z) == a(x, y, z)
    ensures Clamp(Clamp(a, min, max), min, max)(x, y, z) == Clamp(a, min, max)(x, y, z)
  {
  }

  /** `clampIf` clamps exactly the values its predicate accepts. */
  lemma ClampIfSelective(a: Field, pred: Predicate, min: real, max: real,
                         x: int, y: int, z: int)
    requires min <= max
    ensures pred(a(x, y, z)) ==> min <= ClampIf(a, pred, min, max)(x, y, z) <= max
    ensures !pred(a(x, y, z)) ==> ClampIf(a, pred, min, max)(x, y, z) == a(x, y, z)
  {
  }

  /** Selector 0 gives `low`, selector 1 gives `high`; in between the result
      lies between the two, and outside `[0, 1]` it extrapolates past them,
      whichever of the two endpoints is the larger. */
  lemma LerpEndpointsAndExtrapolation(sel: Field, low: Field, high: Field,
                                      x: int, y: int, z: int)
    ensures sel(x, y, z) == 0.0 ==> Lerp(sel, low, high)(x, y, z) == low(x, y, z)
    ensures sel(x, y, z) == 1.0 ==> Lerp(sel, low, high)(x, y, z) == high(x, y, z)
    ensures 0.0 <= sel(x, y, z) <= 1.0 && low(x, y, z) <= high(x, y, z) ==>
              low(x, y, z) <= Lerp(sel, low, high)(x, y, z) <= high(x, y, z)
    ensures sel(x, y, z) > 1.0 && low(x, y, z) < high(x, y, z) ==>
              Lerp(sel, low, high)(x, y, z) > high(x, y, z)
    ensures sel(x, y, z) < 0.0 && low(x, y, z) < high(x, y, z) ==>
              Lerp(sel, low, high)(x, y, z) < low(x, y, z)
    ensures 0.0 <= sel(x, y, z) <= 1.0 && high(x, y, z) <= low(x, y, z) ==>
              high(x, y, z) <= Lerp(sel, low, high)(x, y, z) <= low(x, y, z)
    ensures sel(x, y, z) > 1.0 && high(x, y, z) < low(x, y, z) ==>
              Lerp(sel, low, high)(x, y, z) < high(x, y, z)
    ensures sel(x, y, z) < 0.0 && high(x, y, z) < low(x, y, z) ==>
              Lerp(sel, low, high)(x, y, z) > low(x, y, z)
  {
    var t, l, h := sel(x, y, z), low(x, y, z), high(x, y, z);
    LerpValueShape(t, l, h);
  }

  /** The scalar interpolation stays between its endpoints for `t` in `[0, 1]`
      and overshoots them outside that range, in both endpoint orders. */
  lemma LerpValueShape(t: real, l: real, h: real)
    ensures 0.0 <= t <= 1.0 && l <= h ==> l <= LerpValue(t, l, h) <= h
    ensures t > 1.0 && l < h ==> LerpValue(t, l, h) > h
    ensures t < 0.0 && l < h ==> LerpValue(t, l, h) < l
    ensures 0.0 <= t <= 1.0 && h <= l ==> h <= LerpValue(t, l, h) <= l
    ensures t > 1.0 && h < l ==> LerpValue(t, l, h) < h
    ensures t < 0.0 && h < l ==> LerpValue(t, l, h) > l
  {
    var d := h - l;
    assert LerpValue(t, l, h) == l + t * d;
    if 0.0 <= t <= 1.0 && 0.0 <= d {
      assert 0.0 <= t * d <= d;
    }
    if t > 1.0 && 0.0 < d {
      assert t * d > d;
    }
    if t < 0.0 && 0.0 < d {
      assert t * d < 0.0;
    }
    if 0.0 <= t <= 1.0 && d <= 0.0 {
      assert d <= t * d <= 0.0;
    }
    if t > 1.0 && d < 0.0 {
      assert t * d < d;
    }
    if t < 0.0 && d < 0.0 {
      assert t * d > 0.0;
    }
  }
}
