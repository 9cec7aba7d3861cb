/**
 * SmoothFunctionInterface: the contract of a function that maps points of
 * R^d to values of shape r x rC, evaluated in global coordinates.
 *
 * A C++ object of a class derived from the interface is modelled by the
 * record `SmoothFunction` of its full-value procedures, `type()` and
 * `name()`; `InterfaceDefaults` builds the record with the interface's own
 * defaults, and a derived class replaces some of them. The single-component
 * and dynamic overloads are the interface's default bodies, written here as
 * functions and methods over that record. The range field is the type
 * parameter `R`.
 */
module SmoothFunctions {
  import opened Common

  /** The template arguments d (domain dimension), r (range rows) and rC (range columns). */
  datatype Shape = Shape(d: nat, r: nat, rC: nat) {
    predicate Valid() {
      d >= 1 && r >= 1 && rC >= 1
    }
  }

  /** DomainType: a point of R^d (FieldVector<double, d>); the model never computes with it. */
  type Domain = seq<real>

  /** The multi-index alpha of `derivative` (std::array<size_t, d>). */
  type MultiIndex = seq<nat>

  /**
   * RangeType: a vector of r entries when rC == 1, an r x rC matrix otherwise
   * (the two specialisations of single_evaluate_helper index it once and twice).
   */
  datatype Range<R> = Vector(entries: seq<R>) | Matrix(rows: seq<seq<R>>)

  /**
   * DerivativeRangeType: one length-d gradient per row when rC == 1, one per
   * (row, col) entry otherwise.
   */
  datatype DerivativeRange<R> =
    | RowGradients(gradients: seq<seq<R>>)
    | EntryGradients(grid: seq<seq<seq<R>>>)

  predicate RangeConforms<R>(s: Shape, v: Range<R>) {
    match v
    case Vector(e) => s.rC == 1 && |e| == s.r
    case Matrix(m) => s.rC > 1 && |m| == s.r && forall i :: 0 <= i < |m| ==> |m[i]| == s.rC
  }

  predicate DerivativeConforms<R>(s: Shape, v: DerivativeRange<R>) {
    match v
    case RowGradients(g) =>
      s.rC == 1 && |g| == s.r && forall i :: 0 <= i < |g| ==> |g[i]| == s.d
    case EntryGradients(g) =>
      && s.rC > 1 && |g| == s.r
      && forall i :: 0 <= i < |g| ==>
           |g[i]| == s.rC && forall j :: 0 <= j < |g[i]| ==> |g[i][j]| == s.d
  }

  /**
   * An object implementing the interface: its shape, its full-value
   * procedures, `type()` and `name()`. `order` is pure virtual in the
   * source; the others have the defaults given by `InterfaceDefaults`.
   */
  datatype SmoothFunction<R> = SmoothFunction(
    shape: Shape,
    order: Parameter -> Result<int>,
    evaluate: (Domain, Parameter) -> Result<Range<R>>,
    jacobian: (Domain, Parameter) -> Result<DerivativeRange<R>>,
    derivative: (MultiIndex, Domain, Parameter) -> Result<DerivativeRange<R>>,
    typeName: string,
    name: string)
  {
    /** What the C++ types guarantee statically: every returned value has the declared shape. */
    ghost predicate Valid() {
      && shape.Valid()
      && (forall x, mu :: evaluate(x, mu).Success? ==> RangeConforms(shape, evaluate(x, mu).value))
      && (forall x, mu :: jacobian(x, mu).Success? ==> DerivativeConforms(shape, jacobian(x, mu).value))
      && (forall alpha, x, mu ::
            derivative(alpha, x, mu).Success? ==> DerivativeConforms(shape, derivative(alpha, x, mu).value))
    }
  }

  /** static_id(): the identifier of the interface, which type() and name() also give by default. */
  function StaticId(): (id: string)
    ensures id == "dune.xt.functions.smooth"
  {
    "dune.xt.functions.smooth"
  }

  const EvaluateNotProvided := "This smooth function does not provide evaluations, override the 'evaluate' method!"
  const JacobianNotProvided := "This smooth function does not provide a jacobian, override the 'jacobian' method!"
  const DerivativeNotProvided :=
    "This smooth function does not provide arbitrary derivatives, override the 'derivative' method!"

  /**
   * The interface's own procedures: `evaluate`, `jacobian` and `derivative`
   * throw NotImplemented for every argument, and `type()`, `name()` and
   * `static_id()` all give "dune.xt.functions.smooth". Only `order` must be
   * supplied.
   */
  function InterfaceDefaults<R>(shape: Shape, order: Parameter -> Result<int>): (f: SmoothFunction<R>)
    ensures f.shape == shape && f.order == order
    ensures forall x, mu :: f.evaluate(x, mu) == Failure(NotImplemented(EvaluateNotProvided))
    ensures forall x, mu :: f.jacobian(x, mu) == Failure(NotImplemented(JacobianNotProvided))
    ensures forall alpha, x, mu :: f.derivative(alpha, x, mu) == Failure(NotImplemented(DerivativeNotProvided))
    ensures f.typeName == f.name == StaticId() == "dune.xt.functions.smooth"
    ensures shape.Valid() ==> f.Valid()
  {
    SmoothFunction(
      shape,
      order,
      (x: Domain, mu: Parameter) => Failure(NotImplemented(EvaluateNotProvided)),
      (x: Domain, mu: Parameter) => Failure(NotImplemented(JacobianNotProvided)),
      (alpha: MultiIndex, x: Domain, mu: Parameter) => Failure(NotImplemented(DerivativeNotProvided)),
      StaticId(),
      StaticId())
  }

  /** Component (row, col) lies outside an r x rC value. */
  predicate OutOfShape(s: Shape, row: nat, col: nat) {
    row >= s.r || col >= s.rC
  }

  /**
   * What the component accessors may touch without the check: the row must
   * exist, and so must the column unless rC == 1, where it is ignored.
   * Anything else is undefined behaviour once the check is compiled out.
   */
  predicate Addressable(s: Shape, row: nat, col: nat) {
    row < s.r && (s.rC == 1 || col < s.rC)
  }

  /**
   * assert_correct_dims; `checksEnabled` is false when
   * DUNE_XT_FUNCTIONS_DISABLE_CHECKS is defined.
   */
  function AssertCorrectDims(s: Shape, checksEnabled: bool, row: nat, col: nat, caller: string): (o: Outcome)
    ensures o.Fail? <==> checksEnabled && OutOfShape(s, row, col)
    ensures o.Fail? ==> o.error == ShapesDoNotMatch(caller, row, col)
  {
    if !checksEnabled then Pass
    else if row >= s.r || col >= s.rC then Fail(ShapesDoNotMatch(caller, row, col))
    else Pass
  }

  /** single_evaluate_helper: `val[row]` when rC == 1, `val[row][col]` otherwise. */
  function SingleEvaluateHelper<R>(s: Shape, val: Range<R>, row: nat, col: nat): (v: R)
    requires RangeConforms(s, val) && Addressable(s, row, col)
    ensures s.rC == 1 ==> val.Vector? && v == val.entries[row]
    ensures s.rC > 1 ==> val.Matrix? && v == val.rows[row][col]
  {
    if s.rC == 1 then val.entries[row] else val.rows[row][col]
  }

  /**
   * evaluate(x, row, col, mu): the shape check runs first, so an
   * out-of-shape index is reported even by a function without `evaluate`;
   * otherwise the full value is computed and entry (row, col) projected out.
   */
  function SingleEvaluate<R>(f: SmoothFunction<R>, checksEnabled: bool, x: Domain, row: nat, col: nat := 0,
                             mu: Parameter := NoParameter): (r: Result<R>)
    requires f.Valid()
    requires checksEnabled || Addressable(f.shape, row, col)
    ensures checksEnabled && OutOfShape(f.shape, row, col) ==> r == Failure(ShapesDoNotMatch("evaluate", row, col))
    ensures !(checksEnabled && OutOfShape(f.shape, row, col)) ==>
              (r.Success? <==> f.evaluate(x, mu).Success?) &&
              (r.Failure? ==> r.error == f.evaluate(x, mu).error)
    ensures r.Success? && f.shape.rC == 1 ==> r.value == f.evaluate(x, mu).value.entries[row]
    ensures r.Success? && f.shape.rC > 1 ==> r.value == f.evaluate(x, mu).value.rows[row][col]
  {
    var check := AssertCorrectDims(f.shape, checksEnabled, row, col, "evaluate");
    if check.Fail? then Failure(check.error)
    else
      var full := f.evaluate(x, mu);
      if full.Failure? then Failure(full.error)
      else Success(SingleEvaluateHelper(f.shape, full.value, row, col))
  }

  /**
   * single_derivative_helper: the gradient of entry (row, col). For rC == 1
   * it is row `row` of the derivative; otherwise a length-d vector, starting
   * zero-initialised, is filled one domain axis at a time.
   */
  method SingleDerivativeHelper<R(0)>(s: Shape, val: DerivativeRange<R>, row: nat, col: nat) returns (ret: seq<R>)
    requires DerivativeConforms(s, val) && Addressable(s, row, col)
    ensures s.rC == 1 ==> ret == val.gradients[row]
    ensures s.rC > 1 ==> |ret| == s.d && forall dd :: 0 <= dd < s.d ==> ret[dd] == val.grid[row][col][dd]
  {
    if s.rC == 1 {
      ret := val.gradients[row];
    } else {
      var single := new R[s.d];
      for dd := 0 to s.d
        invariant forall k :: 0 <= k < dd ==> single[k] == val.grid[row][col][k]
      {
        single[dd] := val.grid[row][col][dd];
      }
      ret := single[..];
    }
  }

  /** jacobian(x, row, col, mu): shape check, full jacobian, then the gradient of entry (row, col). */
  method SingleJacobian<R(0)>(f: SmoothFunction<R>, checksEnabled: bool, x: Domain, row: nat, col: nat := 0,
                              mu: Parameter := NoParameter) returns (r: Result<seq<R>>)
    requires f.Valid()
    requires checksEnabled || Addressable(f.shape, row, col)
    ensures checksEnabled && OutOfShape(f.shape, row, col) ==> r == Failure(ShapesDoNotMatch("jacobian", row, col))
    ensures !(checksEnabled && OutOfShape(f.shape, row, col)) ==>
              (r.Success? <==> f.jacobian(x, mu).Success?) &&
              (r.Failure? ==> r.error == f.jacobian(x, mu).error)
    ensures r.Success? && f.shape.rC == 1 ==> r.value == f.jacobian(x, mu).value.gradients[row]
    ensures r.Success? && f.shape.rC > 1 ==>
              |r.value| == f.shape.d &&
              forall dd :: 0 <= dd < f.shape.d ==> r.value[dd] == f.jacobian(x, mu).value.grid[row][col][dd]
  {
    var check := AssertCorrectDims(f.shape, checksEnabled, row, col, "jacobian");
    if check.Fail? {
      return Failure(check.error);
    }
    var full := f.jacobian(x, mu);
    if full.Failure? {
      return Failure(full.error);
    }
    var single := SingleDerivativeHelper(f.shape, full.value, row, col);
    r := Success(single);
  }

  /** derivative(alpha, x, row, col, mu): as SingleJacobian, for the partial derivative alpha. */
  method SingleDerivative<R(0)>(f: SmoothFunction<R>, alpha: MultiIndex, checksEnabled: bool, x: Domain,
                                row: nat, col: nat := 0, mu: Parameter := NoParameter)
      returns (r: Result<seq<R>>)
    requires f.Valid()
    requires checksEnabled || Addressable(f.shape, row, col)
    ensures checksEnabled && OutOfShape(f.shape, row, col) ==> r == Failure(ShapesDoNotMatch("derivative", row, col))
    ensures !(checksEnabled && OutOfShape(f.shape, row, col)) ==>
              (r.Success? <==> f.derivative(alpha, x, mu).Success?) &&
              (r.Failure? ==> r.error == f.derivative(alpha, x, mu).error)
    ensures r.Success? && f.shape.rC == 1 ==> r.value == f.derivative(alpha, x, mu).value.gradients[row]
    ensures r.Success? && f.shape.rC > 1 ==>
              |r.value| == f.shape.d &&
              forall dd :: 0 <= dd < f.shape.d ==> r.value[dd] == f.derivative(alpha, x, mu).value.grid[row][col][dd]
  {
    var check := AssertCorrectDims(f.shape, checksEnabled, row, col, "derivative");
    if check.Fail? {
      return Failure(check.error);
    }
    var full := f.derivative(alpha, x, mu);
    if full.Failure? {
      return Failure(full.error);
    }
    var single := SingleDerivativeHelper(f.shape, full.value, row, col);
    r := Success(single);
  }

  /**
   * With the checks compiled out and rC == 1, the column argument of the
   * component accessor makes no difference.
   */
  lemma ColumnIgnoredWithoutChecks<R>(f: SmoothFunction<R>, x: Domain, row: nat, col1: nat, col2: nat, mu: Parameter)
    requires f.Valid() && f.shape.rC == 1 && row < f.shape.r
    ensures SingleEvaluate(f, false, x, row, col1, mu) == SingleEvaluate(f, false, x, row, col2, mu)
  {
  }

  /**
   * RangeTypeSelector / DerivativeRangeTypeSelector as far as the dynamic
   * overloads use them: `ensure_size` resizes a dynamic container and
   * `convert` writes a static value into it. Their definitions are not part
   * of this model.
   */
  datatype Selector<!S, !Dyn> = Selector(ensureSize: Dyn -> Dyn, convert: (S, Dyn) -> Dyn)

  /** The caller's DynamicRangeType / DynamicDerivativeRangeType, passed by reference. */
  class DynamicBuffer<Dyn> {
    var value: Dyn

    constructor (initial: Dyn)
      ensures value == initial
    {
      value := initial;
    }
  }

  /**
   * evaluate(x, result, mu): resize `result`, then overwrite it with the full
   * value. The point is handed on unchanged. If the full evaluation throws,
   * `result` is left resized.
   */
  method EvaluateDynamic<R, Dyn>(f: SmoothFunction<R>, selector: Selector<Range<R>, Dyn>, x: Domain,
                                 result: DynamicBuffer<Dyn>, mu: Parameter := NoParameter) returns (o: Outcome)
    modifies result
    ensures o.Pass? <==> f.evaluate(x, mu).Success?
    ensures o.Fail? ==> o.error == f.evaluate(x, mu).error && result.value == selector.ensureSize(old(result.value))
    ensures o.Pass? ==> result.value == selector.convert(f.evaluate(x, mu).value, selector.ensureSize(old(result.value)))
  {
    result.value := selector.ensureSize(result.value);
    var full := f.evaluate(x, mu);
    if full.Failure? {
      return Fail(full.error);
    }
    result.value := selector.convert(full.value, result.value);
    o := Pass;
  }

  /** jacobian(x, result, mu): as EvaluateDynamic, for the jacobian. */
  method JacobianDynamic<R, Dyn>(f: SmoothFunction<R>, selector: Selector<DerivativeRange<R>, Dyn>, x: Domain,
                                 result: DynamicBuffer<Dyn>, mu: Parameter := NoParameter) returns (o: Outcome)
    modifies result
    ensures o.Pass? <==> f.jacobian(x, mu).Success?
    ensures o.Fail? ==> o.error == f.jacobian(x, mu).error && result.value == selector.ensureSize(old(result.value))
    ensures o.Pass? ==> result.value == selector.convert(f.jacobian(x, mu).value, selector.ensureSize(old(result.value)))
  {
    result.value := selector.ensureSize(result.value);
    var full := f.jacobian(x, mu);
    if full.Failure? {
      return Fail(full.error);
    }
    result.value := selector.convert(full.value, result.value);
    o := Pass;
  }

  /** derivative(alpha, x, result, mu): as EvaluateDynamic, for the partial derivative alpha. */
  method DerivativeDynamic<R, Dyn>(f: SmoothFunction<R>, selector: Selector<DerivativeRange<R>, Dyn>,
                                   alpha: MultiIndex, x: Domain, result: DynamicBuffer<Dyn>,
                                   mu: Parameter := NoParameter) returns (o: Outcome)
    modifies result
    ensures o.Pass? <==> f.derivative(alpha, x, mu).Success?
    ensures o.Fail? ==> o.error == f.derivative(alpha, x, mu).error && result.value == selector.ensureSize(old(result.value))
    ensures o.Pass? ==>
              result.value == selector.convert(f.derivative(alpha, x, mu).value, selector.ensureSize(old(result.value)))
  {
    result.value := selector.ensureSize(result.value);
    var full := f.derivative(alpha, x, mu);
    if full.Failure? {
      return Fail(full.error);
    }
    result.value := selector.convert(full.value, result.value);
    o := Pass;
  }

  /**
   * A smooth function object. Its identity (the address `this`) keys the
   * wrapper map; `impl` is what it computes, which the map never looks at.
   */
  class FunctionInstance<R> {
    const impl: SmoothFunction<R>

    constructor (f: SmoothFunction<R>)
      ensures impl == f
    {
      impl := f;
    }
  }

  /**
   * SmoothFunctionAsLocalizableWrapper, built from `*this`. Only its
   * reference to the wrapped function is modelled.
   */
  class LocalizableWrapper<R> {
    const wrapped: FunctionInstance<R>

    constructor (f: FunctionInstance<R>)
      ensures wrapped == f
    {
      wrapped := f;
    }
  }

  /**
   * The find-then-insert step of as_localizable on a map: the entry for `k`
   * is added with `v` only if none is present.
   */
  function FindOrInsert<K(==), V>(m: map<K, V>, k: K, v: V): (m': map<K, V>)
    ensures m'.Keys == m.Keys + {k}
    ensures forall j :: j in m ==> m'[j] == m[j]
    ensures k !in m ==> m'[k] == v
  {
    if k in m then m else m[k := v]
  }

  /** A second find-or-insert for the same key changes nothing, whatever it would insert. */
  lemma FindOrInsertIdempotent<K, V>(m: map<K, V>, k: K, v: V, v': V)
    ensures FindOrInsert(FindOrInsert(m, k, v), k, v') == FindOrInsert(m, k, v)
  {
  }

  /** Each find-or-insert grows the map by exactly one entry when the key is new, and by none otherwise. */
  lemma FindOrInsertSize<K, V>(m: map<K, V>, k: K, v: V)
    ensures k in m ==> |FindOrInsert(m, k, v)| == |m|
    ensures k !in m ==> |FindOrInsert(m, k, v)| == |m| + 1
  {
  }

  /**
   * The function-local static map of as_localizable<E>, a member template
   * of the class template SmoothFunctionInterface<d, r, rC, R>: one object
   * of this class per interface instantiation and element type E.
   */
  class WrapperCache<R> {
    var wrappers: map<FunctionInstance<R>, LocalizableWrapper<R>>

    /** Every stored wrapper wraps the instance it is stored under. */
    ghost predicate Valid()
      reads this
    {
      forall f :: f in wrappers ==> wrappers[f].wrapped == f
    }

    constructor ()
      ensures Valid() && wrappers == map[]
    {
      wrappers := map[];
    }

    /**
     * as_localizable<E>(): find the wrapper of `f`, creating and storing it
     * on the first call for this instance, and return the stored one.
     */
    method AsLocalizable(f: FunctionInstance<R>) returns (w: LocalizableWrapper<R>)
      requires Valid()
      modifies this
      ensures Valid()
      ensures w.wrapped == f && f in wrappers && wrappers[f] == w
      ensures f in old(wrappers) ==> w == old(wrappers)[f]
      ensures f !in old(wrappers) ==> fresh(w)
      ensures wrappers == FindOrInsert(old(wrappers), f, w)
    {
      if f !in wrappers {
        var made := new LocalizableWrapper(f);
        wrappers := wrappers[f := made];
      }
      w := wrappers[f];
    }
  }

  /**
   * The reuse property of as_localizable, stated for two consecutive calls:
   * both calls for the same instance hand back one and the same wrapper, and
   * together they add at most one entry.
   */
  method AsLocalizableTwice<R>(cache: WrapperCache<R>, f: FunctionInstance<R>)
      returns (first: LocalizableWrapper<R>, second: LocalizableWrapper<R>)
    requires cache.Valid()
    modifies cache
    ensures cache.Valid() && first == second
    ensures |cache.wrappers| <= |old(cache.wrappers)| + 1
  {
    first := cache.AsLocalizable(f);
    FindOrInsertSize(old(cache.wrappers), f, first);
    second := cache.AsLocalizable(f);
    FindOrInsertSize(cache.wrappers, f, second);
  }
}
