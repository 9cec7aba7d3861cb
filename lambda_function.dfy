/**
 * SmoothLambdaFunction: a smooth function whose behaviour is four procedures
 * handed over on construction (order, evaluate, jacobian, derivative),
 * together with a parameter type and a name. All of it is fixed at
 * construction, so the object is a value. A procedure that is not handed
 * over throws NotImplemented; every operation first passes its parameter
 * through parse_and_check.
 */
module SmoothLambdaFunctions {
  import opened Common
  import opened SmoothFunctions

  type OrderLambda = Parameter -> Result<int>
  type EvaluateLambda<R> = (Domain, Parameter) -> Result<Range<R>>
  type JacobianLambda<R> = (Domain, Parameter) -> Result<DerivativeRange<R>>
  type DerivativeLambda<R> = (MultiIndex, Domain, Parameter) -> Result<DerivativeRange<R>>

  datatype SmoothLambdaFunction<R> = SmoothLambdaFunction(
    shape: Shape,
    orderLambda: OrderLambda,
    evaluateLambda: EvaluateLambda<R>,
    jacobianLambda: JacobianLambda<R>,
    derivativeLambda: DerivativeLambda<R>,
    parameterType: ParameterType,
    name: string)

  /** What the procedures' C++ types guarantee: every value they return has the declared shape. */
  ghost predicate Valid<R>(f: SmoothLambdaFunction<R>) {
    && f.shape.Valid()
    && (forall x, mu :: f.evaluateLambda(x, mu).Success? ==> RangeConforms(f.shape, f.evaluateLambda(x, mu).value))
    && (forall x, mu ::
          f.jacobianLambda(x, mu).Success? ==> DerivativeConforms(f.shape, f.jacobianLambda(x, mu).value))
    && (forall alpha, x, mu ::
          f.derivativeLambda(alpha, x, mu).Success? ==>
            DerivativeConforms(f.shape, f.derivativeLambda(alpha, x, mu).value))
  }

  const LambdaTypeName := "smooth_lambda_function"

  const EvaluateLambdaMissing :=
    "This SmoothLambdaFunction does not provide evaluations, provide an evaluate_lambda on construction!"
  const JacobianLambdaMissing :=
    "This SmoothLambdaFunction does not provide jacobian evaluations, provide a jacobian_lambda on construction!"
  const DerivativeLambdaMissing :=
    "This SmoothLambdaFunction does not provide derivative evaluations, provide a derivative_lambda on construction!"

  /** default_evaluate_lambda: throws NotImplemented whatever it is given. */
  function DefaultEvaluateLambda<R>(): (l: EvaluateLambda<R>)
    ensures forall x, mu :: l(x, mu) == Failure(NotImplemented(EvaluateLambdaMissing))
  {
    (x: Domain, mu: Parameter) => Failure(NotImplemented(EvaluateLambdaMissing))
  }

  /** default_jacobian_lambda: throws NotImplemented whatever it is given. */
  function DefaultJacobianLambda<R>(): (l: JacobianLambda<R>)
    ensures forall x, mu :: l(x, mu) == Failure(NotImplemented(JacobianLambdaMissing))
  {
    (x: Domain, mu: Parameter) => Failure(NotImplemented(JacobianLambdaMissing))
  }

  /** default_derivative_lambda: throws NotImplemented whatever it is given. */
  function DefaultDerivativeLambda<R>(): (l: DerivativeLambda<R>)
    ensures forall alpha, x, mu :: l(alpha, x, mu) == Failure(NotImplemented(DerivativeLambdaMissing))
  {
    (alpha: MultiIndex, x: Domain, mu: Parameter) => Failure(NotImplemented(DerivativeLambdaMissing))
  }

  /** The constructor taking an order procedure; the defaults are the source's default arguments. */
  function FromOrderLambda<R>(shape: Shape, orderLambda: OrderLambda,
                              evaluateLambda: EvaluateLambda<R> := DefaultEvaluateLambda(),
                              nm: string := "smooth_lambda_function",
                              paramType: ParameterType := map[],
                              jacobianLambda: JacobianLambda<R> := DefaultJacobianLambda(),
                              derivativeLambda: DerivativeLambda<R> := DefaultDerivativeLambda())
    : (f: SmoothLambdaFunction<R>)
    ensures f.shape == shape && f.orderLambda == orderLambda
    ensures f.evaluateLambda == evaluateLambda && f.jacobianLambda == jacobianLambda
    ensures f.derivativeLambda == derivativeLambda
    ensures f.parameterType == paramType && f.name == nm
  {
    SmoothLambdaFunction(shape, orderLambda, evaluateLambda, jacobianLambda, derivativeLambda, paramType, nm)
  }

  /** The constructor taking a fixed order `ord`: its order procedure gives `ord` for every parameter. */
  function FromOrder<R>(shape: Shape, ord: int,
                        evaluateLambda: EvaluateLambda<R> := DefaultEvaluateLambda(),
                        nm: string := "smooth_lambda_function",
                        paramType: ParameterType := map[],
                        jacobianLambda: JacobianLambda<R> := DefaultJacobianLambda(),
                        derivativeLambda: DerivativeLambda<R> := DefaultDerivativeLambda())
    : (f: SmoothLambdaFunction<R>)
    ensures f.shape == shape && forall mu :: f.orderLambda(mu) == Success(ord)
    ensures f.evaluateLambda == evaluateLambda && f.jacobianLambda == jacobianLambda
    ensures f.derivativeLambda == derivativeLambda
    ensures f.parameterType == paramType && f.name == nm
  {
    SmoothLambdaFunction(shape, (mu: Parameter) => Success(ord), evaluateLambda, jacobianLambda, derivativeLambda,
                         paramType, nm)
  }

  /** is_parametric: the parameter type handed to the constructor is not empty. */
  predicate IsParametric<R>(f: SmoothLambdaFunction<R>): (b: bool)
    ensures b <==> |f.parameterType| > 0
  {
    f.parameterType != map[]
  }

  /**
   * order(mu): the stored order procedure on parse_and_check(mu). A rejected
   * parameter fails with the check's error before the procedure runs; an
   * accepted one reaches it in parsed form, and what the procedure throws
   * is passed on.
   */
  function Order<R>(f: SmoothLambdaFunction<R>, check: ParseAndCheck, mu: Parameter := NoParameter): (r: Result<int>)
    ensures check(f.parameterType, mu).Failure? ==> r == Failure(check(f.parameterType, mu).error)
    ensures check(f.parameterType, mu).Success? ==> r == f.orderLambda(check(f.parameterType, mu).value)
  {
    var parsed := check(f.parameterType, mu);
    if parsed.Failure? then Failure(parsed.error) else f.orderLambda(parsed.value)
  }

  /** evaluate(x, mu): the stored evaluate procedure on x and parse_and_check(mu), as Order. */
  function Evaluate<R>(f: SmoothLambdaFunction<R>, check: ParseAndCheck, x: Domain,
                       mu: Parameter := NoParameter): (r: Result<Range<R>>)
    ensures check(f.parameterType, mu).Failure? ==> r == Failure(check(f.parameterType, mu).error)
    ensures check(f.parameterType, mu).Success? ==> r == f.evaluateLambda(x, check(f.parameterType, mu).value)
  {
    var parsed := check(f.parameterType, mu);
    if parsed.Failure? then Failure(parsed.error) else f.evaluateLambda(x, parsed.value)
  }

  /** jacobian(x, mu): the stored jacobian procedure on x and parse_and_check(mu), as Order. */
  function Jacobian<R>(f: SmoothLambdaFunction<R>, check: ParseAndCheck, x: Domain,
                       mu: Parameter := NoParameter): (r: Result<DerivativeRange<R>>)
    ensures check(f.parameterType, mu).Failure? ==> r == Failure(check(f.parameterType, mu).error)
    ensures check(f.parameterType, mu).Success? ==> r == f.jacobianLambda(x, check(f.parameterType, mu).value)
  {
    var parsed := check(f.parameterType, mu);
    if parsed.Failure? then Failure(parsed.error) else f.jacobianLambda(x, parsed.value)
  }

  /** derivative(alpha, x, mu): the stored derivative procedure on alpha, x and parse_and_check(mu), as Order. */
  function Derivative<R>(f: SmoothLambdaFunction<R>, check: ParseAndCheck, alpha: MultiIndex, x: Domain,
                         mu: Parameter := NoParameter): (r: Result<DerivativeRange<R>>)
    ensures check(f.parameterType, mu).Failure? ==> r == Failure(check(f.parameterType, mu).error)
    ensures check(f.parameterType, mu).Success? ==>
              r == f.derivativeLambda(alpha, x, check(f.parameterType, mu).value)
  {
    var parsed := check(f.parameterType, mu);
    if parsed.Failure? then Failure(parsed.error) else f.derivativeLambda(alpha, x, parsed.value)
  }

  /**
   * The lambda function seen through SmoothFunctionInterface: its overrides of
   * order, evaluate, jacobian, derivative, type() and name(). `check` is the
   * parse_and_check it inherits.
   */
  function AsSmooth<R>(f: SmoothLambdaFunction<R>, check: ParseAndCheck): (s: SmoothFunction<R>)
    ensures s.shape == f.shape && s.typeName == "smooth_lambda_function" && s.name == f.name
    ensures forall mu :: s.order(mu) == Order(f, check, mu)
    ensures forall x, mu :: s.evaluate(x, mu) == Evaluate(f, check, x, mu)
    ensures forall x, mu :: s.jacobian(x, mu) == Jacobian(f, check, x, mu)
    ensures forall alpha, x, mu :: s.derivative(alpha, x, mu) == Derivative(f, check, alpha, x, mu)
    ensures Valid(f) ==> s.Valid()
  {
    SmoothFunction(
      f.shape,
      (mu: Parameter) => Order(f, check, mu),
      (x: Domain, mu: Parameter) => Evaluate(f, check, x, mu),
      (x: Domain, mu: Parameter) => Jacobian(f, check, x, mu),
      (alpha: MultiIndex, x: Domain, mu: Parameter) => Derivative(f, check, alpha, x, mu),
      LambdaTypeName,
      f.name)
  }

  /** is_parametric() holds exactly when a non-empty parameter type was handed to the constructor. */
  lemma IsParametricIffDeclared<R>(shape: Shape, ord: int, orderLambda: OrderLambda, ev: EvaluateLambda<R>,
                                   nm: string, paramType: ParameterType)
    ensures IsParametric(FromOrder(shape, ord, ev, nm, paramType)) <==> |paramType| > 0
    ensures IsParametric(FromOrderLambda(shape, orderLambda, ev, nm, paramType)) <==> |paramType| > 0
    ensures !IsParametric(FromOrder<R>(shape, ord)) && !IsParametric(FromOrderLambda<R>(shape, orderLambda))
  {
  }

  /** The name defaults to "smooth_lambda_function", the value type() always has. */
  lemma NameDefaultsToType<R>(shape: Shape, ord: int, orderLambda: OrderLambda, check: ParseAndCheck)
    ensures FromOrder<R>(shape, ord).name == AsSmooth(FromOrder<R>(shape, ord), check).typeName
    ensures FromOrderLambda<R>(shape, orderLambda).name == "smooth_lambda_function"
  {
  }

  /** Built from a fixed `ord`, order(mu) is `ord` for every parameter parse_and_check accepts. */
  lemma FixedOrder<R>(shape: Shape, ord: int, ev: EvaluateLambda<R>, nm: string, paramType: ParameterType,
                      jac: JacobianLambda<R>, der: DerivativeLambda<R>, check: ParseAndCheck, mu: Parameter)
    requires check(paramType, mu).Success?
    ensures Order(FromOrder(shape, ord, ev, nm, paramType, jac, der), check, mu) == Success(ord)
  {
  }

  /** Without an evaluate procedure, every evaluate call throws: NotImplemented once the parameter is accepted. */
  lemma EvaluateWithoutLambda<R>(shape: Shape, ord: int, orderLambda: OrderLambda, nm: string,
                                 paramType: ParameterType, jac: JacobianLambda<R>, der: DerivativeLambda<R>,
                                 check: ParseAndCheck, x: Domain, mu: Parameter)
    ensures var f := FromOrder(shape, ord, nm := nm, paramType := paramType, jacobianLambda := jac,
                               derivativeLambda := der);
            var g := FromOrderLambda(shape, orderLambda, nm := nm, paramType := paramType, jacobianLambda := jac,
                                     derivativeLambda := der);
            && Evaluate(f, check, x, mu).Failure? && Evaluate(g, check, x, mu).Failure?
            && (check(paramType, mu).Success? ==>
                  Evaluate(f, check, x, mu) == Evaluate(g, check, x, mu)
                                            == Failure(NotImplemented(EvaluateLambdaMissing)))
  {
  }

  /** Without a jacobian procedure, every jacobian call throws: NotImplemented once the parameter is accepted. */
  lemma JacobianWithoutLambda<R>(shape: Shape, ord: int, orderLambda: OrderLambda, ev: EvaluateLambda<R>,
                                 nm: string, paramType: ParameterType, der: DerivativeLambda<R>,
                                 check: ParseAndCheck, x: Domain, mu: Parameter)
    ensures var f := FromOrder(shape, ord, ev, nm, paramType, derivativeLambda := der);
            var g := FromOrderLambda(shape, orderLambda, ev, nm, paramType, derivativeLambda := der);
            && Jacobian(f, check, x, mu).Failure? && Jacobian(g, check, x, mu).Failure?
            && (check(paramType, mu).Success? ==>
                  Jacobian(f, check, x, mu) == Jacobian(g, check, x, mu)
                                            == Failure(NotImplemented(JacobianLambdaMissing)))
  {
  }

  /** Without a derivative procedure, every derivative call throws: NotImplemented once the parameter is accepted. */
  lemma DerivativeWithoutLambda<R>(shape: Shape, ord: int, orderLambda: OrderLambda, ev: EvaluateLambda<R>,
                                   nm: string, paramType: ParameterType, jac: JacobianLambda<R>,
                                   check: ParseAndCheck, alpha: MultiIndex, x: Domain, mu: Parameter)
    ensures var f := FromOrder(shape, ord, ev, nm, paramType, jac);
            var g := FromOrderLambda(shape, orderLambda, ev, nm, paramType, jac);
            && Derivative(f, check, alpha, x, mu).Failure? && Derivative(g, check, alpha, x, mu).Failure?
            && (check(paramType, mu).Success? ==>
                  Derivative(f, check, alpha, x, mu) == Derivative(g, check, alpha, x, mu)
                                                     == Failure(NotImplemented(DerivativeLambdaMissing)))
  {
  }

  /**
   * A lambda function without an evaluate procedure, asked for one component
   * with the checks on: an out-of-shape index is reported as such, not as
   * NotImplemented, because the shape check runs first.
   */
  lemma ShapeCheckedBeforeMissingEvaluate<R>(shape: Shape, ord: int, nm: string, paramType: ParameterType,
                                             check: ParseAndCheck, x: Domain, row: nat, col: nat, mu: Parameter)
    requires shape.Valid()
    ensures var f := AsSmooth(FromOrder<R>(shape, ord, nm := nm, paramType := paramType), check);
            && f.Valid()
            && (OutOfShape(shape, row, col) ==>
                  SingleEvaluate(f, true, x, row, col, mu) == Failure(ShapesDoNotMatch("evaluate", row, col)))
            && (!OutOfShape(shape, row, col) && check(paramType, mu).Success? ==>
                  SingleEvaluate(f, true, x, row, col, mu) == Failure(NotImplemented(EvaluateLambdaMissing)))
            && (!OutOfShape(shape, row, col) && check(paramType, mu).Failure? ==>
                  SingleEvaluate(f, true, x, row, col, mu) == Failure(check(paramType, mu).error))
  {
  }
}
