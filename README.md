# Smooth functions of dune-xt-functions, modelled in Dafny

This project models the core of the function abstraction of dune-xt-functions:

- `SmoothFunctionInterface` (module `SmoothFunctions`, `smooth_function.dfy`): a function
  from R^d to values of shape r x rC. Its default `evaluate`, `jacobian` and `derivative`
  throw `NotImplemented`. The single-component accessors check the indices against the shape
  (`assert_correct_dims`, which `DUNE_XT_FUNCTIONS_DISABLE_CHECKS` turns into a no-op) and then
  project entry (row, col) out of the full value. The dynamic-size overloads resize the caller's
  buffer and overwrite it with the converted full value. `as_localizable` keeps a static map from
  function instance to wrapper and fills it on first use.
- `SmoothLambdaFunction` (module `SmoothLambdaFunctions`, `lambda_function.dfy`): a smooth
  function made of four procedures, a parameter type and a name, all fixed at construction.
  Missing procedures default to ones that throw `NotImplemented`, and every call first passes
  its parameter through `parse_and_check`.
- `Dune::Stuff::Functions` (module `FunctionFactory`, `factory.dfy`): `available()`,
  `defaultSettings(type)` and `create(type, settings)`, string-keyed dispatch over the classes
  checkerboard, expression, constant and spe10 (model 1).

`common.dfy` (module `Common`) holds the exceptions (`Error`), `Result`/`Outcome` for
"returns or throws", and the parameter types.

How the C++ is represented:

- Thrown exceptions are `Failure(e)` / `Fail(e)` values.
- A C++ object deriving from the interface is the record `SmoothFunction` of its full-value
  procedures (`order`, `evaluate`, `jacobian`, `derivative`), `type()` and `name()`.
  `InterfaceDefaults` builds it with the interface defaults. `SmoothLambdaFunctions.AsSmooth`
  builds it with the lambda function's overrides.
- The shape (template arguments d, r, rC) is the datatype `Shape`. A value is a `Vector` when
  rC == 1 and a `Matrix` otherwise, as the two specialisations of `single_evaluate_helper`
  require. Derivatives are `RowGradients` (rC == 1) or `EntryGradients`.
- The range field is a type parameter `R`. Points are `seq<real>`.
- The compile-time switch `DUNE_XT_FUNCTIONS_DISABLE_CHECKS` is the argument `checksEnabled`.
  With the checks off the source has undefined behaviour for indices outside the value. The
  model therefore requires `Addressable`: the row exists, and the column too unless rC == 1,
  where the column is ignored.
- The static map of `as_localizable<E>` is a function-local static of a member template of the
  class template `SmoothFunctionInterface<d, r, rC, R>`, so there is one map per interface
  instantiation and element type `E`; each is one `WrapperCache` object.
  It is keyed by `FunctionInstance` objects, whose identity plays the part of `this`.
- The C++ default arguments are Dafny default parameter values: `mu = {}`, `col = 0`, the
  lambda defaults, `type = available()[0]` and `settings = defaultSettings()`.
- The lambda function holds four procedures: order, evaluate, jacobian and derivative.
- The index error of `assert_correct_dims` is `shapes_do_not_match` (`ShapesDoNotMatch`).
- `create` matches spe10 against the literal `"function.spe10.model1"` (`CreateDispatch`).
- `create`'s default settings are `defaultSettings()` of the default type, the checkerboard,
  whatever type is requested (lemma `CreateDefaultsToCheckerboardSettings`).

## Model

| member | source | states |
|---|---|---|
| `SmoothFunctions.InterfaceDefaults` | dune/xt/functions/interfaces/smooth-function.hh:114-147 | default `evaluate`, `jacobian` and `derivative` throw NotImplemented (with the source's messages) for every point, multi-index and parameter; `type()`, `name()` and `static_id()` are all "dune.xt.functions.smooth"; `order` is whatever the derived class supplies |
| `SmoothFunctions.StaticId` | dune/xt/functions/interfaces/smooth-function.hh:139-142 | the interface's static id is "dune.xt.functions.smooth" |
| `SmoothFunctions.AssertCorrectDims` | dune/xt/functions/interfaces/smooth-function.hh:257-273 | fails iff the checks are enabled and `row >= r` or `col >= rC`, then with shapes_do_not_match naming the caller, row and col; never fails with the checks disabled |
| `SmoothFunctions.SingleEvaluateHelper` | dune/xt/functions/interfaces/smooth-function.hh:276-294 | for a conforming value and an addressable index: entry `val[row]` of the vector when rC == 1 (the column is ignored), entry `val[row][col]` of the matrix when rC > 1 |
| `SmoothFunctions.SingleEvaluate` | dune/xt/functions/interfaces/smooth-function.hh:155-162 | with checks on, an out-of-shape index gives the shape error even when `evaluate` is not implemented; otherwise it succeeds iff the full evaluate does, propagates its error, and returns `val[row]` when rC == 1 and `val[row][col]` when rC > 1 |
| `SmoothFunctions.SingleDerivativeHelper` | dune/xt/functions/interfaces/smooth-function.hh:296-317 | for rC == 1 returns row `row` of the derivative; for rC > 1 returns a length-d vector `v` with `v[dd] == full[row][col][dd]` for every `dd < d` (filled by the loop) |
| `SmoothFunctions.SingleJacobian` | dune/xt/functions/interfaces/smooth-function.hh:164-172 | shape check first (shape error iff checks on and index out of shape); otherwise succeeds iff the full jacobian does, with the gradient of entry (row, col) as in SingleDerivativeHelper |
| `SmoothFunctions.SingleDerivative` | dune/xt/functions/interfaces/smooth-function.hh:174-183 | as SingleJacobian, for the full `derivative(alpha, ...)` |
| `SmoothFunctions.ColumnIgnoredWithoutChecks` | dune/xt/functions/interfaces/smooth-function.hh:286-294 | with checks disabled and rC == 1 the column argument does not change the single-component result |
| `SmoothFunctions.EvaluateDynamic` | dune/xt/functions/interfaces/smooth-function.hh:192-198 | resizes `result` with `ensure_size`, then overwrites it with `convert` of the full value at the same point; succeeds iff the full evaluate does; on failure `result` is left resized |
| `SmoothFunctions.JacobianDynamic` | dune/xt/functions/interfaces/smooth-function.hh:200-206 | the same for the jacobian |
| `SmoothFunctions.DerivativeDynamic` | dune/xt/functions/interfaces/smooth-function.hh:208-215 | the same for the partial derivative alpha |
| `SmoothFunctions.FindOrInsert` | dune/xt/functions/interfaces/smooth-function.hh:233-234 | find-then-insert: keys become old keys plus the instance, every existing entry is unchanged, a new entry holds the new wrapper |
| `SmoothFunctions.FindOrInsertIdempotent` | dune/xt/functions/interfaces/smooth-function.hh:233-234 | a second find-or-insert for the same instance leaves the map as the first one left it |
| `SmoothFunctions.FindOrInsertSize` | dune/xt/functions/interfaces/smooth-function.hh:233-234 | the map grows by one entry exactly when the instance had none, and by none otherwise |
| `SmoothFunctions.WrapperCache.AsLocalizable` | dune/xt/functions/interfaces/smooth-function.hh:227-236 | creates a fresh wrapper of `f` only if `f` has no entry, otherwise returns the stored one; other instances' entries are untouched; every stored wrapper wraps its key |
| `SmoothFunctions.AsLocalizableTwice` | dune/xt/functions/interfaces/smooth-function.hh:232-235 | two calls for the same instance return the same wrapper and add at most one entry |
| `SmoothLambdaFunctions.DefaultEvaluateLambda` | dune/xt/functions/lambda/smooth-function.hh:138-145 | throws NotImplemented for every point and parameter |
| `SmoothLambdaFunctions.DefaultJacobianLambda` | dune/xt/functions/lambda/smooth-function.hh:147-155 | throws NotImplemented for every point and parameter |
| `SmoothLambdaFunctions.DefaultDerivativeLambda` | dune/xt/functions/lambda/smooth-function.hh:157-165 | throws NotImplemented for every multi-index, point and parameter |
| `SmoothLambdaFunctions.FromOrderLambda` | dune/xt/functions/lambda/smooth-function.hh:49-62 | stores the given procedures, parameter type and name unchanged; the defaults are the throwing procedures, the name "smooth_lambda_function" and the empty parameter type |
| `SmoothLambdaFunctions.FromOrder` | dune/xt/functions/lambda/smooth-function.hh:64-77 | as FromOrderLambda, with an order procedure that gives `ord` for every parameter |
| `SmoothLambdaFunctions.AsSmooth` | dune/xt/functions/lambda/smooth-function.hh:100-130 | the overrides: order/evaluate/jacobian/derivative delegate through parse_and_check, `type()` is "smooth_lambda_function", `name()` is the stored name; shape-conforming procedures give a valid smooth function |
| `SmoothLambdaFunctions.IsParametric` | dune/xt/functions/lambda/smooth-function.hh:84-87 | holds iff the stored parameter type is non-empty |
| `SmoothLambdaFunctions.Order` | dune/xt/functions/lambda/smooth-function.hh:100-103 | a parameter parse_and_check rejects fails with that error before the order procedure runs; an accepted one reaches the procedure in parsed form, and what it returns or throws is the result |
| `SmoothLambdaFunctions.Evaluate` | dune/xt/functions/lambda/smooth-function.hh:105-108 | the same for the evaluate procedure, with the point passed unchanged |
| `SmoothLambdaFunctions.Jacobian` | dune/xt/functions/lambda/smooth-function.hh:110-113 | the same for the jacobian procedure, with the point passed unchanged |
| `SmoothLambdaFunctions.Derivative` | dune/xt/functions/lambda/smooth-function.hh:115-120 | the same for the derivative procedure, with the multi-index and point passed unchanged |
| `SmoothLambdaFunctions.IsParametricIffDeclared` | dune/xt/functions/lambda/smooth-function.hh:84-87 | `is_parametric()` holds iff the parameter type given to either constructor is non-empty; false with the default |
| `SmoothLambdaFunctions.NameDefaultsToType` | dune/xt/functions/lambda/smooth-function.hh:122-130 | the default name equals `type()`, "smooth_lambda_function" |
| `SmoothLambdaFunctions.FixedOrder` | dune/xt/functions/lambda/smooth-function.hh:64-70 | built from `int ord`, `order(mu)` is `ord` for every parameter parse_and_check accepts |
| `SmoothLambdaFunctions.EvaluateWithoutLambda` | dune/xt/functions/lambda/smooth-function.hh:138-145 | with no evaluate procedure, from either constructor, every evaluate fails, with NotImplemented once the parameter is accepted |
| `SmoothLambdaFunctions.JacobianWithoutLambda` | dune/xt/functions/lambda/smooth-function.hh:147-155 | with no jacobian procedure, every jacobian fails, with NotImplemented once the parameter is accepted |
| `SmoothLambdaFunctions.DerivativeWithoutLambda` | dune/xt/functions/lambda/smooth-function.hh:157-165 | with no derivative procedure, every derivative fails, with NotImplemented once the parameter is accepted |
| `SmoothLambdaFunctions.ShapeCheckedBeforeMissingEvaluate` | dune/xt/functions/interfaces/smooth-function.hh:155-162 | a lambda function without evaluate, asked for one component with checks on, reports an out-of-shape index as the shape error, and an in-shape one as NotImplemented (or the parameter error) |
| `FunctionFactory.Available` | dune/stuff/functions.hh:32-38 | exactly four ids: checkerboard, expression, constant, spe10, in that order |
| `FunctionFactory.DefaultSettings` | dune/stuff/functions.hh:40-54 | succeeds iff the type is in `available()`, with the defaults of the first class in that order whose id it is; RangeError naming the type otherwise |
| `FunctionFactory.CreateDispatch` | dune/stuff/functions.hh:59-66 | selects a class iff the type is one of the checkerboard, expression and constant ids or the literal "function.spe10.model1", and then the first one in that order |
| `FunctionFactory.Create` | dune/stuff/functions.hh:56-71 | RangeError naming the type when it is none of the four keys; otherwise exactly what the first matching class's `create(settings)` returns or throws |
| `FunctionFactory.DefaultTypeIsCheckerboard` | dune/stuff/functions.hh:40-57 | without a type both dispatchers take `available()[0]`: the checkerboard defaults, and whatever the checkerboard's `create` gives for them |
| `FunctionFactory.CreateDefaultsToCheckerboardSettings` | dune/stuff/functions.hh:56-57 | without settings, `create` hands every accepted type's class the checkerboard's default settings |
| `FunctionFactory.AcceptSameTypesIffSpe10Literal` | dune/stuff/functions.hh:40-71 | for distinct static ids, `create` and `defaultSettings` accept the same types iff spe10's static id is "function.spe10.model1" |
| `FunctionFactory.SameClassWhenSpe10Literal` | dune/stuff/functions.hh:40-71 | when spe10's id is that literal, both accept the same types and select the same (first-matching) class |

## Left out

- `visualize` (VTK file output) and the localization wrapper's behaviour: `SmoothFunctionAsLocalizableWrapper` is not part of this model; a wrapper records only the function it wraps.
- `RangeTypeSelector` / `DerivativeRangeTypeSelector`: not part of this model. Their `ensure_size` and `convert` are the parameters of `Selector`, so the flat row-major layout and its round trip are not modelled.
- `ParametricInterface::parse_and_check` and `ParameterType`: not part of this model. `parse_and_check` is an argument (`ParseAndCheck`); a parameter type is a map from names to sizes, and "empty" means the empty map.
- `order` of the interface is pure virtual: it has no default to model, so a derived class supplies it.
- Overrides of the single-component and dynamic overloads: `single_evaluate`, `single_jacobian`, `single_derivative` and the dynamic `evaluate`, `jacobian` and `derivative` are virtual in the source, which invites derived classes to override them for speed. The model gives only the interface's default bodies (`SingleEvaluate`, `SingleJacobian`, `SingleDerivative`, `EvaluateDynamic`, `JacobianDynamic`, `DerivativeDynamic`), so an object that overrides them is not represented. The same holds for the virtual `is_parametric` and `parameter_type` of the parametric interface, which only the lambda function's own `IsParametric` models.
- Thread safety of the static wrapper map: the model is sequential.
- Floating-point evaluation: the range field is a type parameter and points are never computed with.
- The four concrete classes of the factory are not part of this model. Their `static_id()` values (`StaticIds`), `defaultSettings()` (`classDefaults`) and `create(settings)` (`classCreate`, which may fail) are parameters of the factory functions.
- SmoothFunctions.WrapperCache.AsLocalizable: the source map is keyed by the object's address and its entries are never removed, so an object created at the address of a destroyed one would get the destroyed one's stale wrapper. Model instances are never freed or reused, so this is not captured.
- Localization of derivatives, the sum/difference/product/divergence combinations and the scripting-language bindings are outside this core.
- Object immutability of `SmoothLambdaFunction` (all members `const`) holds by construction, since it is a datatype value; no separate statement is made.
- The exception messages of `assert_correct_dims` and of the factory are reduced to their data (caller, row, col; requested type); the `NotImplemented` messages are kept verbatim.
