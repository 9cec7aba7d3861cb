/**
 * Dune::Stuff::Functions: the string-keyed factory of the four function
 * classes checkerboard, expression, constant and spe10 (model 1).
 *
 * The classes themselves are not part of this model: their static_id()
 * values are the record `StaticIds`, their defaultSettings() the function
 * `classDefaults`, and their create(settings), which returns a function
 * object or throws, the function `classCreate`.
 */
module FunctionFactory {
  import opened Common

  datatype Kind = Checkerboard | Expression | Constant | Spe10Model1

  /** The order in which available() lists the classes and both dispatchers try them. */
  const KindsInOrder: seq<Kind> := [Checkerboard, Expression, Constant, Spe10Model1]

  /** Dune::ParameterTree, as key/value strings. */
  type Settings = map<string, string>

  /** The static_id() of each of the four classes. */
  datatype StaticIds = StaticIds(checkerboard: string, expression: string, constant: string, spe10Model1: string) {
    function Of(k: Kind): string {
      match k
      case Checkerboard => checkerboard
      case Expression => expression
      case Constant => constant
      case Spe10Model1 => spe10Model1
    }
  }

  /** The string create() compares against instead of spe10's static_id(). */
  const Spe10Literal := "function.spe10.model1"

  /** `i` is the first position at which `t` occurs in `ids`. */
  predicate FirstMatch(ids: seq<string>, t: string, i: int) {
    0 <= i < |ids| && ids[i] == t && forall j | 0 <= j < i :: ids[j] != t
  }

  predicate Distinct(ids: StaticIds) {
    forall i, j | 0 <= i < j < |KindsInOrder| :: ids.Of(KindsInOrder[i]) != ids.Of(KindsInOrder[j])
  }

  /** available(): the four static ids, checkerboard first and spe10 last. */
  function Available(ids: StaticIds): (r: seq<string>)
    ensures |r| == |KindsInOrder| == 4
    ensures forall i | 0 <= i < |r| :: r[i] == ids.Of(KindsInOrder[i])
  {
    [ids.checkerboard, ids.expression, ids.constant, ids.spe10Model1]
  }

  /**
   * defaultSettings(type): the defaults of the first class, in the order of
   * available(), whose static id is `t`; RangeError when there is none.
   */
  function DefaultSettings(ids: StaticIds, classDefaults: Kind -> Settings,
                           t: string := Available(ids)[0]): (r: Result<Settings>)
    ensures r.Success? <==> t in Available(ids)
    ensures r.Failure? ==> r.error == RangeError(t)
    ensures forall i | FirstMatch(Available(ids), t, i) :: r == Success(classDefaults(KindsInOrder[i]))
  {
    var keys := Available(ids);
    assert keys[0] == ids.checkerboard && keys[1] == ids.expression && keys[2] == ids.constant;
    if t == ids.checkerboard then Success(classDefaults(Checkerboard))
    else if t == ids.expression then Success(classDefaults(Expression))
    else if t == ids.constant then Success(classDefaults(Constant))
    else if t == ids.spe10Model1 then Success(classDefaults(Spe10Model1))
    else Failure(RangeError(t))
  }

  /** The strings create() tests, in order: three static ids and the spe10 literal. */
  function CreateKeys(ids: StaticIds): (r: seq<string>)
    ensures |r| == |KindsInOrder|
    ensures forall i | 0 <= i < 3 :: r[i] == Available(ids)[i]
    ensures r[3] == Spe10Literal
  {
    [ids.checkerboard, ids.expression, ids.constant, Spe10Literal]
  }

  /**
   * The class create(type, ...) hands over to: the first whose key in
   * create() is `t`, none when no key is.
   */
  function CreateDispatch(ids: StaticIds, t: string): (k: Option<Kind>)
    ensures k.Some? <==> t in CreateKeys(ids)
    ensures forall i | FirstMatch(CreateKeys(ids), t, i) :: k == Some(KindsInOrder[i])
  {
    var keys := CreateKeys(ids);
    assert keys[0] == ids.checkerboard && keys[1] == ids.expression && keys[2] == ids.constant;
    if t == ids.checkerboard then Some(Checkerboard)
    else if t == ids.expression then Some(Expression)
    else if t == ids.constant then Some(Constant)
    else if t == Spe10Literal then Some(Spe10Model1)
    else None
  }

  /**
   * create(type, settings): RangeError when no class has `t` as its key in
   * create(); otherwise whatever the chosen class's create(settings) returns
   * or throws. The default settings are defaultSettings() of the default
   * type, whatever `t`.
   */
  function Create<F>(ids: StaticIds, classDefaults: Kind -> Settings, classCreate: (Kind, Settings) -> Result<F>,
                     t: string := Available(ids)[0],
                     settings: Settings := DefaultSettings(ids, classDefaults).value): (r: Result<F>)
    ensures t !in CreateKeys(ids) ==> r == Failure(RangeError(t))
    ensures forall i | FirstMatch(CreateKeys(ids), t, i) :: r == classCreate(KindsInOrder[i], settings)
  {
    match CreateDispatch(ids, t)
    case None => Failure(RangeError(t))
    case Some(k) => classCreate(k, settings)
  }

  /** Called without a type, both dispatchers use available()[0], the checkerboard. */
  lemma DefaultTypeIsCheckerboard<F>(ids: StaticIds, classDefaults: Kind -> Settings,
                                     classCreate: (Kind, Settings) -> Result<F>)
    ensures DefaultSettings(ids, classDefaults) == Success(classDefaults(Checkerboard))
    ensures CreateDispatch(ids, Available(ids)[0]) == Some(Checkerboard)
    ensures Create(ids, classDefaults, classCreate) == classCreate(Checkerboard, classDefaults(Checkerboard))
  {
  }

  /** Without explicit settings, create() hands every class the checkerboard's defaults. */
  lemma CreateDefaultsToCheckerboardSettings<F>(ids: StaticIds, classDefaults: Kind -> Settings,
                                                classCreate: (Kind, Settings) -> Result<F>, t: string)
    requires t in CreateKeys(ids)
    ensures CreateDispatch(ids, t).Some?
    ensures Create(ids, classDefaults, classCreate, t) ==
            classCreate(CreateDispatch(ids, t).value, classDefaults(Checkerboard))
  {
  }

  /**
   * For four distinct static ids, create() and defaultSettings() accept the
   * same types exactly when spe10's static id is the literal create() uses.
   */
  lemma AcceptSameTypesIffSpe10Literal(ids: StaticIds, classDefaults: Kind -> Settings)
    requires Distinct(ids)
    ensures (forall t :: DefaultSettings(ids, classDefaults, t).Success? <==> CreateDispatch(ids, t).Some?)
            <==> ids.spe10Model1 == Spe10Literal
  {
    if ids.spe10Model1 == Spe10Literal {
      assert CreateKeys(ids) == Available(ids);
    } else {
      var t := ids.spe10Model1;
      assert ids.Of(KindsInOrder[0]) != ids.Of(KindsInOrder[3]);
      assert ids.Of(KindsInOrder[1]) != ids.Of(KindsInOrder[3]);
      assert ids.Of(KindsInOrder[2]) != ids.Of(KindsInOrder[3]);
      assert DefaultSettings(ids, classDefaults, t).Success?;
      assert CreateDispatch(ids, t).None?;
    }
  }

  /**
   * When spe10's static id is the literal, a type both dispatchers accept
   * selects the same class in both: the first one with that id.
   */
  lemma SameClassWhenSpe10Literal(ids: StaticIds, classDefaults: Kind -> Settings, t: string)
    requires ids.spe10Model1 == Spe10Literal
    ensures DefaultSettings(ids, classDefaults, t).Success? <==> CreateDispatch(ids, t).Some?
    ensures forall i | FirstMatch(Available(ids), t, i) ::
              && DefaultSettings(ids, classDefaults, t) == Success(classDefaults(KindsInOrder[i]))
              && CreateDispatch(ids, t) == Some(KindsInOrder[i])
  {
    assert CreateKeys(ids) == Available(ids);
  }
}
