/** Restoring an intersecting source state from a project file.  The saved
    object names, in its `dependsOn` array, the indices of the two source
    states it intersects: a thresholding state and a label state.  The
    deserializer validates that array and the states it refers to, in a
    fixed order, and then builds the state from the saved composite and name. */
module IntersectingSourceStateDeserializer {
  import opened Wrappers

  const DEPENDS_ON_KEY := "dependsOn"
  const NAME_KEY := "name"
  const COMPOSITE_KEY := "composite"
  const COMPOSITE_TYPE_KEY := "compositeType"

  /** The kinds of source state a dependency index can refer to. */
  datatype SourceKind = RawSource | LabelSource | ThresholdingSource | IntersectingSource | OtherSource

  /** An already restored source state: its kind and an identity. */
  datatype SourceState = SourceState(kind: SourceKind, id: int)

  /** The fields of the saved object that the deserializer reads; an absent
      key is None.  The composite is taken as already decoded. */
  datatype SavedState<C> = SavedState(
    dependsOn: Option<seq<int>>,
    compositeType: Option<string>,
    composite: C,
    name: Option<string>)

  /** The restored intersecting state. */
  datatype IntersectingSourceState<C> = IntersectingSourceState(
    thresholded: SourceState, labels: SourceState, composite: C, name: string)

  /** Why deserialization failed.  All are JSON parse errors except
      `MissingKey`, which stands for the null dereference of an absent key. */
  datatype DeserializeError =
    | WrongDependencyCount(count: nat)
    | NotThresholding(kind: SourceKind)
    | NotLabel(kind: SourceKind)
    | ClassNotFound(className: string)
    | InvalidAccess
    | MissingKey(key: string)
  {
    predicate IsParseError()
    {
      !MissingKey?
    }
  }

  /** The three outcomes of `deserialize`: an exception, a null result (a
      dependency has not been restored), or the new state. */
  datatype Outcome<C> = Error(error: DeserializeError) | Null | Ok(state: IntersectingSourceState<C>)

  /** The dependency checks pass: dependsOn is present with two entries,
      the first names a restored thresholding state and the second a
      restored label state. */
  predicate DependenciesPass<C>(saved: SavedState<C>, dependency: int -> Option<SourceState>)
  {
    && saved.dependsOn.Some? && |saved.dependsOn.value| == 2
    && dependency(saved.dependsOn.value[0]).Some?
    && dependency(saved.dependsOn.value[0]).value.kind == ThresholdingSource
    && dependency(saved.dependsOn.value[1]).Some?
    && dependency(saved.dependsOn.value[1]).value.kind == LabelSource
  }

  /** deserialize.  `dependency` looks up an already restored state by index
      (None for null); `classExists` says whether the composite class name
      resolves; `cacheAccessValid` whether building the state may access the
      global cache.  The checks apply in order: the dependsOn array, its
      length, the two lookups, the first dependency's kind, the second's
      kind, the composite class, the name, the construction. */
  function Deserialize<C>(
    saved: SavedState<C>,
    dependency: int -> Option<SourceState>,
    classExists: string -> bool,
    cacheAccessValid: bool): (r: Outcome<C>)
    // An absent dependsOn key is dereferenced as null.
    ensures saved.dependsOn.None? ==> r == Error(MissingKey(DEPENDS_ON_KEY))
    // A dependsOn array whose length is not 2 is a parse error, whatever the lookups give.
    ensures saved.dependsOn.Some? && |saved.dependsOn.value| != 2 ==>
      r == Error(WrongDependencyCount(|saved.dependsOn.value|))
    // Null exactly when the array is well formed and a dependency is missing.
    ensures r.Null? <==>
      && saved.dependsOn.Some? && |saved.dependsOn.value| == 2
      && (dependency(saved.dependsOn.value[0]).None? || dependency(saved.dependsOn.value[1]).None?)
    // A present first dependency that is not a thresholding state is a parse error.
    ensures saved.dependsOn.Some? && |saved.dependsOn.value| == 2 ==>
      var t, l := dependency(saved.dependsOn.value[0]), dependency(saved.dependsOn.value[1]);
      (t.Some? && l.Some? && t.value.kind != ThresholdingSource ==> r == Error(NotThresholding(t.value.kind)))
    // Both present, the first a thresholding state: a second that is not a label state is a parse error.
    ensures saved.dependsOn.Some? && |saved.dependsOn.value| == 2 ==>
      var t, l := dependency(saved.dependsOn.value[0]), dependency(saved.dependsOn.value[1]);
      (t.Some? && l.Some? && t.value.kind == ThresholdingSource && l.value.kind != LabelSource ==>
         r == Error(NotLabel(l.value.kind)))
    // Once the dependency checks pass: the composite type, the class, the name and the cache, in order.
    ensures DependenciesPass(saved, dependency) ==>
      && (saved.compositeType.None? ==> r == Error(MissingKey(COMPOSITE_TYPE_KEY)))
      && (saved.compositeType.Some? && !classExists(saved.compositeType.value) ==>
            r == Error(ClassNotFound(saved.compositeType.value)))
      && (saved.compositeType.Some? && classExists(saved.compositeType.value) && saved.name.None? ==>
            r == Error(MissingKey(NAME_KEY)))
      && (saved.compositeType.Some? && classExists(saved.compositeType.value) && saved.name.Some? && !cacheAccessValid ==>
            r == Error(InvalidAccess))
    // Success exactly when every check passes; the state is built from dependsOn[0],
    // dependsOn[1], the composite and the name.
    ensures r.Ok? <==>
      && DependenciesPass(saved, dependency)
      && saved.compositeType.Some? && classExists(saved.compositeType.value)
      && saved.name.Some? && cacheAccessValid
    ensures r.Ok? ==>
      && r.state.thresholded == dependency(saved.dependsOn.value[0]).value
      && r.state.labels == dependency(saved.dependsOn.value[1]).value
      && r.state.composite == saved.composite
      && r.state.name == saved.name.value
    // Every failure is a parse error except the dereference of an absent key.
    ensures r.Error? ==>
      (r.error.IsParseError() <==>
         !(|| saved.dependsOn.None?
           || (&& DependenciesPass(saved, dependency)
               && (saved.compositeType.None?
                   || (classExists(saved.compositeType.value) && saved.name.None?)))))
  {
    match saved.dependsOn
    case None => Error(MissingKey(DEPENDS_ON_KEY))
    case Some(dependsOn) =>
      if |dependsOn| != 2 then Error(WrongDependencyCount(|dependsOn|))
      else
        var thresholdedState := dependency(dependsOn[0]);
        var labelState := dependency(dependsOn[1]);
        if thresholdedState.None? || labelState.None? then Null
        else if thresholdedState.value.kind != ThresholdingSource then Error(NotThresholding(thresholdedState.value.kind))
        else if labelState.value.kind != LabelSource then Error(NotLabel(labelState.value.kind))
        else match saved.compositeType
          case None => Error(MissingKey(COMPOSITE_TYPE_KEY))
          case Some(className) =>
            if !classExists(className) then Error(ClassNotFound(className))
            else match saved.name
              case None => Error(MissingKey(NAME_KEY))
              case Some(name) =>
                if !cacheAccessValid then Error(InvalidAccess)
                else Ok(IntersectingSourceState(thresholdedState.value, labelState.value, saved.composite, name))
  }

  /** The dependency checks come first: when the dependsOn array or the
      states it names fail them, the outcome does not depend on the
      composite, its class, the name or the cache. */
  lemma DependencyChecksFirst<C>(
    saved: SavedState<C>, other: SavedState<C>,
    dependency: int -> Option<SourceState>,
    classExists: string -> bool, otherClassExists: string -> bool,
    cacheAccessValid: bool, otherCacheAccessValid: bool)
    requires other.dependsOn == saved.dependsOn
    requires !DependenciesPass(saved, dependency)
    ensures Deserialize(other, dependency, otherClassExists, otherCacheAccessValid)
         == Deserialize(saved, dependency, classExists, cacheAccessValid)
    ensures !Deserialize(saved, dependency, classExists, cacheAccessValid).Ok?
  {
  }
}
