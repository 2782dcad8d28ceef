/** DefinitionContext: a stateless dispatcher that hands each resolution to
    the resolver together with "the current scope". Its two variants differ
    only in what currentScope() returns. */
module Definitions {
  import opened Base
  import opened Scopes

  /** DefaultContext resolves against Scope.GLOBAL, a process-wide singleton;
      since a Dafny constant cannot hold an object, the variant carries it and
      WellFormed says it is that scope. ScopedContext carries its own scope. */
  datatype DefinitionContext =
    | DefaultContext(koin: Koin, global: Scope)
    | ScopedContext(koin: Koin, scope: Scope)
  {
    predicate WellFormed() {
      DefaultContext? ==> global.id == GlobalId && global.scopeSet == null
    }

    /** currentScope: the global scope or the scope given at construction. */
    function CurrentScope(): (s: Scope)
      ensures DefaultContext? ==> s == global
      ensures ScopedContext? ==> s == scope
      ensures WellFormed() && DefaultContext? ==> s.id == GlobalId
    {
      match this
      case DefaultContext(_, g) => g
      case ScopedContext(_, s) => s
    }

    /** get(qualifier, parameters): the resolver's answer for the current
        scope, passed on unchanged. */
    function Get(tag: TypeTag, qualifier: Option<Qualifier>,
                 parameters: Option<ParametersDefinition>): (r: Resolved)
      ensures DefaultContext? ==> r == koin.resolve(Request(tag, qualifier, global, parameters))
      ensures ScopedContext? ==> r == koin.resolve(Request(tag, qualifier, scope, parameters))
    {
      koin.resolve(Request(tag, qualifier, CurrentScope(), parameters))
    }

    /** get(qualifier, scope, parameters): the same with an explicit scope;
        the context's own scope plays no part, so the answer is what a context
        scoped to that scope would give implicitly. */
    function GetWithScope(tag: TypeTag, qualifier: Option<Qualifier>, scope: Scope,
                          parameters: Option<ParametersDefinition>): (r: Resolved)
      ensures r == ScopedContext(koin, scope).Get(tag, qualifier, parameters)
    {
      koin.resolve(Request(tag, qualifier, scope, parameters))
    }

    /** getFromScope: look the scope up by id, then resolve against it; a
        failure of the lookup propagates unchanged. */
    function GetFromScope(scopeId: ScopeId, tag: TypeTag, qualifier: Option<Qualifier>,
                          parameters: Option<ParametersDefinition>): (r: Resolved)
      reads koin
      ensures scopeId !in koin.scopes ==> r == Raised(UnknownScope(scopeId))
      ensures scopeId in koin.scopes ==>
                r == GetWithScope(tag, qualifier, koin.scopes[scopeId], parameters)
    {
      match koin.GetScope(scopeId)
      case Failure(e) => Raised(e)
      case Success(s) => GetWithScope(tag, qualifier, s, parameters)
    }

    /** getProperty: the resolver's value, or MissingProperty when it is null. */
    function GetProperty(key: string, defaultValue: Option<Instance>): (r: Result<Instance>)
      ensures r.Success? <==> koin.property(key, defaultValue).Some?
      ensures r.Success? ==> koin.property(key, defaultValue) == Some(r.value)
      ensures r.Failure? ==> r.error == MissingProperty("Property '" + key + "' is missing")
    {
      match koin.property(key, defaultValue)
      case Some(v) => Success(v)
      case None => Failure(MissingProperty("Property '" + key + "' is missing"))
    }
  }

  /** Scope.getContext: a ScopedContext over the scope's owner, or
      IllegalState when the scope has none. */
  function GetContext(scope: Scope): (r: Result<DefinitionContext>)
    reads scope
    ensures r.Success? <==> scope.IsRegistered()
    ensures r.Success? ==> r.value.ScopedContext? && r.value.koin == scope.koin
    ensures r.Success? ==> r.value.CurrentScope() == scope
    ensures r.Failure? ==>
              r.error == IllegalState("Scope '" + scope.ToString() + "' is not registered")
  {
    if scope.koin == null
    then Failure(IllegalState("Scope '" + scope.ToString() + "' is not registered"))
    else Success(ScopedContext(scope.koin, scope))
  }

  /** The implicit-scope get is the explicit-scope get at currentScope(). */
  lemma ImplicitGetIsExplicitAtCurrentScope(ctx: DefinitionContext, tag: TypeTag,
                                            qualifier: Option<Qualifier>,
                                            parameters: Option<ParametersDefinition>)
    ensures ctx.Get(tag, qualifier, parameters)
            == ctx.GetWithScope(tag, qualifier, ctx.CurrentScope(), parameters)
  {
  }

  /** A default context always resolves against Scope.GLOBAL. */
  lemma DefaultContextResolvesGlobally(koin: Koin, global: Scope, tag: TypeTag,
                                       qualifier: Option<Qualifier>,
                                       parameters: Option<ParametersDefinition>)
    requires DefaultContext(koin, global).WellFormed()
    ensures DefaultContext(koin, global).CurrentScope().id == GlobalId
    ensures DefaultContext(koin, global).Get(tag, qualifier, parameters)
            == koin.resolve(Request(tag, qualifier, global, parameters))
  {
  }

  /** ScopedContext(S).get equals DefaultContext.get with S given explicitly. */
  lemma ScopedGetIsDefaultGetWithScope(koin: Koin, global: Scope, scope: Scope, tag: TypeTag,
                                       qualifier: Option<Qualifier>,
                                       parameters: Option<ParametersDefinition>)
    ensures ScopedContext(koin, scope).CurrentScope() == scope
    ensures ScopedContext(koin, scope).Get(tag, qualifier, parameters)
            == DefaultContext(koin, global).GetWithScope(tag, qualifier, scope, parameters)
  {
  }

  /** A context performs no liveness check: over a scope with no owner, the
      scope's own get fails as closed while the context still asks the
      resolver. */
  lemma ContextSkipsLivenessCheck(koin: Koin, scope: Scope, tag: TypeTag,
                                  qualifier: Option<Qualifier>,
                                  parameters: Option<ParametersDefinition>)
    requires !scope.IsRegistered()
    ensures scope.Get(tag, qualifier, parameters)
            == Failure(ScopeIsClosed("Scope " + scope.ToString() + " is closed"))
    ensures ScopedContext(koin, scope).Get(tag, qualifier, parameters)
            == koin.resolve(Request(tag, qualifier, scope, parameters))
  {
  }

  /** For a registered scope, resolving through its context and through the
      scope agree on every instance: the context yields Found(v) exactly when
      the scope's get yields v. */
  lemma ContextOfScopeAgreesWithScopeGet(scope: Scope, tag: TypeTag,
                                         qualifier: Option<Qualifier>,
                                         parameters: Option<ParametersDefinition>, v: Instance)
    requires scope.IsRegistered()
    ensures GetContext(scope).Success?
    ensures GetContext(scope).value.Get(tag, qualifier, parameters) == Found(v)
            <==> scope.Get(tag, qualifier, parameters) == Success(v)
  {
  }

  /** Looking a live scope up by its id resolves against that very scope. */
  lemma GetFromLiveScope(ctx: DefinitionContext, scope: Scope, tag: TypeTag,
                         qualifier: Option<Qualifier>,
                         parameters: Option<ParametersDefinition>)
    requires scope.id in ctx.koin.scopes && ctx.koin.scopes[scope.id] == scope
    ensures ctx.GetFromScope(scope.id, tag, qualifier, parameters)
            == ctx.koin.resolve(Request(tag, qualifier, scope, parameters))
  {
  }

  /** Two callbacks are registered and the scope is closed twice: the first
      close calls release, delete and the two callbacks in order; the second
      only calls release again. */
  method CloseTwiceScenario(log: Trace, koin: Koin, sessions: ScopeSet,
                            c1: ScopeCallback, c2: ScopeCallback)
    requires koin.trace == log && sessions.trace == log
    requires c1.trace == log && c2.trace == log
    requires log.events == []
    modifies log, koin
  {
    var scope := new Scope("session-42", sessions);
    scope.Register(koin);
    scope.RegisterCallback(c1);
    scope.RegisterCallback(c2);
    assert scope.callbacks == [c1, c2];
    assert scope.LogsTo(log);

    ghost var before := scope.State();
    CloseStepOrder(before);
    scope.Close(log);
    assert |log.events| == 4;
    assert log.events[0] == Released(sessions, "session-42");
    assert log.events[1] == ScopeDeleted(koin, "session-42");
    assert log.events[2] == ScopeClosed(c1);
    assert log.events[3] == ScopeClosed(c2);

    ghost var first := log.events;
    SecondCloseIsQuiet(before);
    scope.Close(log);
    assert log.events == first + [Released(sessions, "session-42")];
  }

  /** A registered scope resolves, and after its close the scope, its lazy
      cell, its context and the lookup by id all refuse. */
  method ClosedScopeScenario(tag: TypeTag, v: Instance)
  {
    var log := new Trace();
    var koin := new Koin(log, (r: Request) => Found(v), (k: string, d: Option<Instance>) => d);
    var global := NewGlobalScope();
    var scope := new Scope("session-42", null);
    koin.DeclareScope(scope);
    scope.Register(koin);
    assert scope.Get(tag, None, None) == Success(v);
    var ctx := DefaultContext(koin, global);
    assert ctx.GetFromScope(scope.id, tag, None, None) == Found(v);
    var cell := scope.Inject(tag, None, None);

    scope.Close(log);
    assert ctx.GetFromScope(scope.id, tag, None, None) == Raised(UnknownScope(scope.id));
    assert scope.Get(tag, None, None).Failure?;
    assert GetContext(scope).Failure?;
    var late := cell.Value();
    assert late.Failure?;
  }

  /** getProperty with and without a default, against a resolver that
      answers every lookup with the default it is given. */
  method PropertyScenario(v: Instance)
  {
    var log := new Trace();
    var koin := new Koin(log, (r: Request) => NullInstance, (k: string, d: Option<Instance>) => d);
    var global := NewGlobalScope();
    var ctx := DefaultContext(koin, global);
    assert ctx.GetProperty("missing", Some(v)) == Success(v);
    assert ctx.GetProperty("missing", None)
           == Failure(MissingProperty("Property 'missing' is missing"));
  }
}
