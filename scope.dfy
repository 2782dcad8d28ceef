/** The Scope of the Koin service locator: a named lifetime container whose
    owner reference is its liveness flag, with an ordered list of close
    callbacks and a fixed close protocol.

    The collaborators the scope calls (the Koin resolver, the ScopeSet it was
    made from, the user's ScopeCallbacks) are modelled as small classes that
    record what is asked of them in one shared Trace, so that the order of the
    close steps across all of them is a single sequence of events. */
module Scopes {
  import opened Base

  /** Identifier of the companion-object scope Scope.GLOBAL. */
  const GlobalId: ScopeId := "-GLOBAL-"

  /** One resolution request as the resolver receives it:
      `koin.get(T::class, qualifier, scope, parameters)`. */
  datatype Request = Request(
    tag: TypeTag,
    qualifier: Option<Qualifier>,
    scope: Scope,
    parameters: Option<ParametersDefinition>)

  /** What the resolver's get yields: an instance, a null, or an exception. */
  datatype Resolved =
    | Found(instance: Instance)
    | NullInstance
    | Raised(error: KoinError)

  /** A call the scope makes on a collaborator during close. */
  datatype Event =
    | Released(scopeSet: ScopeSet, scope: ScopeId)     // set.release(scope)
    | ScopeDeleted(koin: Koin, scope: ScopeId)    // koin.deleteScope(id)
    | ScopeClosed(callback: ScopeCallback)        // callback.onScopeClose()

  /** The shared record of calls made on the collaborators. */
  class Trace {
    var events: seq<Event>

    constructor ()
      ensures events == []
    {
      events := [];
    }
  }

  /** The resolver, abstracted: resolution and property lookup are
      uninterpreted functions, the live-scope table is a map by id. */
  class Koin {
    const trace: Trace
    const resolve: Request -> Resolved
    const property: (string, Option<Instance>) -> Option<Instance>
    var scopes: map<ScopeId, Scope>

    constructor (trace: Trace, resolve: Request -> Resolved,
                 property: (string, Option<Instance>) -> Option<Instance>)
      ensures this.trace == trace && this.resolve == resolve
      ensures this.property == property && scopes == map[]
    {
      this.trace := trace;
      this.resolve := resolve;
      this.property := property;
      scopes := map[];
    }

    /** Stand-in for the resolver's own scope creation: enter a scope in the
        live-scope table. */
    method DeclareScope(scope: Scope)
      modifies this
      ensures scopes == old(scopes)[scope.id := scope]
    {
      scopes := scopes[scope.id := scope];
    }

    /** deleteScope: forget the scope with this id (a no-op if absent). */
    method DeleteScope(id: ScopeId)
      modifies this, trace
      ensures scopes == old(scopes) - {id}
      ensures trace.events == old(trace.events) + [ScopeDeleted(this, id)]
    {
      scopes := scopes - {id};
      trace.events := trace.events + [ScopeDeleted(this, id)];
    }

    /** getScope: the live scope with this id, or an unknown-scope failure. */
    function GetScope(id: ScopeId): (r: Result<Scope>)
      reads this
      ensures r.Success? <==> id in scopes
      ensures r.Success? ==> r.value == scopes[id]
      ensures r.Failure? ==> r.error == UnknownScope(id)
    {
      if id in scopes then Success(scopes[id]) else Failure(UnknownScope(id))
    }
  }

  /** The scope set a scope was instantiated from. */
  class ScopeSet {
    const qualifier: string
    const trace: Trace

    constructor (qualifier: string, trace: Trace)
      ensures this.qualifier == qualifier && this.trace == trace
    {
      this.qualifier := qualifier;
      this.trace := trace;
    }

    /** release: its bookkeeping is not modelled; the call is recorded. */
    method Release(scope: Scope)
      modifies trace
      ensures trace.events == old(trace.events) + [Released(this, scope.id)]
    {
      trace.events := trace.events + [Released(this, scope.id)];
    }
  }

  /** A close listener; its identity is the object itself. */
  class ScopeCallback {
    const trace: Trace

    constructor (trace: Trace)
      ensures this.trace == trace
    {
      this.trace := trace;
    }

    method OnScopeClose()
      modifies trace
      ensures trace.events == old(trace.events) + [ScopeClosed(this)]
    {
      trace.events := trace.events + [ScopeClosed(this)];
    }
  }

  // ---------------------------------------------------------------------
  // The scope's state as a value, and the effect of each operation on it.
  // ---------------------------------------------------------------------

  /** Everything a Scope holds that its lifecycle operations read or write. */
  datatype ScopeState = ScopeState(
    id: ScopeId,
    scopeSet: ScopeSet?,
    owner: Koin?,
    callbacks: seq<ScopeCallback>)

  /** register(koin): attach the owner. */
  function Registered(s: ScopeState, koin: Koin): ScopeState {
    s.(owner := koin)
  }

  /** registerCallback(c): append, no deduplication. */
  function WithCallback(s: ScopeState, c: ScopeCallback): ScopeState {
    s.(callbacks := s.callbacks + [c])
  }

  /** The state close leaves behind: no owner, no callbacks. */
  function Closed(s: ScopeState): ScopeState {
    s.(owner := null, callbacks := [])
  }

  /** One notification per callback, in list order. */
  function Notifications(cs: seq<ScopeCallback>): seq<Event> {
    if cs == [] then []
    else Notifications(cs[..|cs| - 1]) + [ScopeClosed(cs[|cs| - 1])]
  }

  /** The calls close makes, in the order it makes them. */
  function CloseEvents(s: ScopeState): seq<Event> {
    (if s.scopeSet != null then [Released(s.scopeSet, s.id)] else [])
    + (if s.owner != null then [ScopeDeleted(s.owner, s.id)] else [])
    + Notifications(s.callbacks)
  }

  lemma {:induction false} NotificationsInOrder(cs: seq<ScopeCallback>)
    ensures |Notifications(cs)| == |cs|
    ensures forall i :: 0 <= i < |cs| ==> Notifications(cs)[i] == ScopeClosed(cs[i])
  {
    if cs != [] {
      var init := cs[..|cs| - 1];
      NotificationsInOrder(init);
      forall i | 0 <= i < |cs|
        ensures Notifications(cs)[i] == ScopeClosed(cs[i])
      {
        if i < |cs| - 1 {
          assert init[i] == cs[i];
        }
      }
    }
  }

  /** How many calls close makes before the first notification: one release
      when a set is linked, one delete when an owner is present. */
  function Lead(s: ScopeState): nat {
    (if s.scopeSet != null then 1 else 0) + (if s.owner != null then 1 else 0)
  }

  /** Every event close emits is in its place: the release first (when a set
      is linked), then the delete (only when an owner is present), then one
      notification per callback in registration order. */
  lemma CloseStepOrder(s: ScopeState)
    ensures |CloseEvents(s)| == Lead(s) + |s.callbacks|
    ensures s.scopeSet != null ==> CloseEvents(s)[0] == Released(s.scopeSet, s.id)
    ensures s.owner != null ==> CloseEvents(s)[Lead(s) - 1] == ScopeDeleted(s.owner, s.id)
    ensures forall i :: 0 <= i < |s.callbacks| ==>
              CloseEvents(s)[Lead(s) + i] == ScopeClosed(s.callbacks[i])
  {
    var lead := (if s.scopeSet != null then [Released(s.scopeSet, s.id)] else [])
                + (if s.owner != null then [ScopeDeleted(s.owner, s.id)] else []);
    assert |lead| == Lead(s);
    var notes := Notifications(s.callbacks);
    NotificationsInOrder(s.callbacks);
    assert CloseEvents(s) == lead + notes;
    forall i | 0 <= i < |s.callbacks|
      ensures CloseEvents(s)[Lead(s) + i] == ScopeClosed(s.callbacks[i])
    {
      assert (lead + notes)[|lead| + i] == notes[i];
    }
  }

  /** A second close finds no owner and no callbacks: it changes nothing and
      makes no delete call and no notification; only the unconditional
      release of the set is repeated. */
  lemma SecondCloseIsQuiet(s: ScopeState)
    ensures Closed(Closed(s)) == Closed(s)
    ensures CloseEvents(Closed(s)) == if s.scopeSet != null then [Released(s.scopeSet, s.id)] else []
    ensures forall e :: e in CloseEvents(Closed(s)) ==> e.Released?
  {
  }

  // ---------------------------------------------------------------------
  // Sequences of operations on one scope.
  // ---------------------------------------------------------------------

  /** A call a client makes on a scope that changes it. */
  datatype Op = RegisterOp(koin: Koin) | RegisterCallbackOp(callback: ScopeCallback) | CloseOp

  /** The state after some operations, and the collaborator calls they made. */
  datatype Outcome = Outcome(state: ScopeState, events: seq<Event>)

  function Step(s: ScopeState, op: Op): Outcome {
    match op
    case RegisterOp(k) => Outcome(Registered(s, k), [])
    case RegisterCallbackOp(c) => Outcome(WithCallback(s, c), [])
    case CloseOp => Outcome(Closed(s), CloseEvents(s))
  }

  function Run(s: ScopeState, ops: seq<Op>): Outcome
    decreases |ops|
  {
    if ops == [] then Outcome(s, [])
    else
      var first := Step(s, ops[0]);
      var rest := Run(first.state, ops[1..]);
      Outcome(rest.state, first.events + rest.events)
  }

  /** Registering each of cs in turn, and nothing else. */
  function CallbackOps(cs: seq<ScopeCallback>): (ops: seq<Op>)
    ensures |ops| == |cs|
    ensures forall i :: 0 <= i < |cs| ==> ops[i] == RegisterCallbackOp(cs[i])
  {
    if cs == [] then [] else [RegisterCallbackOp(cs[0])] + CallbackOps(cs[1..])
  }

  /** Running a then b is running a, then b from where a left off. */
  lemma {:induction false} RunAppend(s: ScopeState, a: seq<Op>, b: seq<Op>)
    ensures Run(s, a + b).state == Run(Run(s, a).state, b).state
    ensures Run(s, a + b).events == Run(s, a).events + Run(Run(s, a).state, b).events
    decreases |a|
  {
    if a == [] {
      assert a + b == b;
      assert Run(s, a) == Outcome(s, []);
      assert [] + Run(s, b).events == Run(s, b).events;
    } else {
      var first := Step(s, a[0]);
      assert (a + b)[0] == a[0];
      assert (a + b)[1..] == a[1..] + b;
      RunAppend(first.state, a[1..], b);
      var mid := Run(first.state, a[1..]);
      var last := Run(mid.state, b);
      assert Run(s, a) == Outcome(mid.state, first.events + mid.events);
      assert Run(s, a + b) == Outcome(last.state, first.events + (mid.events + last.events));
      assert first.events + (mid.events + last.events) == (first.events + mid.events) + last.events;
    }
  }

  /** Registering callbacks appends them, in order, and calls nobody. */
  lemma {:induction false} RegisteringCallbacks(s: ScopeState, cs: seq<ScopeCallback>)
    ensures Run(s, CallbackOps(cs)).state == s.(callbacks := s.callbacks + cs)
    ensures Run(s, CallbackOps(cs)).events == []
    decreases |cs|
  {
    if cs == [] {
      assert s.callbacks + cs == s.callbacks;
    } else {
      var ops := CallbackOps(cs);
      assert ops[0] == RegisterCallbackOp(cs[0]);
      assert ops[1..] == CallbackOps(cs[1..]);
      var s1 := WithCallback(s, cs[0]);
      assert Step(s, ops[0]) == Outcome(s1, []);
      RegisteringCallbacks(s1, cs[1..]);
      assert s1.callbacks + cs[1..] == s.callbacks + cs;
      var rest := Run(s1, ops[1..]);
      assert rest.state == s.(callbacks := s.callbacks + cs);
      assert rest.events == [];
      assert Run(s, ops) == Outcome(rest.state, [] + rest.events);
    }
  }

  /** Registering callbacks on a scope that has none and then closing it
      makes exactly the calls of closing a scope holding those callbacks. */
  lemma RegisterThenClose(s: ScopeState, cs: seq<ScopeCallback>)
    requires s.callbacks == []
    ensures Run(s, CallbackOps(cs) + [CloseOp]).events == CloseEvents(s.(callbacks := cs))
    ensures Run(s, CallbackOps(cs) + [CloseOp]).state == Closed(s)
  {
    var ops := CallbackOps(cs);
    RunAppend(s, ops, [CloseOp]);
    RegisteringCallbacks(s, cs);
    var full := s.(callbacks := cs);
    assert s.callbacks + cs == cs;
    assert Run(s, ops).state == full && Run(s, ops).events == [];
    var closing := Run(full, [CloseOp]);
    assert [CloseOp][1..] == [];
    assert closing.events == CloseEvents(full) + [];
    assert closing.state == Closed(full);
  }

  /** Callbacks registered one after another are notified by close exactly
      once each, in registration order, after the release and delete calls. */
  lemma CallbacksNotifiedInRegistrationOrder(s: ScopeState, cs: seq<ScopeCallback>)
    requires s.callbacks == []
    ensures |Run(s, CallbackOps(cs) + [CloseOp]).events| == Lead(s) + |cs|
    ensures forall i :: 0 <= i < |cs| ==>
              Run(s, CallbackOps(cs) + [CloseOp]).events[Lead(s) + i] == ScopeClosed(cs[i])
  {
    RegisterThenClose(s, cs);
    var full := s.(callbacks := cs);
    var e := Run(s, CallbackOps(cs) + [CloseOp]).events;
    assert e == CloseEvents(full);
    assert Lead(full) == Lead(s);
    CloseStepOrder(full);
    forall i | 0 <= i < |cs|
      ensures e[Lead(s) + i] == ScopeClosed(cs[i])
    {
      assert CloseEvents(full)[Lead(full) + i] == ScopeClosed(full.callbacks[i]);
    }
  }

  /** No operation but register gives a scope an owner, and none changes its
      id or its set. */
  lemma {:induction false} OwnerOnlyFromRegister(s: ScopeState, ops: seq<Op>)
    requires s.owner == null
    requires forall i :: 0 <= i < |ops| ==> !ops[i].RegisterOp?
    ensures Run(s, ops).state.owner == null
    ensures Run(s, ops).state.id == s.id && Run(s, ops).state.scopeSet == s.scopeSet
    decreases |ops|
  {
    if ops != [] {
      OwnerOnlyFromRegister(Step(s, ops[0]).state, ops[1..]);
    }
  }

  // ---------------------------------------------------------------------
  // Display string and resolution through a scope.
  // ---------------------------------------------------------------------

  const DisplayPrefix: string := "Scope[id:'"
  const SetPrefix: string := ",set:'"

  function SetQualifier(scopeSet: ScopeSet?): Option<string> {
    if scopeSet == null then None else Some(scopeSet.qualifier)
  }

  /** What follows the quote that closes the id. */
  function DisplaySuffix(qualifier: Option<string>): string {
    match qualifier
    case None => "]"
    case Some(q) => SetPrefix + q + "']"
  }

  /** toString: `Scope[id:'<id>']`, or `Scope[id:'<id>',set:'<qualifier>']`. */
  function Display(id: ScopeId, qualifier: Option<string>): (r: string)
    ensures |r| > |DisplayPrefix| && r[..|DisplayPrefix|] == DisplayPrefix
    ensures r[|r| - 1] == ']'
  {
    DisplayPrefix + id + "'" + DisplaySuffix(qualifier)
  }

  /** Index of the first quote in s, or |s| when there is none. */
  function FirstQuote(s: string): (k: nat)
    ensures k <= |s|
    ensures k < |s| ==> s[k] == '\''
    ensures forall j :: 0 <= j < k ==> s[j] != '\''
  {
    if s == [] || s[0] == '\'' then 0 else 1 + FirstQuote(s[1..])
  }

  /** Reads back the set qualifier, if any, from a display suffix. */
  function ParseSuffix(tail: string): Option<Option<string>> {
    if tail == "]" then Some(None)
    else if |tail| >= |SetPrefix| + 2 && tail[..|SetPrefix|] == SetPrefix
            && tail[|tail| - 2..] == "']"
    then Some(Some(tail[|SetPrefix|..|tail| - 2]))
    else None
  }

  /** Reads back the id and the set qualifier from a display string. */
  function ParseDisplay(s: string): Option<(ScopeId, Option<string>)> {
    if |s| < |DisplayPrefix| || s[..|DisplayPrefix|] != DisplayPrefix then None
    else
      var rest := s[|DisplayPrefix|..];
      var k := FirstQuote(rest);
      if k == |rest| then None
      else match ParseSuffix(rest[k + 1..])
        case None => None
        case Some(qualifier) => Some((rest[..k], qualifier))
  }

  lemma SuffixRoundTrip(qualifier: Option<string>)
    ensures ParseSuffix(DisplaySuffix(qualifier)) == Some(qualifier)
  {
  }

  /** In `id'tail` with a quote-free id, the first quote is the one after id. */
  lemma {:induction false} SplitAtQuote(id: string, tail: string)
    requires '\'' !in id
    ensures FirstQuote(id + "'" + tail) == |id|
    ensures (id + "'" + tail)[..|id|] == id
    ensures (id + "'" + tail)[|id| + 1..] == tail
    decreases |id|
  {
    if id != [] {
      assert (id + "'" + tail)[1..] == id[1..] + "'" + tail;
      SplitAtQuote(id[1..], tail);
    }
  }

  /** The display string determines the id and the set qualifier whenever the
      id itself holds no quote. */
  lemma DisplayRoundTrip(id: ScopeId, qualifier: Option<string>)
    requires '\'' !in id
    ensures ParseDisplay(Display(id, qualifier)) == Some((id, qualifier))
  {
    var tail := DisplaySuffix(qualifier);
    var rest := id + "'" + tail;
    var s := Display(id, qualifier);
    assert s == DisplayPrefix + rest;
    assert s[|DisplayPrefix|..] == rest;
    SplitAtQuote(id, tail);
    SuffixRoundTrip(qualifier);
  }

  /** The two shapes of the display string, on concrete ids. */
  lemma DisplayExamples()
    ensures Display("session-42", None) == "Scope[id:'session-42']"
    ensures Display(GlobalId, None) == "Scope[id:'-GLOBAL-']"
    ensures Display("s1", Some("q")) == "Scope[id:'s1',set:'q']"
  {
  }

  /** The message of the closed-scope exception. */
  function ClosedMessage(s: ScopeState): string {
    "Scope " + Display(s.id, SetQualifier(s.scopeSet)) + " is closed"
  }

  /** get on a scope in state s (self being that scope): resolve through the
      owner; no owner, or a null from the resolver, is ScopeIsClosed. */
  function GetIn(s: ScopeState, self: Scope, tag: TypeTag, qualifier: Option<Qualifier>,
                 parameters: Option<ParametersDefinition>): (r: Result<Instance>)
    ensures r.Success? <==>
              s.owner != null && s.owner.resolve(Request(tag, qualifier, self, parameters)).Found?
    ensures r.Success? ==>
              s.owner.resolve(Request(tag, qualifier, self, parameters)) == Found(r.value)
    ensures s.owner == null ==> r == Failure(ScopeIsClosed(ClosedMessage(s)))
    ensures s.owner != null && s.owner.resolve(Request(tag, qualifier, self, parameters)).Raised? ==>
              r == Failure(s.owner.resolve(Request(tag, qualifier, self, parameters)).error)
    ensures r.Failure? && r.error != ScopeIsClosed(ClosedMessage(s)) ==>
              s.owner != null && s.owner.resolve(Request(tag, qualifier, self, parameters)).Raised?
  {
    if s.owner == null then Failure(ScopeIsClosed(ClosedMessage(s)))
    else match s.owner.resolve(Request(tag, qualifier, self, parameters))
      case Found(v) => Success(v)
      case NullInstance => Failure(ScopeIsClosed(ClosedMessage(s)))
      case Raised(e) => Failure(e)
  }

  /** After a close, and any later operations other than register, every get
      fails with the closed-scope exception naming the scope. */
  lemma GetFailsAfterClose(s: ScopeState, ops: seq<Op>, self: Scope, tag: TypeTag,
                           qualifier: Option<Qualifier>, parameters: Option<ParametersDefinition>)
    requires forall i :: 0 <= i < |ops| ==> !ops[i].RegisterOp?
    ensures var t := Run(s, [CloseOp] + ops).state;
            GetIn(t, self, tag, qualifier, parameters) == Failure(ScopeIsClosed(ClosedMessage(s)))
  {
    assert ([CloseOp] + ops)[1..] == ops;
    OwnerOnlyFromRegister(Closed(s), ops);
  }

  // ---------------------------------------------------------------------
  // The Scope object.
  // ---------------------------------------------------------------------

  class Scope {
    const id: ScopeId
    const scopeSet: ScopeSet?
    var koin: Koin?
    /** The scope-local Properties object; no operation modelled here changes it. */
    var properties: map<string, Instance>
    var callbacks: seq<ScopeCallback>

    constructor (id: ScopeId, scopeSet: ScopeSet?)
      ensures State() == ScopeState(id, scopeSet, null, []) && properties == map[]
    {
      this.id := id;
      this.scopeSet := scopeSet;
      koin := null;
      properties := map[];
      callbacks := [];
    }

    function State(): ScopeState
      reads this
    {
      ScopeState(id, scopeSet, koin, callbacks)
    }

    /** isRegistered: the owner is present. */
    predicate IsRegistered()
      reads this
      ensures IsRegistered() <==> State().owner != null
    {
      koin != null
    }

    /** Every collaborator close will call records into log. */
    ghost predicate LogsTo(log: Trace)
      reads this
    {
      && (scopeSet != null ==> scopeSet.trace == log)
      && (koin != null ==> koin.trace == log)
      && (forall c :: c in callbacks ==> c.trace == log)
    }

    method Register(koin: Koin)
      modifies this
      ensures State() == Registered(old(State()), koin) && properties == old(properties)
      ensures IsRegistered()
    {
      this.koin := koin;
    }

    method RegisterCallback(callback: ScopeCallback)
      modifies this
      ensures State() == WithCallback(old(State()), callback) && properties == old(properties)
      ensures callbacks[..|old(callbacks)|] == old(callbacks) && callbacks[|callbacks| - 1] == callback
    {
      callbacks := callbacks + [callback];
    }

    /** toString, rendered by Display: for a quote-free id, the id and the
        set qualifier can be read back from it. */
    function ToString(): (s: string)
      ensures |s| > |DisplayPrefix| && s[..|DisplayPrefix|] == DisplayPrefix
      ensures '\'' !in id ==> ParseDisplay(s) == Some((id, SetQualifier(scopeSet)))
    {
      var s := Display(id, SetQualifier(scopeSet));
      assert '\'' !in id ==> ParseDisplay(s) == Some((id, SetQualifier(scopeSet))) by {
        if '\'' !in id {
          DisplayRoundTrip(id, SetQualifier(scopeSet));
        }
      }
      s
    }

    function Get(tag: TypeTag, qualifier: Option<Qualifier>,
                 parameters: Option<ParametersDefinition>): (r: Result<Instance>)
      reads this
      ensures !IsRegistered() ==> r == Failure(ScopeIsClosed("Scope " + ToString() + " is closed"))
      ensures r.Success? ==> koin != null && koin.resolve(Request(tag, qualifier, this, parameters)) == Found(r.value)
    {
      GetIn(State(), this, tag, qualifier, parameters)
    }

    /** inject: a lazy cell; nothing is resolved until its first read. */
    method Inject(tag: TypeTag, qualifier: Option<Qualifier>,
                  parameters: Option<ParametersDefinition>) returns (cell: LazyInstance)
      ensures fresh(cell) && cell.cached == None
      ensures cell.scope == this && cell.tag == tag
      ensures cell.qualifier == qualifier && cell.parameters == parameters
    {
      cell := new LazyInstance(this, tag, qualifier, parameters);
    }

    /** close: release from the set, delete from the owner, drop the owner,
        notify every callback in order, clear the list. */
    method Close(ghost log: Trace)
      requires LogsTo(log)
      modifies this, log, koin
      ensures State() == Closed(old(State())) && properties == old(properties)
      ensures !IsRegistered()
      ensures log.events == old(log.events) + CloseEvents(old(State()))
      ensures old(koin) != null ==> old(koin).scopes == old(koin.scopes) - {id}
    {
      ghost var before := State();
      if scopeSet != null {
        scopeSet.Release(this);
      }
      if koin != null {
        koin.DeleteScope(id);
      }
      koin := null;
      ghost var prefix := log.events;
      var i := 0;
      while i < |callbacks|
        invariant 0 <= i <= |callbacks|
        invariant koin == null && callbacks == before.callbacks && properties == old(properties)
        invariant log.events == prefix + Notifications(callbacks[..i])
        invariant old(koin) != null ==> old(koin).scopes == old(koin.scopes) - {id}
      {
        assert callbacks[i] in callbacks;
        callbacks[i].OnScopeClose();
        assert callbacks[..i + 1][..i] == callbacks[..i];
        i := i + 1;
      }
      assert callbacks[..i] == before.callbacks;
      callbacks := [];
    }
  }

  /** Scope.GLOBAL: the scope with the reserved id and no set. */
  method NewGlobalScope() returns (global: Scope)
    ensures fresh(global)
    ensures global.State() == ScopeState(GlobalId, null, null, [])
  {
    global := new Scope(GlobalId, null);
  }

  /** The Lazy<T> that inject returns. Kotlin's lazy keeps a computed value
      for good but does not keep a thrown exception: the next read tries
      again. */
  class LazyInstance {
    const scope: Scope
    const tag: TypeTag
    const qualifier: Option<Qualifier>
    const parameters: Option<ParametersDefinition>
    var cached: Option<Instance>

    constructor (scope: Scope, tag: TypeTag, qualifier: Option<Qualifier>,
                 parameters: Option<ParametersDefinition>)
      ensures this.scope == scope && this.tag == tag
      ensures this.qualifier == qualifier && this.parameters == parameters
      ensures cached == None
    {
      this.scope := scope;
      this.tag := tag;
      this.qualifier := qualifier;
      this.parameters := parameters;
      cached := None;
    }

    /** value: the cached instance, or the result of get now. */
    method Value() returns (r: Result<Instance>)
      modifies this
      ensures old(cached).Some? ==> r == Success(old(cached).value) && cached == old(cached)
      ensures old(cached).None? ==> r == scope.Get(tag, qualifier, parameters)
      ensures old(cached).None? ==> cached == (if r.Success? then Some(r.value) else None)
    {
      if cached.Some? {
        r := Success(cached.value);
      } else {
        r := scope.Get(tag, qualifier, parameters);
        if r.Success? {
          cached := Some(r.value);
        }
      }
    }
  }
}
