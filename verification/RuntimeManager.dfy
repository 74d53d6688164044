/**
 The runtime configuration of a running controller (src/config/runtime.ts:28-129, 164-189). The file may be reloaded and
 catalogs of pinned configurations bound at any time; a reload that is invalid, or that changes a field needing a
 restart, is not taken over.
 */
module RuntimeConfiguration {
  import opened Basics

  type Harness = string

  datatype Execution = Execution(harness: Harness, model: string, timeoutSeconds: int, maxAttempts: int)

  /** The value at a dotted path; the harness table counts by its keys and their settings. */
  datatype Value = Missing | Text(text: string) | Harnesses(settings: map<Harness, string>)

  datatype Config = Config(values: map<string, Value>, agents: map<string, Execution>, urlsSound: bool)

  const HARNESSES := "execution.harnesses"

  const RESTART_FIELDS := [
    "configuration.repository", "configuration.revision", "configuration.stack",
    "provider.type", "provider.apiUrl", "provider.repositories", "provider.tokenFile",
    HARNESSES, "runtime.dataDirectory", "runtime.http.address", "runtime.http.port", "runtime.http.authFile"]

  datatype BindingError = UnsoundUrl | NoHarness | NoAgent | UnsupportedHarness

  type Catalog = map<string, set<Harness>>

  function ValueAt(c: Config, path: string): Value {
    if path in c.values then c.values[path] else Missing
  }

  function HarnessNames(c: Config): set<Harness> {
    if ValueAt(c, HARNESSES).Harnesses? then ValueAt(c, HARNESSES).settings.Keys else {}
  }

  /** `validateRuntimeBindings`; agents' harness names are never empty. */
  function ValidateBindings(c: Config, expected: Catalog): Option<BindingError> {
    if !c.urlsSound then Some(UnsoundUrl)
    else if exists a :: a in c.agents && c.agents[a].harness !in HarnessNames(c) then Some(NoHarness)
    else if exists a :: a in expected && a !in c.agents then Some(NoAgent)
    else if exists a :: a in expected && a in c.agents && c.agents[a].harness !in expected[a] then Some(UnsupportedHarness)
    else None
  }

  predicate Satisfies(c: Config, catalog: Catalog) {
    forall a :: a in catalog ==> a in c.agents && c.agents[a].harness in catalog[a]
  }

  predicate SelfConsistent(c: Config) {
    c.urlsSound && forall a :: a in c.agents ==> c.agents[a].harness in HarnessNames(c)
  }

  lemma BindingsMeaning(c: Config, expected: Catalog)
    ensures ValidateBindings(c, expected).None? <==> SelfConsistent(c) && Satisfies(c, expected)
  {
  }

  /** Binding narrows: an agent known already keeps only harnesses both catalogs allow. */
  function Combine(bound: Catalog, catalog: Catalog): Catalog {
    map a | a in bound.Keys + catalog.Keys ::
      if a !in catalog then bound[a] else if a !in bound then catalog[a] else catalog[a] * bound[a]
  }

  function ChangedFields(current: Config, candidate: Config): seq<string> {
    Filter((path: string) => ValueAt(current, path) != ValueAt(candidate, path), RESTART_FIELDS)
  }

  datatype State = State(
    config: Config, bound: Catalog,
    errors: Option<BindingError>,         // of the last reload
    unreadable: bool,                     // the last reload did not parse
    changed: seq<string>, attempts: nat,
    initial: Config, catalogs: seq<Catalog>)    // how it began, and the catalogs it accepted

  function Started(config: Config): State
    requires ValidateBindings(config, map[]).None?
  {
    State(config, map[], None, false, [], 0, config, [])
  }

  predicate MayStartWork(s: State) {
    s.errors.None? && !s.unreadable && s.changed == []
  }

  /** `bindCatalog`: all or nothing. */
  function Bind(s: State, catalog: Catalog): (State, Option<BindingError>) {
    var combined := Combine(s.bound, catalog);
    var problem := ValidateBindings(s.config, combined);
    if problem.Some? then (s, problem) else (s.(bound := combined, catalogs := s.catalogs + [catalog]), None)
  }

  /** A reload is validated on its own first, and then against the bound catalogs, if there are any. */
  function Unfit(candidate: Config, bound: Catalog): Option<BindingError> {
    var problem := ValidateBindings(candidate, map[]);
    if problem.None? && bound != map[] then ValidateBindings(candidate, bound) else problem
  }

  /** `reloadOnce`, on what the file held; `None` when it did not parse. */
  function Reload(s: State, candidate: Option<Config>): State {
    if candidate.None? then s.(errors := None, unreadable := true, changed := [])
    else
      var unfit := Unfit(candidate.value, s.bound);
      if unfit.Some? then s.(errors := unfit, unreadable := false, changed := [])
      else
        var changed := ChangedFields(s.config, candidate.value);
        s.(errors := None, unreadable := false, changed := changed, config := if changed == [] then candidate.value else s.config)
  }

  datatype Event =
    | BindCatalog(catalog: Catalog)
    | ReloadFile(candidate: Option<Config>)
    | AttemptStarted
    | AttemptFinished

  function Apply(s: State, e: Event): State {
    match e
    case BindCatalog(catalog) => Bind(s, catalog).0
    case ReloadFile(candidate) => Reload(s, candidate)
    case AttemptStarted => s.(attempts := s.attempts + 1)
    case AttemptFinished => if s.attempts < 1 then s else s.(attempts := s.attempts - 1)
  }

  function Run(s: State, events: seq<Event>): State
    decreases |events|
  {
    if events == [] then s else Run(Apply(s, events[0]), events[1..])
  }

  // ----- The invariant -----

  /** The bound catalog is the meeting of every catalog accepted. */
  ghost predicate Meets(bound: Catalog, catalogs: seq<Catalog>) {
    && (forall a :: a in bound <==> exists i :: 0 <= i < |catalogs| && a in catalogs[i])
    && (forall a, h :: a in bound ==> (h in bound[a] <==> forall i :: 0 <= i < |catalogs| && a in catalogs[i] ==> h in catalogs[i][a]))
  }

  predicate SameRestartFields(a: Config, b: Config) {
    forall path :: path in RESTART_FIELDS ==> ValueAt(a, path) == ValueAt(b, path)
  }

  ghost predicate Inv(s: State) {
    && SelfConsistent(s.config) && Satisfies(s.config, s.bound)
    && Meets(s.bound, s.catalogs)
    && SameRestartFields(s.config, s.initial)
  }

  lemma CombineMeets(bound: Catalog, catalogs: seq<Catalog>, catalog: Catalog)
    requires Meets(bound, catalogs)
    ensures Meets(Combine(bound, catalog), catalogs + [catalog])
  {
    var combined, longer := Combine(bound, catalog), catalogs + [catalog];
    forall a ensures a in combined <==> exists i :: 0 <= i < |longer| && a in longer[i] {
      CombineKnows(bound, catalogs, catalog, a);
    }
    forall a, h | a in combined
      ensures h in combined[a] <==> forall i :: 0 <= i < |longer| && a in longer[i] ==> h in longer[i][a]
    {
      CombineAllows(bound, catalogs, catalog, a, h);
    }
  }

  lemma CombineKnows(bound: Catalog, catalogs: seq<Catalog>, catalog: Catalog, a: string)
    requires Meets(bound, catalogs)
    ensures a in Combine(bound, catalog) <==> exists i :: 0 <= i < |catalogs + [catalog]| && a in (catalogs + [catalog])[i]
  {
    var longer := catalogs + [catalog];
    if a in bound {
      var i :| 0 <= i < |catalogs| && a in catalogs[i];
      assert longer[i] == catalogs[i];
    }
    if a in catalog { assert longer[|catalogs|] == catalog; }
  }

  lemma CombineAllows(bound: Catalog, catalogs: seq<Catalog>, catalog: Catalog, a: string, h: Harness)
    requires Meets(bound, catalogs) && a in Combine(bound, catalog)
    ensures h in Combine(bound, catalog)[a] <==>
              forall i :: 0 <= i < |catalogs + [catalog]| && a in (catalogs + [catalog])[i] ==> h in (catalogs + [catalog])[i][a]
  {
    var longer := catalogs + [catalog];
    assert longer[|catalogs|] == catalog;
    assert forall i :: 0 <= i < |catalogs| ==> longer[i] == catalogs[i];
  }

  lemma NoChangeMeansSame(current: Config, candidate: Config)
    requires ChangedFields(current, candidate) == []
    ensures SameRestartFields(candidate, current)
  {
    forall path | path in RESTART_FIELDS ensures ValueAt(candidate, path) == ValueAt(current, path) {
      assert path !in ChangedFields(current, candidate);
    }
  }

  lemma ChangedIffDifferent(current: Config, candidate: Config)
    ensures ChangedFields(current, candidate) == [] <==> SameRestartFields(candidate, current)
  {
    var changed := ChangedFields(current, candidate);
    if changed == [] {
      NoChangeMeansSame(current, candidate);
    } else {
      assert changed[0] in changed;
    }
  }

  lemma BindKeeps(s: State, catalog: Catalog)
    requires Inv(s)
    ensures Inv(Bind(s, catalog).0)
  {
    BindingsMeaning(s.config, Combine(s.bound, catalog));
    CombineMeets(s.bound, s.catalogs, catalog);
  }

  lemma FitMeaning(candidate: Config, bound: Catalog)
    ensures Unfit(candidate, bound).None? <==> SelfConsistent(candidate) && Satisfies(candidate, bound)
  {
    BindingsMeaning(candidate, map[]);
    BindingsMeaning(candidate, bound);
  }

  lemma ReloadKeeps(s: State, candidate: Option<Config>)
    requires Inv(s)
    ensures Inv(Reload(s, candidate))
  {
    if candidate.Some? {
      FitMeaning(candidate.value, s.bound);
      if ChangedFields(s.config, candidate.value) == [] { NoChangeMeansSame(s.config, candidate.value); }
    }
  }

  lemma StepKeeps(s: State, e: Event)
    requires Inv(s)
    ensures Inv(Apply(s, e)) && Apply(s, e).initial == s.initial
  {
    match e
    case BindCatalog(catalog) => BindKeeps(s, catalog);
    case ReloadFile(candidate) => ReloadKeeps(s, candidate);
    case _ =>
  }

  lemma {:induction false} RunKeeps(s: State, events: seq<Event>)
    requires Inv(s)
    ensures Inv(Run(s, events)) && Run(s, events).initial == s.initial
    decreases |events|
  {
    if events != [] {
      StepKeeps(s, events[0]);
      RunKeeps(Apply(s, events[0]), events[1..]);
    }
  }

  lemma StartHolds(config: Config)
    requires ValidateBindings(config, map[]).None?
    ensures Inv(Started(config))
  {
    BindingsMeaning(config, map[]);
  }

  /**
   Whatever is reloaded and bound, in whatever order: the effective configuration satisfies every catalog that was
   accepted, and its restart-only fields are the ones the controller started with.
   */
  lemma EffectiveConfigurationStaysFit(config: Config, events: seq<Event>)
    requires ValidateBindings(config, map[]).None?
    ensures var s := Run(Started(config), events);
            && (forall i :: 0 <= i < |s.catalogs| ==> Satisfies(s.config, s.catalogs[i]))
            && SelfConsistent(s.config) && SameRestartFields(s.config, config)
  {
    StartHolds(config);
    RunKeeps(Started(config), events);
    var s := Run(Started(config), events);
    forall i | 0 <= i < |s.catalogs| ensures Satisfies(s.config, s.catalogs[i]) {
      forall a | a in s.catalogs[i] ensures a in s.config.agents && s.config.agents[a].harness in s.catalogs[i][a] {
        assert a in s.bound;
      }
    }
  }

  /** Harness sets only shrink, and bound agents stay bound. */
  lemma BoundHarnessesShrink(s: State, e: Event, a: string)
    requires a in s.bound
    ensures a in Apply(s, e).bound && Apply(s, e).bound[a] <= s.bound[a]
  {
  }

  /** A catalog is bound exactly when the effective configuration satisfies it, and then an agent keeps what all its catalogs allow. */
  lemma BindAcceptedIff(s: State, catalog: Catalog)
    requires Inv(s)
    ensures Bind(s, catalog).1.None? <==> Satisfies(s.config, catalog)
    ensures var t := Bind(s, catalog).0;
            Bind(s, catalog).1.None? ==>
              && t.catalogs == s.catalogs + [catalog] && t.config == s.config
              && (forall a :: a in t.bound <==> a in s.bound || a in catalog)
              && (forall a, h :: a in t.bound ==> (h in t.bound[a] <==> (a in s.bound ==> h in s.bound[a]) && (a in catalog ==> h in catalog[a])))
  {
    var combined := Combine(s.bound, catalog);
    BindingsMeaning(s.config, combined);
    if Satisfies(s.config, combined) {
      forall a | a in catalog ensures a in s.config.agents && s.config.agents[a].harness in catalog[a] { assert a in combined; }
    }
  }

  /** A reload that only needs a restart reports exactly the restart-only fields that differ. */
  lemma RestartFieldsReported(s: State, candidate: Config)
    requires Inv(s) && SelfConsistent(candidate) && Satisfies(candidate, s.bound)
    ensures var t := Reload(s, Some(candidate));
            && t.errors.None? && !t.unreadable
            && forall path :: path in t.changed <==> path in RESTART_FIELDS && ValueAt(s.config, path) != ValueAt(candidate, path)
  {
    FitMeaning(candidate, s.bound);
  }

  /** A rejected reload or bind leaves the effective configuration and the bindings as they were. */
  lemma RejectionChangesNothing(s: State, e: Event)
    requires (e.BindCatalog? && Bind(s, e.catalog).1.Some?) || (e.ReloadFile? && !MayStartWork(Apply(s, e)))
    ensures Apply(s, e).config == s.config && Apply(s, e).bound == s.bound && Apply(s, e).catalogs == s.catalogs
  {
  }

  /** A reload is taken over exactly when it parses, fits every bound catalog and changes no restart-only field. */
  lemma ReloadTakenOverIff(s: State, candidate: Config)
    requires Inv(s)
    ensures MayStartWork(Reload(s, Some(candidate))) <==>
              SelfConsistent(candidate) && Satisfies(candidate, s.bound) && SameRestartFields(candidate, s.config)
    ensures MayStartWork(Reload(s, Some(candidate))) ==> Reload(s, Some(candidate)).config == candidate
  {
    FitMeaning(candidate, s.bound);
    ChangedIffDifferent(s.config, candidate);
  }

  // ----- The manager object -----

  datatype Selected = Blocked | NoBinding | Snapshot(execution: Execution)

  /** As `Combine`, for the agents done so far. */
  function CombineSome(bound: Catalog, catalog: Catalog, done: set<string>): Catalog
    requires done <= catalog.Keys
  {
    map a | a in bound.Keys + done :: if a !in done then bound[a] else Narrow(bound, catalog, a)
  }

  function Narrow(bound: Catalog, catalog: Catalog, a: string): set<Harness>
    requires a in catalog
  {
    if a in bound then catalog[a] * bound[a] else catalog[a]
  }

  lemma CombineOne(bound: Catalog, catalog: Catalog, done: set<string>, a: string)
    requires done <= catalog.Keys && a in catalog
    ensures CombineSome(bound, catalog, done)[a := Narrow(bound, catalog, a)] == CombineSome(bound, catalog, done + {a})
  {
  }

  lemma CombineAll(bound: Catalog, catalog: Catalog)
    ensures CombineSome(bound, catalog, {}) == bound
    ensures CombineSome(bound, catalog, catalog.Keys) == Combine(bound, catalog)
  {
  }

  /** The loop of `bindCatalog` over the catalog's agents. */
  method CombineCatalogs(bound: Catalog, catalog: Catalog) returns (combined: Catalog)
    ensures combined == Combine(bound, catalog)
  {
    combined := bound;
    CombineAll(bound, catalog);
    var agents := catalog.Keys;
    assert catalog.Keys - agents == {};
    while agents != {}
      invariant agents <= catalog.Keys
      invariant combined == CombineSome(bound, catalog, catalog.Keys - agents)
      decreases agents
    {
      var agent :| agent in agents;
      CombineOne(bound, catalog, catalog.Keys - agents, agent);
      assert catalog.Keys - (agents - {agent}) == (catalog.Keys - agents) + {agent};
      combined := combined[agent := Narrow(bound, catalog, agent)];
      agents := agents - {agent};
    }
    assert catalog.Keys - agents == catalog.Keys;
  }

  class RuntimeManager {
    var config: Config
    var bound: Catalog
    var errors: Option<BindingError>
    var unreadable: bool
    var changed: seq<string>
    var attempts: nat
    ghost var initial: Config
    ghost var catalogs: seq<Catalog>

    ghost function Model(): State
      reads this
    {
      State(config, bound, errors, unreadable, changed, attempts, initial, catalogs)
    }

    ghost predicate Valid()
      reads this
    {
      Inv(Model())
    }

    constructor (config: Config)
      requires ValidateBindings(config, map[]).None?
      ensures Valid() && Model() == Started(config)
    {
      this.config, bound, errors, unreadable, changed, attempts := config, map[], None, false, [], 0;
      initial, catalogs := config, [];
      new;
      StartHolds(config);
    }

    method BindCatalog(catalog: Catalog) returns (problem: Option<BindingError>)
      requires Valid()
      modifies this
      ensures Valid() && (Model(), problem) == Bind(old(Model()), catalog)
    {
      BindKeeps(Model(), catalog);
      var combined := CombineCatalogs(bound, catalog);
      problem := ValidateBindings(config, combined);
      if problem.None? {
        bound := combined;
        catalogs := catalogs + [catalog];
      }
    }

    method ReloadOnce(candidate: Option<Config>)
      requires Valid()
      modifies this
      ensures Valid() && Model() == Reload(old(Model()), candidate)
    {
      ReloadKeeps(Model(), candidate);
      if candidate.None? {
        errors, unreadable, changed := None, true, [];
        return;
      }
      var problem := Unfit(candidate.value, bound);
      if problem.Some? {
        errors, unreadable, changed := problem, false, [];
        return;
      }
      TakeOver(candidate.value);
    }

    /** A configuration that fits is taken over unless a field that needs a restart differs. */
    method TakeOver(candidate: Config)
      modifies `errors, `unreadable, `changed, `config
      ensures errors.None? && !unreadable && changed == ChangedFields(old(config), candidate)
      ensures config == if changed == [] then candidate else old(config)
    {
      errors, unreadable, changed := None, false, ChangedFields(config, candidate);
      if changed == [] { config := candidate; }
    }

    method AttemptFinished() returns (ok: bool)
      requires Valid()
      modifies this
      ensures Valid() && ok == (old(attempts) >= 1) && Model() == Apply(old(Model()), Event.AttemptFinished)
    {
      StepKeeps(Model(), Event.AttemptFinished);
      if attempts < 1 { return false; }
      attempts := attempts - 1;
      return true;
    }

    /** `execution`: reloads, and answers only from a configuration that needs no operator. */
    method ExecutionFor(agent: string, candidate: Option<Config>) returns (r: Selected)
      requires Valid()
      modifies this
      ensures Valid() && Model() == Reload(old(Model()), candidate)
      ensures r.Snapshot? ==> MayStartWork(Model()) && candidate == Some(config)
      ensures r.Snapshot? ==> forall i :: 0 <= i < |catalogs| && agent in catalogs[i] ==> r.execution.harness in catalogs[i][agent]
      ensures r.Snapshot? ==> agent in config.agents && r.execution == config.agents[agent]
      ensures r.Blocked? <==> !MayStartWork(Model())
      ensures r.NoBinding? <==> MayStartWork(Model()) && agent !in config.agents
    {
      ReloadOnce(candidate);
      if errors.Some? || unreadable || changed != [] { return Blocked; }
      if agent !in config.agents { return NoBinding; }
      BoundCatalogsAllow(Model(), agent);
      return Snapshot(config.agents[agent]);
    }
  }

  lemma BoundCatalogsAllow(s: State, agent: string)
    requires Inv(s)
    ensures forall i :: 0 <= i < |s.catalogs| && agent in s.catalogs[i] ==>
              agent in s.config.agents && s.config.agents[agent].harness in s.catalogs[i][agent]
  {
    forall i | 0 <= i < |s.catalogs| && agent in s.catalogs[i]
      ensures agent in s.config.agents && s.config.agents[agent].harness in s.catalogs[i][agent]
    {
      assert agent in s.bound;
    }
  }
}
