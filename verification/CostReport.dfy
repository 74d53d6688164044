/**
 The cost report of a Codex attempt (src/harness/ccusage.ts:52-128): what must add up before it is believed. Amounts of
 money are exact here.
 */
module CostReport {
  import opened Basics

  const MAX_SAFE_INTEGER := 9_007_199_254_740_991
  const COUNT_LIMIT := 1_000_000_000_000
  const TOLERANCE := 0.00000001

  datatype Sums = Sums(input: int, cacheRead: int, cacheCreation: int, output: int, total: int)

  datatype Counts = Counts(fields: Sums, reasoning: Option<int>, fallback: Option<bool>, missingPricing: Option<bool>)

  datatype Model = Model(name: string, usage: Counts)

  datatype Session = Session(id: string, counts: Counts, cost: real, models: seq<Model>)

  datatype Report = Report(sessions: seq<Session>, totals: Counts, cost: real, unpriced: Option<seq<string>>)

  datatype Usage = Usage(
    inputTokens: int, cachedInputTokens: int, cacheCreationInputTokens: int, outputTokens: int,
    reasoningOutputTokens: Option<int>, totalTokens: int, model: Option<string>, costUsd: real)

  datatype CostError = Incomplete | Unpriced | BadSession | ModelMismatch | ReasoningMismatch | TotalsMismatch

  const ZERO := Sums(0, 0, 0, 0, 0)

  function Plus(a: Sums, b: Sums): Sums {
    Sums(a.input + b.input, a.cacheRead + b.cacheRead, a.cacheCreation + b.cacheCreation, a.output + b.output, a.total + b.total)
  }

  predicate IsCount(v: int) {
    0 <= v <= MAX_SAFE_INTEGER
  }

  predicate InRange(v: int) {
    IsCount(v) && v <= COUNT_LIMIT
  }

  /** `validCounts` */
  predicate ValidCounts(c: Counts) {
    && InRange(c.fields.input) && InRange(c.fields.cacheRead) && InRange(c.fields.cacheCreation)
    && InRange(c.fields.output) && InRange(c.fields.total)
    && c.fields.total == c.fields.input + c.fields.cacheRead + c.fields.cacheCreation + c.fields.output
    && (c.reasoning.Some? ==> IsCount(c.reasoning.value) && c.reasoning.value <= c.fields.output)
    && c.fallback != Some(true) && c.missingPricing != Some(true)
  }

  predicate Alphanumeric(c: char) {
    'A' <= c <= 'Z' || 'a' <= c <= 'z' || '0' <= c <= '9'
  }

  predicate ModelName(name: string) {
    && 1 <= |name| <= 120 && Alphanumeric(name[0])
    && forall i :: 0 < i < |name| ==> Alphanumeric(name[i]) || name[i] in "._:/-"
  }

  // ----- What must add up -----

  function ModelSums(models: seq<Model>): Sums {
    if models == [] then ZERO else Plus(ModelSums(models[..|models| - 1]), models[|models| - 1].usage.fields)
  }

  function SessionSums(sessions: seq<Session>): Sums {
    if sessions == [] then ZERO else Plus(SessionSums(sessions[..|sessions| - 1]), sessions[|sessions| - 1].counts.fields)
  }

  function Reported(c: Counts): int {
    if c.reasoning.Some? then c.reasoning.value else 0
  }

  function ModelReasoning(models: seq<Model>): int {
    if models == [] then 0 else ModelReasoning(models[..|models| - 1]) + Reported(models[|models| - 1].usage)
  }

  function SessionReasoning(sessions: seq<Session>): int {
    if sessions == [] then 0 else SessionReasoning(sessions[..|sessions| - 1]) + Reported(sessions[|sessions| - 1].counts)
  }

  function Cost(sessions: seq<Session>): real {
    if sessions == [] then 0.0 else Cost(sessions[..|sessions| - 1]) + sessions[|sessions| - 1].cost
  }

  function Ids(sessions: seq<Session>): seq<string> {
    Map((s: Session) => s.id, sessions)
  }

  function Abs(x: real): real {
    if x < 0.0 then -x else x
  }

  predicate ModelOk(m: Model) {
    ModelName(m.name) && ValidCounts(m.usage) && (m.usage.fields.total > 0 ==> m.usage.fallback == Some(false))
  }

  /** A session's own figures are the sums of its models'. */
  predicate SessionBalanced(s: Session) {
    && s.models != [] && (forall m :: m in s.models ==> ModelOk(m))
    && ModelSums(s.models) == s.counts.fields
    && (s.counts.reasoning.Some? ==>
          (forall m :: m in s.models ==> m.usage.reasoning.Some?) && ModelReasoning(s.models) == s.counts.reasoning.value)
  }

  predicate SessionPriced(s: Session) {
    ValidCounts(s.counts) && s.cost >= 0.0 && (s.counts.fields.total > 0 ==> s.cost != 0.0)
  }

  /** The report covers the expected sessions, one by one, and every total is the sum of its parts. */
  ghost predicate Balanced(report: Report, expected: seq<string>) {
    && expected != [] && multiset(Ids(report.sessions)) == multiset(expected) && Distinct(expected)
    && ValidCounts(report.totals) && report.cost >= 0.0 && (report.unpriced.Some? ==> report.unpriced.value == [])
    && (forall s :: s in report.sessions ==> SessionPriced(s) && SessionBalanced(s))
    && TotalsMatch(report)
  }

  ghost predicate TotalsMatch(report: Report) {
    && SessionSums(report.sessions) == report.totals.fields
    && Abs(Cost(report.sessions) - report.cost) <= TOLERANCE
    && (report.totals.reasoning.Some? ==>
          (forall s :: s in report.sessions ==> s.counts.reasoning.Some?) && SessionReasoning(report.sessions) == report.totals.reasoning.value)
  }

  // ----- Coverage by counting -----

  /** As many distinct expected ids as are expected: the ids are a permutation of the expected ones. */
  lemma Pigeonhole(ids: seq<string>, expected: seq<string>)
    requires |ids| == |expected| && Distinct(ids) && forall id :: id in ids ==> id in expected
    ensures Distinct(expected) && multiset(ids) == multiset(expected)
  {
    DistinctCardinality(ids);
    CardinalityBound(expected);
    SubsetCardinality(ToSet(ids), ToSet(expected));
    forall id ensures multiset(ids)[id] == multiset(expected)[id] {
      Multiplicity(ids, id);
      Multiplicity(expected, id);
      assert id in ids <==> id in ToSet(ids);
      assert id in expected <==> id in ToSet(expected);
    }
  }

  lemma {:induction false} Multiplicity(xs: seq<string>, x: string)
    requires Distinct(xs)
    ensures multiset(xs)[x] == if x in xs then 1 else 0
  {
    if xs != [] {
      assert xs == [xs[0]] + xs[1..];
      Multiplicity(xs[1..], x);
      assert xs[0] !in xs[1..];
    }
  }

  lemma PermutationFacts(report: Report, expected: seq<string>)
    requires multiset(Ids(report.sessions)) == multiset(expected) && Distinct(expected)
    ensures |report.sessions| == |expected| && Distinct(Ids(report.sessions))
    ensures forall s :: s in report.sessions ==> s.id in expected
  {
    var ids := Ids(report.sessions);
    SameElements(ids, expected);
    assert ToSet(ids) == ToSet(expected);
    DistinctCardinality(expected);
    CardinalityBound(ids);
    forall s | s in report.sessions ensures s.id in expected {
      var i :| 0 <= i < |report.sessions| && report.sessions[i] == s;
      assert ids[i] == s.id;
    }
  }

  // ----- Decoding -----

  /** The loop over the models of one session; `None` when they balance. */
  method CheckModels(s: Session) returns (problem: Option<CostError>)
    requires s.models != []
    ensures problem.None? <==> SessionBalanced(s)
  {
    var sums, reasoning, complete := ZERO, 0, true;
    var i := 0;
    while i < |s.models|
      invariant i <= |s.models|
      invariant sums == ModelSums(s.models[..i]) && reasoning == ModelReasoning(s.models[..i])
      invariant forall j :: 0 <= j < i ==> ModelOk(s.models[j])
      invariant complete <==> forall j :: 0 <= j < i ==> s.models[j].usage.reasoning.Some?
    {
      var m := s.models[i];
      if !ModelName(m.name) || !ValidCounts(m.usage) || (m.usage.fields.total > 0 && m.usage.fallback != Some(false)) {
        assert !ModelOk(m) && m in s.models;
        return Some(Unpriced);
      }
      assert s.models[..i + 1][..i] == s.models[..i];
      sums := Plus(sums, m.usage.fields);
      if m.usage.reasoning.None? {
        complete := false;
      } else {
        reasoning := reasoning + m.usage.reasoning.value;
      }
      i := i + 1;
    }
    assert s.models[..|s.models|] == s.models;
    if sums != s.counts.fields { return Some(ModelMismatch); }
    if s.counts.reasoning.Some? && (!complete || reasoning != s.counts.reasoning.value) {
      if !complete {
        ghost var j :| 0 <= j < |s.models| && s.models[j].usage.reasoning.None?;
        assert s.models[j] in s.models;
      }
      return Some(ReasoningMismatch);
    }
    return None;
  }

  predicate Opening(report: Report, expected: seq<string>) {
    && expected != [] && |report.sessions| == |expected| && ValidCounts(report.totals) && report.cost >= 0.0
    && (report.unpriced.Some? ==> report.unpriced.value == [])
  }

  ghost predicate CheckedUpTo(report: Report, expected: seq<string>, n: nat)
    requires n <= |report.sessions|
  {
    && Distinct(Ids(report.sessions[..n]))
    && forall i :: 0 <= i < n ==>
         report.sessions[i].id in expected && SessionPriced(report.sessions[i]) && SessionBalanced(report.sessions[i])
  }

  function Names(sessions: seq<Session>): set<string> {
    set s, m | s in sessions && m in s.models :: m.name
  }

  /** What the loop over the sessions has added up. */
  datatype Running = Running(sums: Sums, cost: real, reasoning: int, complete: bool, names: set<string>)

  function Count(r: Running, s: Session): Running {
    Running(Plus(r.sums, s.counts.fields), r.cost + s.cost, r.reasoning + Reported(s.counts),
            r.complete && s.counts.reasoning.Some?, r.names + set m | m in s.models :: m.name)
  }

  function Counted(sessions: seq<Session>): Running {
    if sessions == [] then Running(ZERO, 0.0, 0, true, {}) else Count(Counted(sessions[..|sessions| - 1]), sessions[|sessions| - 1])
  }

  lemma {:induction false} CountedMeaning(sessions: seq<Session>)
    ensures var r := Counted(sessions);
            && r.sums == SessionSums(sessions) && r.cost == Cost(sessions) && r.reasoning == SessionReasoning(sessions)
            && (r.complete <==> forall s :: s in sessions ==> s.counts.reasoning.Some?)
            && r.names == Names(sessions)
  {
    if sessions != [] {
      var before := sessions[..|sessions| - 1];
      CountedMeaning(before);
      assert sessions == before + [sessions[|sessions| - 1]];
    }
  }

  /** The loop over the sessions: the running sums, or the first problem. */
  method CheckSessions(report: Report, expected: seq<string>) returns (problem: Option<CostError>, running: Running)
    ensures problem.None? <==> CheckedUpTo(report, expected, |report.sessions|)
    ensures problem.None? ==> running == Counted(report.sessions)
  {
    problem, running := None, Running(ZERO, 0.0, 0, true, {});
    var seen: set<string> := {};
    var i := 0;
    while i < |report.sessions|
      invariant i <= |report.sessions| && CheckedUpTo(report, expected, i)
      invariant seen == ToSet(Ids(report.sessions[..i]))
      invariant running == Counted(report.sessions[..i])
    {
      var s := report.sessions[i];
      IdsSnoc(report.sessions, i);
      if s.id !in expected || s.id in seen || !SessionPriced(s) || s.models == [] {
        NotChecked(report, expected, i);
        return Some(BadSession), running;
      }
      var models := CheckModels(s);
      if models.Some? {
        NotChecked(report, expected, i);
        return models, running;
      }
      Checked(report, expected, i);
      assert report.sessions[..i + 1][..i] == report.sessions[..i];
      seen := seen + {s.id};
      running := Count(running, s);
      i := i + 1;
    }
    assert report.sessions[..|report.sessions|] == report.sessions;
  }

  lemma Checked(report: Report, expected: seq<string>, i: nat)
    requires i < |report.sessions| && CheckedUpTo(report, expected, i)
    requires var s := report.sessions[i];
             s.id in expected && s.id !in Ids(report.sessions[..i]) && SessionPriced(s) && SessionBalanced(s)
    ensures CheckedUpTo(report, expected, i + 1)
  {
    IdsSnoc(report.sessions, i);
  }

  lemma IdsSnoc(sessions: seq<Session>, i: nat)
    requires i < |sessions|
    ensures Ids(sessions[..i + 1]) == Ids(sessions[..i]) + [sessions[i].id]
    ensures ToSet(Ids(sessions[..i + 1])) == ToSet(Ids(sessions[..i])) + {sessions[i].id}
  {
  }

  /** A session that fails, or repeats an id, fails the whole report. */
  lemma NotChecked(report: Report, expected: seq<string>, i: nat)
    requires i < |report.sessions|
    requires var s := report.sessions[i];
             s.id !in expected || s.id in Ids(report.sessions[..i]) || !SessionPriced(s) || !SessionBalanced(s)
    ensures !CheckedUpTo(report, expected, |report.sessions|)
  {
    if report.sessions[i].id in Ids(report.sessions[..i]) {
      var j :| 0 <= j < i && Ids(report.sessions[..i])[j] == report.sessions[i].id;
      assert Ids(report.sessions[..|report.sessions|])[j] == Ids(report.sessions[..|report.sessions|])[i];
    }
  }

  /** `decodeCodexCostReport` accepts exactly the balanced reports. */
  method DecodeCodexCostReport(report: Report, expected: seq<string>) returns (r: Result<Usage, CostError>)
    ensures r.Ok? <==> Balanced(report, expected)
    ensures r.Ok? ==>
              && r.value.totalTokens == r.value.inputTokens + r.value.outputTokens
              && r.value.totalTokens == SessionSums(report.sessions).total
              && r.value.outputTokens == SessionSums(report.sessions).output
              && r.value.cachedInputTokens == SessionSums(report.sessions).cacheRead
              && r.value.cacheCreationInputTokens == SessionSums(report.sessions).cacheCreation
              && r.value.cachedInputTokens + r.value.cacheCreationInputTokens <= r.value.inputTokens
              && r.value.reasoningOutputTokens == report.totals.reasoning
              && r.value.costUsd == Cost(report.sessions)
              && (forall name :: r.value.model == Some(name) <==> Names(report.sessions) == {name})
  {
    if expected == [] || |report.sessions| != |expected| || !ValidCounts(report.totals) || report.cost < 0.0
       || (report.unpriced.Some? && exists name :: name in report.unpriced.value && !ModelName(name)) {
      Rejects(report, expected);
      return Err(Incomplete);
    }
    if report.unpriced.Some? && report.unpriced.value != [] { return Err(Unpriced); }
    BalancedMeansChecked(report, expected);
    var problem, running := CheckSessions(report, expected);
    if problem.Some? { return Err(problem.value); }
    var balanced := MatchTotals(report, running);
    if !balanced { return Err(TotalsMismatch); }
    CountedMeaning(report.sessions);
    var model := OnlyName(running.names);
    return Ok(UsageOf(running, report.totals, model));
  }

  function UsageOf(r: Running, totals: Counts, model: Option<string>): Usage {
    Usage(r.sums.input + r.sums.cacheRead + r.sums.cacheCreation, r.sums.cacheRead, r.sums.cacheCreation, r.sums.output,
          totals.reasoning, r.sums.total, model, r.cost)
  }

  method MatchTotals(report: Report, r: Running) returns (ok: bool)
    requires r == Counted(report.sessions) && forall s :: s in report.sessions ==> s.cost >= 0.0
    ensures ok <==> TotalsMatch(report)
  {
    CountedMeaning(report.sessions);
    CostPositive(report.sessions);
    ok := r.sums == report.totals.fields && r.cost >= 0.0 && Abs(r.cost - report.cost) <= TOLERANCE
          && (report.totals.reasoning.Some? ==> r.complete && r.reasoning == report.totals.reasoning.value);
  }

  method OnlyName(names: set<string>) returns (model: Option<string>)
    ensures forall name :: model == Some(name) <==> names == {name}
  {
    if |names| != 1 { return None; }
    var name :| name in names;
    Singleton(names, name);
    return Some(name);
  }

  lemma Singleton(names: set<string>, name: string)
    requires |names| == 1 && name in names
    ensures names == {name}
  {
    SubsetCardinality({name}, names);
  }

  lemma Rejects(report: Report, expected: seq<string>)
    requires !Opening(report, expected)
    ensures !Balanced(report, expected)
  {
    if multiset(Ids(report.sessions)) == multiset(expected) {
      SameElements(Ids(report.sessions), expected);
    }
  }

  lemma {:induction false} CostPositive(sessions: seq<Session>)
    requires forall s :: s in sessions ==> s.cost >= 0.0
    ensures Cost(sessions) >= 0.0
  {
    if sessions != [] {
      CostPositive(sessions[..|sessions| - 1]);
    }
  }

  lemma BalancedMeansChecked(report: Report, expected: seq<string>)
    requires Opening(report, expected)
    ensures Balanced(report, expected) <==>
              && CheckedUpTo(report, expected, |report.sessions|)
              && TotalsMatch(report)
  {
    var n := |report.sessions|;
    assert report.sessions[..n] == report.sessions;
    if CheckedUpTo(report, expected, n) {
      forall id | id in Ids(report.sessions) ensures id in expected {
        var i :| 0 <= i < n && Ids(report.sessions)[i] == id;
        assert report.sessions[i].id == id;
      }
      Pigeonhole(Ids(report.sessions), expected);
    }
    if Balanced(report, expected) {
      PermutationFacts(report, expected);
    }
  }
}
