/**
 Which controller owns the work on a ticket, from the publications found on it (src/provider/publication.ts:96-115,
 src/runtime/recovery.ts:10-64).
 */
module Ownership {
  import opened Basics

  /** `createdAt` is absent when the timestamp does not parse; `subject` is the kind its key names. */
  datatype Publication = Publication(key: string, subject: string, createdAt: Option<int>, controller: string, config: string, eligible: bool)

  datatype OwnerError = InvalidTimestamp

  function Time(p: Publication): int {
    if p.createdAt.Some? then p.createdAt.value else 0
  }

  /** Time first, then key. */
  predicate Before(a: Publication, b: Publication) {
    Time(a) < Time(b) || (Time(a) == Time(b) && LexLe(a.key, b.key))
  }

  predicate StrictlyBefore(a: Publication, b: Publication) {
    Before(a, b) && !Before(b, a)
  }

  lemma BeforeIsPreorder()
    ensures TotalPreorder(Before)
  {
    forall a: Publication, b: Publication ensures Before(a, b) || Before(b, a) {
      LexTotal(a.key, b.key);
    }
    forall a: Publication, b: Publication, c: Publication | Before(a, b) && Before(b, c) ensures Before(a, c) {
      if Time(a) == Time(b) && Time(b) == Time(c) { LexTransitive(a.key, b.key, c.key); }
    }
  }

  predicate Timed(publications: seq<Publication>) {
    forall p :: p in publications ==> p.createdAt.Some?
  }

  function Eligible(publications: seq<Publication>): seq<Publication> {
    Filter((p: Publication) => p.eligible, publications)
  }

  /** `electOwner` */
  function ElectOwner(publications: seq<Publication>): Result<Option<Publication>, OwnerError> {
    if !Timed(publications) then Err(InvalidTimestamp)
    else
      var ordered := Sort(Before, Eligible(publications));
      Ok(if ordered == [] then None else Some(ordered[0]))
  }

  /** An eligible publication no eligible one precedes. */
  ghost predicate Least(publications: seq<Publication>, p: Publication) {
    p in publications && p.eligible && forall q :: q in publications && q.eligible ==> Before(p, q)
  }

  lemma ElectedIsLeast(publications: seq<Publication>)
    requires Timed(publications)
    ensures ElectOwner(publications).Ok?
    ensures ElectOwner(publications).value.Some? ==> Least(publications, ElectOwner(publications).value.value)
    ensures ElectOwner(publications).value.None? <==> forall p :: p in publications ==> !p.eligible
  {
    var kept := Eligible(publications);
    var ordered := Sort(Before, kept);
    BeforeIsPreorder();
    SortSorted(Before, kept);
    SameElements(ordered, kept);
    if ordered != [] {
      assert ordered[0] in ordered;
      forall q | q in kept ensures Before(ordered[0], q) {
        assert q in ordered;
        LexTotal(q.key, q.key);
      }
    } else {
      assert kept == [];
    }
  }

  ghost predicate UniqueLeast(publications: seq<Publication>) {
    forall a, b :: Least(publications, a) && Least(publications, b) ==> a == b
  }

  lemma ElectedByElements(publications: seq<Publication>, other: seq<Publication>)
    requires UniqueLeast(publications) && forall p :: p in publications <==> p in other
    ensures ElectOwner(other) == ElectOwner(publications)
  {
    if Timed(publications) {
      ElectedIsLeast(publications);
      ElectedIsLeast(other);
      if ElectOwner(publications).value.Some? {
        assert Least(publications, ElectOwner(other).value.value);
      }
    }
  }

  /** A least publication that comes first in the list is elected. */
  lemma FirstLeastWins(p: Publication, rest: seq<Publication>)
    requires Timed([p] + rest) && Least([p] + rest, p)
    ensures ElectOwner([p] + rest) == Ok(Some(p))
  {
    assert ([p] + rest)[1..] == rest;
    var kept := Eligible(rest);
    assert Eligible([p] + rest) == [p] + kept;
    assert ([p] + kept)[1..] == kept;
    var ordered := Sort(Before, kept);
    SameElements(ordered, kept);
    if ordered != [] {
      assert ordered[0] in ordered;
      assert ordered[0] in [p] + rest;
    }
  }

  lemma MoveToFront(publications: seq<Publication>, p: Publication) returns (moved: seq<Publication>)
    requires p in publications
    ensures multiset(moved) == multiset(publications) && moved != [] && moved[0] == p
  {
    var i :| 0 <= i < |publications| && publications[i] == p;
    moved := [p] + (publications[..i] + publications[i + 1..]);
    assert publications == publications[..i] + [p] + publications[i + 1..];
  }

  /**
   The owner does not depend on the order of the list exactly when the earliest eligible publication is unique: equal
   time and key with different contents let the order decide.
   */
  lemma OrderIndependentIffLeastUnique(publications: seq<Publication>)
    requires Timed(publications)
    ensures (forall other :: multiset(other) == multiset(publications) ==> ElectOwner(other) == ElectOwner(publications))
            <==> UniqueLeast(publications)
  {
    if UniqueLeast(publications) {
      forall other | multiset(other) == multiset(publications) ensures ElectOwner(other) == ElectOwner(publications) {
        SameElements(other, publications);
        ElectedByElements(publications, other);
      }
    } else {
      var a, b :| Least(publications, a) && Least(publications, b) && a != b;
      var first := MoveToFront(publications, a);
      var second := MoveToFront(publications, b);
      SameElements(first, publications);
      SameElements(second, publications);
      assert first == [a] + first[1..] && second == [b] + second[1..];
      FirstLeastWins(a, first[1..]);
      FirstLeastWins(b, second[1..]);
      assert ElectOwner(first) != ElectOwner(second);
    }
  }

  /** Provider keys are unique, and then list order never matters. */
  lemma UniqueKeysMakeOrderIrrelevant(publications: seq<Publication>, other: seq<Publication>)
    requires Timed(publications) && multiset(other) == multiset(publications)
    requires forall p, q :: p in publications && q in publications && p.key == q.key ==> p == q
    ensures ElectOwner(other) == ElectOwner(publications)
  {
    forall a, b | Least(publications, a) && Least(publications, b) ensures a == b {
      LexTotal(a.key, b.key);
    }
    OrderIndependentIffLeastUnique(publications);
  }

  /** More publications, all later than the owner, change nothing. */
  lemma LaterPublicationsKeepTheOwner(publications: seq<Publication>, grown: seq<Publication>)
    requires Timed(publications) && Timed(grown) && UniqueLeast(publications) && ElectOwner(publications).value.Some?
    requires forall p :: p in publications ==> p in grown
    requires forall p :: p in grown ==> p in publications || StrictlyBefore(ElectOwner(publications).value.value, p)
    ensures ElectOwner(grown) == ElectOwner(publications)
  {
    ElectedIsLeast(publications);
    ElectedIsLeast(grown);
    var owner := ElectOwner(publications).value.value;
    var elected := ElectOwner(grown).value.value;
    assert Before(elected, owner);
    assert elected in publications;
    assert Least(publications, elected);
  }

  // ----- Publications whose provenance hangs on the owner -----

  predicate Unanchored(owner: Option<Publication>, p: Publication) {
    !p.eligible && (owner.None? || owner.value.controller != p.controller || owner.value.config != p.config || Time(owner.value) >= Time(p))
  }

  /** `unanchoredPublicationKeys` */
  function UnanchoredKeys(publications: seq<Publication>): Result<seq<string>, OwnerError> {
    var owner := ElectOwner(publications);
    if owner.Err? then Err(owner.error)
    else Ok(Map((p: Publication) => p.key, Filter((p: Publication) => Unanchored(owner.value, p), publications)))
  }

  lemma AnchoredMeaning(publications: seq<Publication>)
    requires UnanchoredKeys(publications) == Ok([])
    ensures forall p :: p in publications && !p.eligible ==>
              exists o :: Least(publications, o) && o.controller == p.controller && o.config == p.config && Time(o) < Time(p)
  {
    ElectedIsLeast(publications);
    var owner := ElectOwner(publications).value;
    var loose := Filter((p: Publication) => Unanchored(owner, p), publications);
    assert |Map((p: Publication) => p.key, loose)| == |loose|;
    forall p | p in publications && !p.eligible
      ensures exists o :: Least(publications, o) && o.controller == p.controller && o.config == p.config && Time(o) < Time(p)
    {
      assert p !in loose;
      assert Least(publications, owner.value);
    }
  }

  // ----- The recovery decision -----

  datatype ChangeState = Open | Closed | Merged

  datatype Change = Change(provider: string, repository: string, number: int, headSha: string, state: ChangeState)

  datatype Boundary = Known | Fresh | AmbiguousBoundary

  datatype Migration = Migration(owner: Publication, targetConfig: string)

  datatype Evidence = Evidence(
    activationPresent: bool, open: bool, labels: seq<string>, linked: Option<Change>,
    changes: seq<Change>, complete: bool, legacyActive: bool, boundary: Boundary,
    ambiguities: seq<string>, migration: Option<Migration>, publications: seq<Publication>)

  datatype Kind = Inactive | Foreign | Ambiguous | Resume | Reassess

  datatype Decision = Decision(kind: Kind, owner: Option<Publication>, reason: Option<string>)

  const STAGE_PREFIX := "agent-stage:"

  predicate IsStage(l: string) {
    STAGE_PREFIX <= l
  }

  function Stages(labels: seq<string>): seq<string> {
    Filter((l: string) => IsStage(l), labels)
  }

  predicate MergedCompletion(e: Evidence) {
    && "agent-stage:awaiting-merge" in e.labels && |e.changes| == 1
    && e.linked.Some? && e.linked.value.state.Merged?
    && e.changes[0].provider == e.linked.value.provider && e.changes[0].repository == e.linked.value.repository
    && e.changes[0].number == e.linked.value.number && e.changes[0].headSha == e.linked.value.headSha
  }

  /** The checks that look at the ticket only. */
  function TicketVerdict(e: Evidence): Option<Decision> {
    if (!e.activationPresent || !e.open) && !MergedCompletion(e) then Some(Decision(Inactive, None, Some("ticket is inactive")))
    else if !e.complete then Some(Decision(Ambiguous, None, Some("provider evidence is incomplete")))
    else if e.legacyActive then Some(Decision(Ambiguous, None, Some("active legacy state requires migration")))
    else if e.boundary.AmbiguousBoundary? then Some(Decision(Ambiguous, None, Some("active work boundary is ambiguous")))
    else if e.ambiguities != [] || |e.changes| > 1 then
      Some(Decision(Ambiguous, None, Some(if e.ambiguities != [] then e.ambiguities[0] else "multiple linked change requests")))
    else None
  }

  /** The owner recovery reckons with: the elected one, or a migration's with the migrated configuration. */
  function OwnerOf(e: Evidence): Result<Option<Publication>, OwnerError> {
    if e.migration.Some? then Ok(Some(e.migration.value.owner.(config := e.migration.value.targetConfig))) else ElectOwner(e.publications)
  }

  function WinningPins(e: Evidence, controller: string): set<string> {
    set p | p in e.publications && p.controller == controller :: p.config
  }

  function OwnerVerdict(e: Evidence, owner: Publication): Option<Decision> {
    var pins := WinningPins(e, owner.controller);
    if |pins| > 1 || (pins == {} && e.migration.None?) then
      Some(Decision(Ambiguous, Some(owner), Some("winning controller publications have conflicting configuration pins")))
    else if exists p :: p in e.publications && p.controller != owner.controller && p.subject == "change-request" then
      Some(Decision(Ambiguous, Some(owner), Some("a losing controller published a code change")))
    else None
  }

  function StageVerdict(e: Evidence, owner: Option<Publication>): Decision {
    if e.boundary.Fresh? && e.publications == [] then Decision(Resume, None, None)
    else
      var stages := Stages(e.labels);
      if |stages| != 1 then Decision(Ambiguous, owner, Some("provider stage is missing or contradictory"))
      else
        assert stages[0] in stages;
        var stage := stages[0][|STAGE_PREFIX|..];
        if stage == "blocked" || stage == "needs-human" then Decision(Ambiguous, owner, Some(stage + " resume target is unavailable"))
        else Decision(if owner.Some? then Reassess else Resume, owner, None)
  }

  /** `classifyRecovery` */
  function ClassifyRecovery(e: Evidence, controllerId: string): Result<Decision, OwnerError> {
    var ticket := TicketVerdict(e);
    if ticket.Some? then Ok(ticket.value) else OwnedVerdict(e, controllerId, OwnerOf(e), UnanchoredKeys(e.publications))
  }

  /** The decision once the ticket itself raises no objection. */
  function OwnedVerdict(e: Evidence, controllerId: string, owner: Result<Option<Publication>, OwnerError>, unanchored: Result<seq<string>, OwnerError>)
    : Result<Decision, OwnerError>
  {
    if owner.Err? then Err(owner.error)
    else if unanchored.Err? then Err(unanchored.error)
    else if unanchored.value != [] then
      Ok(Decision(Ambiguous, owner.value, Some("publication provenance is unavailable without an earlier matching owner")))
    else if owner.value.Some? && owner.value.value.controller != controllerId then
      Ok(Decision(Foreign, owner.value, Some("active work belongs to another controller")))
    else
      var conflict := if owner.value.Some? then OwnerVerdict(e, owner.value.value) else None;
      Ok(if conflict.Some? then conflict.value else StageVerdict(e, owner.value))
  }

  predicate IsReassess(d: Result<Decision, OwnerError>) {
    d.Ok? && d.value.kind.Reassess?
  }

  predicate Reassesses(e: Evidence, controllerId: string) {
    IsReassess(ClassifyRecovery(e, controllerId))
  }

  lemma VerdictChecks(e: Evidence, controllerId: string, owner: Result<Option<Publication>, OwnerError>, unanchored: Result<seq<string>, OwnerError>)
    requires IsReassess(OwnedVerdict(e, controllerId, owner, unanchored))
    ensures owner.Ok? && owner.value.Some? && owner.value.value.controller == controllerId
    ensures unanchored == Ok([]) && OwnerVerdict(e, owner.value.value).None?
  {
  }

  lemma VerdictForOthers(e: Evidence, other: string, owner: Result<Option<Publication>, OwnerError>, unanchored: Result<seq<string>, OwnerError>)
    requires owner.Ok? && owner.value.Some? && owner.value.value.controller != other && unanchored == Ok([])
    ensures OwnedVerdict(e, other, owner, unanchored).Ok? && OwnedVerdict(e, other, owner, unanchored).value.kind.Foreign?
  {
  }

  lemma TicketNeverReassesses(e: Evidence)
    ensures TicketVerdict(e).Some? ==> !TicketVerdict(e).value.kind.Reassess?
  {
  }

  lemma ReassessChecks(e: Evidence, controllerId: string)
    requires Reassesses(e, controllerId)
    ensures OwnerOf(e).Ok? && OwnerOf(e).value.Some? && OwnerOf(e).value.value.controller == controllerId
    ensures UnanchoredKeys(e.publications) == Ok([])
    ensures OwnerVerdict(e, OwnerOf(e).value.value).None? && TicketVerdict(e).None?
  {
    TicketNeverReassesses(e);
    VerdictChecks(e, controllerId, OwnerOf(e), UnanchoredKeys(e.publications));
  }

  lemma OnePin(e: Evidence, owner: Publication, p: Publication)
    requires OwnerVerdict(e, owner).None? && owner in e.publications
    requires p in e.publications && p.controller == owner.controller
    ensures p.config == owner.config
  {
    var pins := WinningPins(e, owner.controller);
    assert p.config in pins && owner.config in pins;
    SubsetCardinality({p.config, owner.config}, pins);
  }

  /** What a controller that reassesses may rely on. */
  lemma ReassessMeaning(e: Evidence, controllerId: string)
    requires Reassesses(e, controllerId)
    ensures OwnerOf(e).Ok? && OwnerOf(e).value.Some? && OwnerOf(e).value.value.controller == controllerId
    ensures e.migration.None? ==>
              var owner := OwnerOf(e).value.value;
              && Least(e.publications, owner)
              && (forall p :: p in e.publications && p.controller == controllerId ==> p.config == owner.config)
    ensures forall p :: p in e.publications && p.controller != controllerId ==> p.subject != "change-request"
    ensures forall p :: p in e.publications && !p.eligible ==>
              exists o :: Least(e.publications, o) && o.controller == p.controller && o.config == p.config && Time(o) < Time(p)
  {
    ReassessChecks(e, controllerId);
    AnchoredMeaning(e.publications);
    if e.migration.None? {
      ElectedIsLeast(e.publications);
      var owner := OwnerOf(e).value.value;
      forall p | p in e.publications && p.controller == controllerId ensures p.config == owner.config {
        OnePin(e, owner, p);
      }
    }
  }

  /**
   When one controller reassesses, every other controller finds the work foreign on the same evidence, and reassesses on
   no evidence that has grown by later publications only, whatever else about the ticket has changed.
   */
  lemma AtMostOneControllerReassesses(e: Evidence, grown: Evidence, controllerId: string, other: string)
    requires e.migration.None? && grown.migration.None? && Reassesses(e, controllerId) && controllerId != other
    requires UniqueLeast(e.publications)
    requires forall p :: p in e.publications ==> p in grown.publications
    requires forall p :: p in grown.publications ==>
               p in e.publications || (p.createdAt.Some? && StrictlyBefore(OwnerOf(e).value.value, p))
    ensures ClassifyRecovery(e, other).Ok? && ClassifyRecovery(e, other).value.kind.Foreign?
    ensures !Reassesses(grown, other)
  {
    ReassessChecks(e, controllerId);
    VerdictForOthers(e, other, OwnerOf(e), UnanchoredKeys(e.publications));
    if Reassesses(grown, other) {
      ReassessChecks(grown, other);
      LaterPublicationsKeepTheOwner(e.publications, grown.publications);
      assert false;
    }
  }

  /** With a migration the same holds for every two pieces of evidence that carry it. */
  lemma MigrationKeepsTheController(e: Evidence, later: Evidence, controllerId: string, other: string)
    requires e.migration.Some? && later.migration.Some? && later.migration.value.owner == e.migration.value.owner
    requires Reassesses(e, controllerId) && Reassesses(later, other)
    ensures other == controllerId
  {
    ReassessChecks(e, controllerId);
    ReassessChecks(later, other);
  }
}
