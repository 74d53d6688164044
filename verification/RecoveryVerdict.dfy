/**
 What recovery may answer (src/runtime/reconcile.ts:780-859 and 1158-1247), said of flow, evidence and list alone: which
 publications it begins with, which of those the search found survive, when they are ready, and what is withheld.
 */
module RecoveryVerdict {
  import opened Basics
  import opened Flow
  import opened FlowPaths
  import opened RecoveryEvidence
  import opened RecoveryShapes
  import opened RecoveryLedger

  datatype Iteration =
    | Ready(baselineKeys: set<Key>, humanCutoff: Option<int>, reassessState: Option<StateId>)
    | Ambiguous(baselineKeys: set<Key>, reason: string)

  const NO_PATH := "provider stage cannot be reconstructed from the pinned flow"
  const UNDOCUMENTED := "documentation implementation boundary cannot be established from provider evidence"
  const UNIDENTIFIED := "publication identity cannot be verified for the active work"
  const NOT_REASSESSABLE := "published result cannot be reassessed for the recorded stage"
  const UNJUSTIFIED := "published results do not justify the provider stage"
  const UNAPPROVED := "published review does not approve the linked change request head"
  const UNAUTHORIZED := "published review author is not authorized"
  const NOT_ISOLATED := "current publication iteration cannot be isolated"
  const NO_PREDECESSOR := "Migrated human gate predecessor is unavailable"
  const GATE_NOT_ISOLATED := "Migrated human gate iteration cannot be isolated"
  const UNOWNED_MERGE := "merged change request ownership or identity is unavailable"

  function Last<T>(xs: seq<T>): T
    requires xs != []
  {
    xs[|xs| - 1]
  }

  function Front<T>(xs: seq<T>): seq<T> {
    if xs == [] then [] else xs[..|xs| - 1]
  }

  /** The publications that satisfy `of`, each as often as it was published, in publication order. */
  ghost predicate Arranged(collation: Key -> int, of: Publication -> bool, publications: seq<Publication>, list: seq<Publication>) {
    && SortedBy((a: Publication, b: Publication) => Earlier(collation, a, b), list)
    && forall p :: multiset(list)[p] == if of(p) then multiset(publications)[p] else 0
  }

  lemma SortedFilterIsArranged(collation: Key -> int, of: Publication -> bool, publications: seq<Publication>)
    ensures Arranged(collation, of, publications,
                     Sort((a: Publication, b: Publication) => Earlier(collation, a, b), Filter(of, publications)))
  {
    EarlierIsPreorder(collation);
    SortSorted((a: Publication, b: Publication) => Earlier(collation, a, b), Filter(of, publications));
    forall p ensures multiset(Filter(of, publications))[p] == if of(p) then multiset(publications)[p] else 0 {
      FilterCounts(of, publications, p);
    }
  }

  // ----- Answers given before the search (780-822) -----

  predicate AtMigratedGate(e: Evidence, flow: FlowDefinition, stage: StateId) {
    e.migration.Some? && e.migration.value.start == stage && flow.KindOf(stage) == Some(HumanGate)
  }

  /** What the owner published after a migration receipt, change requests aside. */
  predicate LaterThanReceipt(e: Evidence, owner: Option<string>, p: Publication) {
    owner == Some(p.controller) && !IsRetained(e, p.key) && RecoveryKind(e, p.key) != Some(ChangeRequest)
  }

  predicate RetainedFor(flow: FlowDefinition, stage: StateId, x: Retained) {
    flow.Target(x.stage, AgentSucceeded) == Some(stage)
  }

  /** The one retained result whose success leads to the gate is a comment that is there. */
  ghost predicate RetainedResult(e: Evidence, flow: FlowDefinition, stage: StateId, x: Retained)
    requires e.migration.Some?
  {
    OnlyOne(y => RetainedFor(flow, stage, y), e.migration.value.retained, x) && CommentFor(e, x.key).Some?
  }

  /** The time of the retained result, or of the human input that the receipt names and that came after it. */
  ghost predicate IsReceiptCutoff(e: Evidence, result: CommentObject, cutoff: int)
    requires e.migration.Some?
  {
    var input := if e.migration.value.humanInput.Some? then CommentById(e.comments, e.migration.value.humanInput.value) else None;
    && cutoff >= result.createdAt && (input.Some? ==> cutoff >= input.value.createdAt)
    && (cutoff == result.createdAt || (input.Some? && cutoff == input.value.createdAt))
  }

  function CommentById(comments: seq<CommentObject>, id: string): (r: Option<CommentObject>)
    ensures r.Some? ==> r.value in comments && r.value.id == id
    ensures r.None? ==> forall c :: c in comments ==> c.id != id
  {
    if comments == [] then None else if comments[0].id == id then Some(comments[0]) else CommentById(comments[1..], id)
  }

  predicate KnownComments(e: Evidence, baseline: set<Key>, list: seq<Publication>) {
    forall p :: p in list ==> RecoveryKind(e, p.key) == Some(Comment) && p.key in baseline
  }

  /**
   A migration that starts at this human gate: without a retained result it is ambiguous, with nothing published since it is
   ready, else the newest comment is withheld and reassessed, and human input counts from the comment before it on.
   */
  ghost predicate GateAnswer(e: Evidence, flow: FlowDefinition, stage: StateId, owner: Option<string>, collation: Key -> int,
                             baseline: set<Key>, r: Iteration)
    requires e.migration.Some?
  {
    || ((forall x :: !RetainedResult(e, flow, stage, x)) && r == Ambiguous(baseline, NO_PREDECESSOR))
    || exists x, cutoff, later :: GateAnsweredBy(e, flow, stage, owner, collation, baseline, x, cutoff, later, r)
  }

  /** The answer by the retained result, the cutoff it sets and what was published since. */
  ghost predicate GateAnsweredBy(e: Evidence, flow: FlowDefinition, stage: StateId, owner: Option<string>, collation: Key -> int,
                                 baseline: set<Key>, x: Retained, cutoff: int, later: seq<Publication>, r: Iteration)
    requires e.migration.Some?
  {
    && RetainedResult(e, flow, stage, x) && IsReceiptCutoff(e, CommentFor(e, x.key).value, cutoff)
    && Arranged(collation, p => LaterThanReceipt(e, owner, p), e.publications, later)
    && r == if later == [] then Ready(baseline, Some(cutoff), None)
            else if !KnownComments(e, baseline, later) then Ambiguous(baseline, GATE_NOT_ISOLATED)
            else Ready(baseline - {Last(later).key}, Some(if |later| == 1 then cutoff else later[|later| - 2].createdAt), Some(x.stage))
  }

  /** A migrated provider wait whose change did not move. */
  predicate UnmovedWait(e: Evidence, flow: FlowDefinition, stage: StateId) {
    && flow.KindOf(stage) == Some(ProviderWait) && e.migration.Some? && e.migration.value.start == stage && |e.migration.value.retained| > 0
    && e.linked.Some? && e.linked.value.headSha == e.migration.value.changeHead
  }

  predicate MergedWait(e: Evidence, flow: FlowDefinition, stage: StateId) {
    flow.KindOf(stage) == Some(ProviderWait) && e.migration.None? && e.linked.Some? && e.linked.value.state.Merged?
  }

  /** The linked change is the ticket's only one, and the owner published it. */
  predicate IsOwnersOnlyChange(e: Evidence, owner: Option<string>)
    requires e.linked.Some?
  {
    |e.changes| == 1 && PublishedBy(e, owner, ChangeRequest, e.linked.value.id)
  }

  predicate PublishedBy(e: Evidence, owner: Option<string>, kind: PublicationKind, id: string) {
    exists p :: p in e.publications && owner == Some(p.controller) && HasIdentity(e, p.key, kind, id)
  }

  predicate PublishedWithProvenance(e: Evidence, owner: Option<string>, review: string) {
    exists p :: p in e.publications && owner == Some(p.controller) && p.eligible && HasIdentity(e, p.key, Review, review)
  }

  // ----- Where the search begins (823-859) -----

  /** Published by the owner after any receipt, and no review without provenance. */
  predicate IsOwners(e: Evidence, owner: Option<string>, p: Publication) {
    && !IsRetained(e, p.key) && (owner.Some? ==> p.controller == owner.value)
    && (RecoveryKind(e, p.key) == Some(Review) ==> p.eligible)
  }

  predicate IsRework(e: Evidence, owner: Option<string>, r: ReviewObject) {
    r.verdict.ChangesRequested? && PublishedWithProvenance(e, owner, r.id)
  }

  ghost predicate IsLatestRework(e: Evidence, owner: Option<string>, r: ReviewObject) {
    r in e.reviews && IsRework(e, owner, r) && forall q :: q in e.reviews && IsRework(e, owner, q) ==> q.submittedAt <= r.submittedAt
  }

  predicate IsDocumented(flow: FlowDefinition) {
    exists id :: id in flow.states && flow.states[id].contract == Some(DocumentationResult)
  }

  /** A report of the linked change whose result the owner had reviewed by the time of the rework. */
  predicate ReportConsumed(e: Evidence, owner: Option<string>, rework: int, p: Publication)
    requires IsReport(e, p)
  {
    exists r :: r in e.reviews && r.headSha == CommentFor(e, p.key).value.report.value.resultHead
                && p.createdAt < r.submittedAt <= rework && PublishedBy(e, owner, Review, r.id)
  }

  /** A publication of the iteration that the rework closed. */
  predicate Consumed(e: Evidence, owner: Option<string>, rework: int, p: Publication) {
    && p.createdAt <= rework
    && (RecoveryKind(e, p.key) == Some(Review)
        || (RecoveryKind(e, p.key) == Some(Documentation) && IsReport(e, p) && ReportConsumed(e, owner, rework, p)))
  }

  /** The owner's publications; in a documented flow without the reviews and reports before the newest rework of an older head. */
  ghost predicate Opened(e: Evidence, flow: FlowDefinition, owner: Option<string>, collation: Key -> int, list: seq<Publication>) {
    if !IsDocumented(flow) || e.migration.Some? || e.linked.None? || (forall r :: r in e.reviews ==> !IsRework(e, owner, r)) then
      Arranged(collation, p => IsOwners(e, owner, p), e.publications, list)
    else exists r ::
      && IsLatestRework(e, owner, r)
      && Arranged(collation, p => IsOwners(e, owner, p) && (r.headSha != e.linked.value.headSha ==> !Consumed(e, owner, r.submittedAt, p)),
                  e.publications, list)
  }

  // ----- What survives the search (1158-1179) -----

  /** At a review stage, a review that is not known to be of the linked head. */
  predicate OffHead(e: Evidence, flow: FlowDefinition, stage: StateId, p: Publication) {
    && flow.ContractOf(stage) == Some(ReviewResult) && RecoveryKind(e, p.key) == Some(Review)
    && !(e.linked.Some? && exists r :: r in e.reviews && HasIdentity(e, p.key, Review, r.id) && r.headSha == e.linked.value.headSha)
  }

  /** On a migrated path with a review, an approval of some other head. */
  predicate Outdated(e: Evidence, committed: seq<PublicationKind>, p: Publication) {
    e.migration.Some? && Review in committed && ApprovesOtherHead(e, p)
  }

  /** Reviews off the head go, and with the keys `gone` approvals of other heads by writers; everything else stays as it was. */
  ghost predicate Survived(e: Evidence, flow: FlowDefinition, stage: StateId, committed: seq<PublicationKind>, found: seq<Publication>,
                           active: seq<Publication>, gone: set<Key>, log: seq<PermissionRead>, since: nat)
  {
    && Subsequence(active, found)
    && (forall p :: multiset(active)[p] == if OffHead(e, flow, stage, p) || p.key in gone then 0 else multiset(found)[p])
    && forall p :: p in found && !OffHead(e, flow, stage, p) ==>
         if p.key in gone then Outdated(e, committed, p) && AuthorVouched(e, p, log, since)
         else Outdated(e, committed, p) ==> SomeRefused(log, since)
  }

  // ----- When the survivors are ready (1180-1247) -----

  predicate IsDocumentation(e: Evidence, p: Publication) {
    RecoveryKind(e, p.key) == Some(Documentation)
  }

  /** A report of the linked change whose head has not moved since. */
  predicate UnmovedReport(e: Evidence, p: Publication) {
    && IsReport(e, p)
    && var report := CommentFor(e, p.key).value.report.value;
    && report.resultHead == e.linked.value.headSha && report.inputHead == report.resultHead
  }

  ghost predicate IsOnlyReport(e: Evidence, active: seq<Publication>, p: Publication) {
    OnlyOne(q => IsDocumentation(e, q), active, p)
  }

  ghost predicate DocumentationSettled(e: Evidence, flow: FlowDefinition, stage: StateId, active: seq<Publication>) {
    && (forall p :: p in active && IsDocumentation(e, p) ==> UnmovedReport(e, p))
    && (flow.ContractOf(stage) == Some(DocumentationResult) ==> exists p :: IsOnlyReport(e, active, p))
  }

  ghost predicate AllIdentified(e: Evidence, baseline: set<Key>, active: seq<Publication>) {
    forall p :: p in active ==> p.key in baseline && RecoveryKind(e, p.key).Some?
  }

  /** An agent stage that publishes a comment and whose success leads to `stage`. */
  predicate LeadsByComment(e: Evidence, flow: FlowDefinition, stage: StateId, id: StateId) {
    && flow.KindOf(id) == Some(Agent) && flow.Target(id, AgentSucceeded) == Some(stage)
    && ResultPublicationKind(flow.ContractOf(id), e.migration.Some?) == Some(Comment)
  }

  predicate IsWaiting(flow: FlowDefinition, stage: StateId) {
    flow.KindOf(stage) == Some(HumanGate) || flow.KindOf(stage) == Some(ProviderWait)
  }

  /** The stage waits behind one commenting predecessor, and nothing is missing or left over but that one's result. */
  ghost predicate Reassesses(e: Evidence, flow: FlowDefinition, stage: StateId, active: seq<Publication>, committed: seq<PublicationKind>,
                             predecessor: StateId)
  {
    && IsWaiting(flow, stage) && OnlyOne(id => LeadsByComment(e, flow, stage, id), flow.order, predecessor)
    && MatchesPrefix(e, Front(committed), active) && (|active| == |committed| || |active| == |Front(committed)|)
  }

  ghost predicate SomeReassesses(e: Evidence, flow: FlowDefinition, stage: StateId, active: seq<Publication>, committed: seq<PublicationKind>) {
    exists predecessor :: Reassesses(e, flow, stage, active, committed, predecessor)
  }

  /** The predecessor's result, when it is there. */
  function Newest(active: seq<Publication>, committed: seq<PublicationKind>): Option<Publication> {
    if |active| == |committed| && active != [] then Some(Last(active)) else None
  }

  predicate ApprovesLinked(e: Evidence, p: Publication) {
    && ReviewFor(e, p.key).Some? && e.linked.Some? && ReviewFor(e, p.key).value.verdict.Approved?
    && ReviewFor(e, p.key).value.headSha == e.linked.value.headSha
  }

  predicate ReviewsApprove(e: Evidence, active: seq<Publication>, committed: seq<PublicationKind>)
    requires |committed| <= |active|
  {
    forall i :: 0 <= i < |committed| && committed[i] == Review ==> ApprovesLinked(e, active[i])
  }

  /** Behind the required results there is nothing, or one result of the kind the stage itself publishes. */
  predicate Isolated(e: Evidence, flow: FlowDefinition, stage: StateId, active: seq<Publication>, committed: seq<PublicationKind>) {
    || |active| == |committed|
    || (|active| == |committed| + 1 && flow.KindOf(stage) == Some(Agent) && ResultPublicationKind(flow.ContractOf(stage), e.migration.Some?).Some?
        && RecoveryKind(e, Last(active).key) == ResultPublicationKind(flow.ContractOf(stage), e.migration.Some?))
  }

  /** Flow and evidence justify the stage, whoever may have written the reviews. */
  ghost predicate Justified(e: Evidence, flow: FlowDefinition, stage: StateId, baseline: set<Key>, active: seq<Publication>, committed: seq<PublicationKind>)
  {
    && DocumentationSettled(e, flow, stage, active) && AllIdentified(e, baseline, active)
    && if SomeReassesses(e, flow, stage, active, committed) then
         Newest(active, committed).Some? ==> RecoveryKind(e, Newest(active, committed).value.key) == Some(Comment)
       else MatchesPrefix(e, committed, active) && ReviewsApprove(e, active, committed) && Isolated(e, flow, stage, active, committed)
  }

  /** An ambiguous answer's reason is true of flow, evidence and list, or of a permission. */
  ghost predicate Objects(e: Evidence, flow: FlowDefinition, stage: StateId, baseline: set<Key>, active: seq<Publication>, committed: seq<PublicationKind>,
                          refused: bool, reason: string)
  {
    if reason == UNDOCUMENTED then !DocumentationSettled(e, flow, stage, active)
    else if reason == UNIDENTIFIED then !AllIdentified(e, baseline, active)
    else if reason == NOT_REASSESSABLE then
      && SomeReassesses(e, flow, stage, active, committed)
      && Newest(active, committed).Some? && RecoveryKind(e, Newest(active, committed).value.key) != Some(Comment)
    else
      && !SomeReassesses(e, flow, stage, active, committed)
      && if reason == UNJUSTIFIED then !MatchesPrefix(e, committed, active)
         else if reason == UNAPPROVED then MatchesPrefix(e, committed, active) && !ReviewsApprove(e, active, committed)
         else if reason == UNAUTHORIZED then MatchesPrefix(e, committed, active) && refused
         else reason == NOT_ISOLATED && !Isolated(e, flow, stage, active, committed)
  }

  /** Only the permission objection can be raised against a justified stage. */
  lemma ObjectionMeaning(e: Evidence, flow: FlowDefinition, stage: StateId, baseline: set<Key>, active: seq<Publication>, committed: seq<PublicationKind>,
                         refused: bool, reason: string)
    requires Objects(e, flow, stage, baseline, active, committed, refused, reason)
    ensures Justified(e, flow, stage, baseline, active, committed) ==> reason == UNAUTHORIZED && refused
  {
  }

  /** The required approvals were given by people who may write. */
  ghost predicate ReviewersVouched(e: Evidence, active: seq<Publication>, committed: seq<PublicationKind>, log: seq<PermissionRead>, since: nat)
    requires |committed| <= |active|
  {
    forall i :: 0 <= i < |committed| && committed[i] == Review ==>
      ReviewFor(e, active[i].key).Some? && Vouched(log, since, ReviewFor(e, active[i].key).value.actor)
  }

  /** What a ready answer carries: the predecessor to reassess, the one key withheld, and from when on human input counts. */
  ghost predicate Certified(e: Evidence, flow: FlowDefinition, stage: StateId, baseline: set<Key>, active: seq<Publication>, committed: seq<PublicationKind>,
                            r: Iteration)
    requires r.Ready?
  {
    if SomeReassesses(e, flow, stage, active, committed) then
      var newest := Newest(active, committed);
      && r.reassessState.Some? && Reassesses(e, flow, stage, active, committed, r.reassessState.value)
      && r.baselineKeys == baseline - (if newest.Some? then {newest.value.key} else {})
      && r.humanCutoff == (if e.migration.Some? && newest.Some? then Some(newest.value.createdAt)
                           else if |committed| <= 1 then None else Some(active[|committed| - 2].createdAt))
    else
      && r.reassessState.None? && |committed| <= |active|
      && r.baselineKeys == baseline - (if |active| > |committed| then {Last(active).key} else {})
      && r.humanCutoff == (if committed == [] then None else Some(active[|committed| - 1].createdAt))
  }

  /** The answer is ready exactly when the stage is justified and no review author was refused; either answer says what it must. */
  ghost predicate Judged(e: Evidence, flow: FlowDefinition, stage: StateId, baseline: set<Key>, active: seq<Publication>, committed: seq<PublicationKind>,
                         log: seq<PermissionRead>, since: nat, r: Iteration)
  {
    && (r.Ready? <==> Justified(e, flow, stage, baseline, active, committed) && !SomeRefused(log, since))
    && (r.Ready? ==>
          && Certified(e, flow, stage, baseline, active, committed, r)
          && (r.reassessState.None? ==> ReviewersVouched(e, active, committed, log, since)))
    && (r.Ambiguous? ==> r.baselineKeys == baseline && Objects(e, flow, stage, baseline, active, committed, SomeRefused(log, since), r.reason))
  }

  // ----- Withholding -----

  /** Nothing is added to the baseline, at most one key is withheld, and an ambiguous answer withholds none. */
  ghost predicate WithholdsAtMostOne(baseline: set<Key>, r: Iteration) {
    && r.baselineKeys <= baseline
    && |baseline - r.baselineKeys| <= 1
    && (r.Ambiguous? ==> r.baselineKeys == baseline)
  }

  lemma WithheldAtMostOne(baseline: set<Key>, key: Key)
    ensures |baseline - (baseline - {key})| <= 1
  {
    assert baseline - (baseline - {key}) <= {key};
    SubsetCardinality(baseline - (baseline - {key}), {key});
  }

  lemma WithholdsNothing(baseline: set<Key>, r: Iteration)
    requires r.baselineKeys == baseline
    ensures WithholdsAtMostOne(baseline, r)
  {
    assert baseline - baseline == {};
  }

  /** The key withheld is the newest survivor's, or none. */
  lemma CertifiedWithholds(e: Evidence, flow: FlowDefinition, stage: StateId, baseline: set<Key>, active: seq<Publication>, committed: seq<PublicationKind>,
                           r: Iteration)
    requires r.Ready? && Certified(e, flow, stage, baseline, active, committed, r)
    ensures WithholdsAtMostOne(baseline, r)
  {
    if active != [] {
      WithheldAtMostOne(baseline, Last(active).key);
    }
    assert r.baselineKeys == baseline || (active != [] && r.baselineKeys == baseline - {Last(active).key});
    assert baseline - baseline == {};
  }

  ghost predicate IsNewestLater(e: Evidence, owner: Option<string>, p: Publication) {
    && p in e.publications && LaterThanReceipt(e, owner, p)
    && forall q :: q in e.publications && LaterThanReceipt(e, owner, q) ==> q.createdAt <= p.createdAt
  }

  /** At a migrated gate the key withheld is that of the owner's newest comment since the receipt. */
  lemma GateWithholdsNewest(e: Evidence, flow: FlowDefinition, stage: StateId, owner: Option<string>, collation: Key -> int, baseline: set<Key>, r: Iteration)
    requires e.migration.Some? && GateAnswer(e, flow, stage, owner, collation, baseline, r)
    ensures r.Ready? && r.reassessState.Some? ==> exists p ::
              IsNewestLater(e, owner, p) && RecoveryKind(e, p.key) == Some(Comment) && p.key in baseline && r.baselineKeys == baseline - {p.key}
    ensures r.Ambiguous? || r.reassessState.None? ==> r.baselineKeys == baseline
    ensures WithholdsAtMostOne(baseline, r)
  {
    if r.Ready? && r.reassessState.Some? {
      var x, cutoff, later :| GateAnsweredBy(e, flow, stage, owner, collation, baseline, x, cutoff, later, r);
      NewestIsLast(e, owner, collation, later);
      WithheldAtMostOne(baseline, Last(later).key);
    } else {
      WithholdsNothing(baseline, r);
    }
  }

  lemma NewestIsLast(e: Evidence, owner: Option<string>, collation: Key -> int, later: seq<Publication>)
    requires later != [] && Arranged(collation, p => LaterThanReceipt(e, owner, p), e.publications, later)
    ensures Last(later) in later && IsNewestLater(e, owner, Last(later))
  {
    var newest := Last(later);
    assert newest in later && newest in multiset(later);
    assert newest in multiset(e.publications);
    forall q | q in e.publications && LaterThanReceipt(e, owner, q) ensures q.createdAt <= newest.createdAt {
      assert q in multiset(e.publications) && q in multiset(later);
      var i :| 0 <= i < |later| && later[i] == q;
      assert i < |later| - 1 ==> Earlier(collation, later[i], later[|later| - 1]);
    }
  }
}
