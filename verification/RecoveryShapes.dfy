/**
 The shapes of finished work in a list of publications, from which crash recovery cuts them
 (src/runtime/reconcile.ts:865-1157): what the flow and the evidence say, whoever may have written it.
 */
module RecoveryShapes {
  import opened Basics
  import opened Flow
  import opened FlowPaths
  import opened RecoveryEvidence

  predicate IsBugReceipt(e: Evidence, p: Publication) {
    CommentFor(e, p.key).Some? && CommentFor(e, p.key).value.bugReceipt
  }

  predicate IsReview(e: Evidence, p: Publication, verdict: Verdict) {
    ReviewFor(e, p.key).Some? && ReviewFor(e, p.key).value.verdict == verdict && IsSha(ReviewFor(e, p.key).value.headSha)
  }

  predicate ApprovesOtherHead(e: Evidence, p: Publication) {
    IsReview(e, p, Approved) && e.linked.Some? && ReviewFor(e, p.key).value.headSha != e.linked.value.headSha
  }

  /** Documentation for the linked change. */
  predicate IsReport(e: Evidence, p: Publication) {
    && CommentFor(e, p.key).Some? && CommentFor(e, p.key).value.report.Some?
    && e.linked.Some? && CommentFor(e, p.key).value.report.value.change == e.linked.value.number
  }

  predicate NoInputBetween(e: Evidence, from: CommentObject, to: CommentObject) {
    forall c :: c in e.comments && from.createdAt < c.createdAt < to.createdAt ==> c.marked || c.command
  }

  /** A reply to `p` that came before whatever was published next. */
  predicate IsReplyTo(c: CommentObject, p: Publication, next: Option<Publication>) {
    IsHumanReply(c) && c.createdAt > p.createdAt && (next.Some? ==> c.createdAt < next.value.createdAt)
  }

  function Behind(list: seq<Publication>, k: nat): Option<Publication> {
    if k + 1 < |list| then Some(list[k + 1]) else None
  }

  function PathFrom(flow: FlowDefinition, from: StateId, target: StateId): Option<seq<PublicationKind>> {
    PublicationPath(flow, from, target, from != "")
  }

  function ContractAt(flow: FlowDefinition, state: Option<StateId>): Option<ResultContract> {
    if state.Some? then flow.ContractOf(state.value) else None
  }

  // ----- Failed CI after a complete prefix (867-905) -----

  /** A verification whose failed check leads back to development. */
  predicate IsCheck(flow: FlowDefinition, verification: StateId) {
    flow.ContractOf(verification) == Some(Verification) && ContractAt(flow, flow.Target(verification, CiFailed)) == Some(Development)
  }

  /** Each result of a prefix is a review that approves a commit, or a comment that is there. */
  predicate Attributable(e: Evidence, kinds: seq<PublicationKind>, publications: seq<Publication>)
    requires |kinds| == |publications|
  {
    forall i :: 0 <= i < |kinds| ==> if kinds[i].Review? then IsReview(e, publications[i], Approved) else CommentFor(e, publications[i].key).Some?
  }

  /** The failed check at `n` is what the stage corrects, or a comment already follows it. */
  predicate Corrected(e: Evidence, stage: StateId, ciTarget: Option<StateId>, list: seq<Publication>, n: nat) {
    ciTarget == Some(stage) || (n + 1 < |list| && RecoveryKind(e, list[n + 1].key) == Some(Comment))
  }

  /**
   The list begins with the results of a complete success path to the verification and the bug receipt behind them; each
   result can be attributed, its reviews approve a commit; and unless the stage is the one that corrects, a comment follows.
   */
  predicate FailedCheckLeads(e: Evidence, flow: FlowDefinition, stage: StateId, start: StateId, list: seq<Publication>, verification: StateId) {
    && PathFrom(flow, start, verification).Some?
    && var path := PathFrom(flow, start, verification).value;
    && MatchesPrefix(e, path, list) && |path| < |list| && IsBugReceipt(e, list[|path|])
    && Corrected(e, stage, flow.Target(verification, CiFailed), list, |path|)
    && Attributable(e, path, list[..|path|])
  }

  // ----- A moved head, and a rejection at the start of a replay (906-959) -----

  /** The receipt's head is gone, and the stage repeats its review when the change moves. */
  predicate UpdateApplies(e: Evidence, flow: FlowDefinition, boundary: StateId)
    requires e.migration.Some?
  {
    && e.linked.Some? && IsSha(e.linked.value.headSha) && e.linked.value.headSha != e.migration.value.changeHead
    && (flow.ContractOf(boundary) == Some(Verification)
        || (flow.KindOf(boundary) == Some(ProviderWait) && |e.migration.value.retained| > 0))
    && ContractAt(flow, flow.Target(boundary, ChangeRequestUpdated)) == Some(ReviewResult)
  }

  predicate BugReceiptLeads(e: Evidence, list: seq<Publication>) {
    list != [] && RecoveryKind(e, list[0].key) == Some(Comment) && IsBugReceipt(e, list[0])
  }

  /** Recovery starts at a review whose rework is development, and a review that sends some commit back leads. */
  predicate RejectionLeads(e: Evidence, flow: FlowDefinition, start: StateId, list: seq<Publication>) {
    && flow.ContractOf(start) == Some(ReviewResult) && ContractAt(flow, flow.Target(start, ReviewChangesRequested)) == Some(Development)
    && list != [] && IsReview(e, list[0], ChangesRequested)
  }

  // ----- Answered human gates (964-1028) -----

  function ResultStage(e: Evidence, key: Key): Option<StateId> {
    var comment := CommentFor(e, key);
    if comment.Some? then comment.value.resultStage else None
  }

  /** The agent stages whose success leads to `target`, in declaration order. */
  function AgentPredecessors(flow: FlowDefinition, target: StateId): seq<StateId> {
    Filter((id: StateId) => flow.KindOf(id) == Some(Agent) && flow.Target(id, AgentSucceeded) == Some(target), flow.order)
  }

  function SolePredecessor(flow: FlowDefinition, target: StateId): Option<StateId> {
    if |AgentPredecessors(flow, target)| == 1 then Some(AgentPredecessors(flow, target)[0]) else None
  }

  function PathLength(flow: FlowDefinition, from: StateId, target: StateId): nat {
    if PathFrom(flow, from, target).Some? then |PathFrom(flow, from, target).value| else 0
  }

  predicate IsGateBetween(flow: FlowDefinition, from: StateId, gate: StateId, stage: StateId) {
    flow.KindOf(gate) == Some(HumanGate) && PathFrom(flow, from, gate).Some? && PathFrom(flow, gate, stage).Some?
  }

  /** The human gates that lie between `from` and the stage, nearest first. */
  function Gates(flow: FlowDefinition, from: StateId, stage: StateId): seq<StateId> {
    Sort((a: StateId, b: StateId) => PathLength(flow, from, a) <= PathLength(flow, from, b),
         Filter((id: StateId) => IsGateBetween(flow, from, id, stage), flow.order))
  }

  /** Where the last result before the gate stands, when the way to the gate ends with a comment and is part of the way on. */
  function ResultIndex(flow: FlowDefinition, from: StateId, gate: StateId, committed: seq<PublicationKind>): Option<nat> {
    var path := PathFrom(flow, from, gate);
    if path.Some? && path.value != [] && path.value[|path.value| - 1] == Comment && path.value <= committed then Some(|path.value| - 1) else None
  }

  /** Where several gates are passed, a result counts for one only if it names the gate's sole predecessor. */
  function MustName(flow: FlowDefinition, gate: StateId, several: bool): Option<StateId> {
    if several then SolePredecessor(flow, gate) else None
  }

  /** The result at `index`, if any, can be told to belong to the gate. */
  predicate Tellable(e: Evidence, flow: FlowDefinition, list: seq<Publication>, gate: StateId, index: nat, several: bool) {
    several ==> SolePredecessor(flow, gate).Some? && index < |list| && ResultStage(e, list[index].key) == SolePredecessor(flow, gate)
  }

  /** A comment that was answered before the next comment; at the gate itself there must be a next one. */
  predicate AnsweredResult(e: Evidence, stage: StateId, list: seq<Publication>, gate: StateId, k: nat, named: Option<StateId>) {
    && k < |list| && (named.Some? ==> ResultStage(e, list[k].key) == named)
    && RecoveryKind(e, list[k].key) == Some(Comment) && CommentFor(e, list[k].key).Some?
    && (exists c :: c in e.comments && IsReplyTo(c, list[k], Behind(list, k)))
    && (if k + 1 < |list| then RecoveryKind(e, list[k + 1].key) == Some(Comment) && CommentFor(e, list[k + 1].key).Some? else stage != gate)
  }

  /** The results from `from` up to `to` are answered. */
  predicate AnsweredRun(e: Evidence, stage: StateId, list: seq<Publication>, gate: StateId, from: nat, to: nat, named: Option<StateId>) {
    forall k :: from <= k < to ==> AnsweredResult(e, stage, list, gate, k, named)
  }

  /** A gate result that a later one replaced: answered, and downstream of the gate the next one is answered too. */
  predicate ResultRevised(e: Evidence, flow: FlowDefinition, stage: StateId, list: seq<Publication>, gate: StateId, index: nat, several: bool) {
    && Tellable(e, flow, list, gate, index, several)
    && AnsweredResult(e, stage, list, gate, index, MustName(flow, gate, several))
    && (stage != gate ==> AnsweredResult(e, stage, list, gate, index + 1, MustName(flow, gate, several)))
  }

  /** With several gates, the first one without a result that is told apart and answered is as far as the ticket got. */
  predicate StopsAt(e: Evidence, flow: FlowDefinition, stage: StateId, list: seq<Publication>, gate: StateId, index: nat, several: bool) {
    several && !(Tellable(e, flow, list, gate, index, several) && AnsweredResult(e, stage, list, gate, index, MustName(flow, gate, several)))
  }

  predicate PassedBefore(e: Evidence, flow: FlowDefinition, stage: StateId, start: StateId, list: seq<Publication>, committed: seq<PublicationKind>, n: nat)
  {
    var gates := Gates(flow, start, stage);
    forall j :: 0 <= j < n && j < |gates| && ResultIndex(flow, start, gates[j], committed).Some? ==>
      !StopsAt(e, flow, stage, list, gates[j], ResultIndex(flow, start, gates[j], committed).value, |gates| > 1)
  }

  /** One of the gates the ticket passed or stands at still has a revised result. */
  predicate RevisionLeft(e: Evidence, flow: FlowDefinition, stage: StateId, start: StateId, list: seq<Publication>, committed: seq<PublicationKind>) {
    var gates := Gates(flow, start, stage);
    flow.KindOf(start) == Some(Agent)
    && exists i :: 0 <= i < |gates| && ResultIndex(flow, start, gates[i], committed).Some?
                   && PassedBefore(e, flow, stage, start, list, committed, i)
                   && ResultRevised(e, flow, stage, list, gates[i], ResultIndex(flow, start, gates[i], committed).value, |gates| > 1)
  }

  /** Behind a migrated gate, a leading result too many that was answered before downstream work (1029-1053). */
  predicate AnsweredLeads(e: Evidence, flow: FlowDefinition, stage: StateId, list: seq<Publication>, committed: seq<PublicationKind>)
    requires e.migration.Some?
  {
    && e.migration.value.start != stage && flow.KindOf(e.migration.value.start) == Some(HumanGate)
    && AnsweredFirst(e, list, |committed|)
  }

  predicate AnsweredFirst(e: Evidence, list: seq<Publication>, needed: nat) {
    && |list| > needed && RecoveryKind(e, list[0].key) == Some(Comment)
    && exists c :: c in e.comments && IsReplyTo(c, list[0], Behind(list, 0))
  }

  // ----- Superseded development completions (1054-1126) -----

  predicate Documented(flow: FlowDefinition, development: StateId) {
    ContractAt(flow, flow.Target(development, AgentSucceeded)) == Some(DocumentationResult)
  }

  /** The review behind a development, directly or through its documentation. */
  function ReviewOf(flow: FlowDefinition, development: StateId): Option<StateId> {
    var next := flow.Target(development, AgentSucceeded);
    if Documented(flow, development) then flow.Target(next.value, AgentSucceeded) else next
  }

  predicate IsReviewedDevelopment(flow: FlowDefinition, development: StateId) {
    && flow.ContractOf(development) == Some(Development)
    && ContractAt(flow, ReviewOf(flow, development)) == Some(ReviewResult)
    && flow.Target(ReviewOf(flow, development).value, ReviewChangesRequested) == Some(development)
  }

  /** Failed checks send a development back to itself, so that completions can follow one another without a rejection. */
  predicate RetriesCi(flow: FlowDefinition, development: StateId) {
    && |flow.requiredChecks| > 0 && ReviewOf(flow, development).Some?
    && (flow.Target(development, CiFailed) == Some(development) || flow.Target(ReviewOf(flow, development).value, CiFailed) == Some(development))
  }

  /** The completion at `index` with the report behind it, when documentation is due and there. */
  function CompletionLength(e: Evidence, list: seq<Publication>, index: nat, documented: bool): nat
    requires index + 1 < |list|
  {
    if documented && RecoveryKind(e, list[index + 1].key) == Some(Documentation) then 2 else 1
  }

  /** Another completion follows, with no human input between the two. */
  predicate RetriedAt(e: Evidence, list: seq<Publication>, index: nat, length: nat)
    requires index + length < |list|
  {
    && RecoveryKind(e, list[index + length].key) == Some(Comment)
    && CommentFor(e, list[index].key).Some? && CommentFor(e, list[index + length].key).Some?
    && NoInputBetween(e, CommentFor(e, list[index].key).value, CommentFor(e, list[index + length].key).value)
  }

  /** A review follows that sends this very work back, with its documentation if that is due. */
  predicate RejectedAt(e: Evidence, list: seq<Publication>, index: nat, length: nat, documented: bool)
    requires 1 <= length <= 2 && index + length < |list|
    requires length == 2 ==> IsReport(e, list[index + 1])
  {
    && RecoveryKind(e, list[index + length].key) == Some(Review) && (documented ==> length == 2)
    && CommentFor(e, list[index].key).Some? && IsReview(e, list[index + length], ChangesRequested)
    && (length == 2 ==> CommentFor(e, list[index + 1].key).value.report.value.resultHead == ReviewFor(e, list[index + 2].key).value.headSha)
  }

  /** A completion at `index` that was retried or rejected. */
  predicate SupersededAt(e: Evidence, list: seq<Publication>, index: nat, documented: bool, retriesCi: bool) {
    && index + 1 < |list| && RecoveryKind(e, list[index].key) == Some(Comment)
    && var length := CompletionLength(e, list, index, documented);
    && (length == 2 ==> IsReport(e, list[index + 1])) && index + length < |list|
    && ((retriesCi && RetriedAt(e, list, index, length)) || RejectedAt(e, list, index, length, documented))
  }

  /** The list runs through the results before a development stage to a completion of it that was superseded. */
  predicate CompletionSuperseded(e: Evidence, flow: FlowDefinition, start: StateId, list: seq<Publication>, development: StateId) {
    && IsReviewedDevelopment(flow, development) && ReachesTo(e, flow, start, list, development)
    && SupersededAt(e, list, |PathFrom(flow, start, development).value|, Documented(flow, development), RetriesCi(flow, development))
  }

  predicate ReachesTo(e: Evidence, flow: FlowDefinition, start: StateId, list: seq<Publication>, state: StateId) {
    PathFrom(flow, start, state).Some? && MatchesPrefix(e, PathFrom(flow, start, state).value, list)
  }

  // ----- Verified approvals of an earlier head (1127-1156) -----

  /** An approval of a head that is not the linked one, and the verification behind it. */
  predicate OldApprovalAt(e: Evidence, list: seq<Publication>, index: nat) {
    index + 1 < |list| && ApprovesOtherHead(e, list[index]) && IsBugReceipt(e, list[index + 1])
  }

  /** A verification that a moved head sends back to review, reached by way of an approval. */
  predicate IsRepeatedVerification(flow: FlowDefinition, start: StateId, verification: StateId) {
    && flow.ContractOf(verification) == Some(Verification)
    && ContractAt(flow, flow.Target(verification, ChangeRequestUpdated)) == Some(ReviewResult)
    && PathFrom(flow, start, verification).Some?
    && var path := PathFrom(flow, start, verification).value; path != [] && path[|path| - 1] == Review
  }

  predicate OldApprovalLeft(e: Evidence, flow: FlowDefinition, start: StateId, list: seq<Publication>, verification: StateId) {
    && IsRepeatedVerification(flow, start, verification) && ReachesTo(e, flow, start, list, verification)
    && OldApprovalAt(e, list, |PathFrom(flow, start, verification).value| - 1)
  }

  // ----- Nothing left -----

  /** Nothing at the head of the list moves the start: no failed check, and where the head moved no receipt of it. */
  predicate HeadSettled(e: Evidence, flow: FlowDefinition, stage: StateId, opening: StateId, start: StateId, list: seq<Publication>)
    requires e.migration.Some?
  {
    && (|flow.requiredChecks| > 0 ==> forall id :: id in flow.order && IsCheck(flow, id) ==> !FailedCheckLeads(e, flow, stage, opening, list, id))
    && start == (if UpdateApplies(e, flow, opening) then flow.Target(opening, ChangeRequestUpdated).value else opening)
    && (UpdateApplies(e, flow, opening) && flow.ContractOf(opening) == Some(Verification) ==> !BugReceiptLeads(e, list))
    && !RejectionLeads(e, flow, start, list)
  }

  /** No iteration on the way to the stage is finished and still listed. */
  predicate WaySettled(e: Evidence, flow: FlowDefinition, stage: StateId, start: StateId, list: seq<Publication>, committed: seq<PublicationKind>)
    requires e.migration.Some?
  {
    && !RevisionLeft(e, flow, stage, start, list, committed)
    && !AnsweredLeads(e, flow, stage, list, committed)
    && (forall id :: id in flow.order ==> !CompletionSuperseded(e, flow, start, list, id))
    && (e.linked.Some? ==> forall id :: id in flow.order ==> !OldApprovalLeft(e, flow, start, list, id))
  }

  /** A round of the search that began at `opening` finds nothing to retire on the way from `start` to the stage. */
  predicate NothingLeft(e: Evidence, flow: FlowDefinition, stage: StateId, opening: Option<StateId>, start: Option<StateId>,
                        list: seq<Publication>, committed: seq<PublicationKind>)
  {
    && e.migration.Some? && opening.Some? && start.Some?
    && HeadSettled(e, flow, stage, opening.value, start.value, list)
    && WaySettled(e, flow, stage, start.value, list, committed)
  }
}
