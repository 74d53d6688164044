/**
 The ledger of crash recovery (src/runtime/reconcile.ts:860-1157): what was asked of the provider, which blocks were cut
 out of the list of publications, where, why, and on whose permission. The provider's answers are arbitrary.
 */
module RecoveryLedger {
  import opened Basics
  import opened Flow
  import opened FlowPaths
  import opened RecoveryEvidence
  import opened RecoveryShapes

  datatype PermissionRead = PermissionRead(actor: Actor, permission: Permission)

  const READ_FAILED := "provider permission read failed"

  /** The provider as recovery uses it: any answer may come back, or none, and each answer is logged. */
  class Provider {
    const answers: (nat, Actor) -> Option<Permission>
    var calls: nat
    var log: seq<PermissionRead>
    ghost var failures: nat

    constructor (answers: (nat, Actor) -> Option<Permission>)
      ensures log == [] && failures == 0
    {
      this.answers := answers;
      calls, log, failures := 0, [], 0;
    }

    method ReadPermissionOf(actor: Actor) returns (r: Option<Permission>)
      modifies this
      ensures r.None? ==> log == old(log) && failures == old(failures) + 1
      ensures r.Some? ==> log == old(log) + [PermissionRead(actor, r.value)] && failures == old(failures)
    {
      r := answers(calls, actor);
      calls := calls + 1;
      if r.Some? { log := log + [PermissionRead(actor, r.value)]; } else { failures := failures + 1; }
    }
  }

  /** Since position `since` of the log, somebody was read as not allowed to write. */
  ghost predicate SomeRefused(log: seq<PermissionRead>, since: nat) {
    exists k :: since <= k < |log| && !IsAuthorized(log[k].permission)
  }

  /** Since position `since` of the log, `actor` was read as allowed to write. */
  ghost predicate Vouched(log: seq<PermissionRead>, since: nat, actor: Actor) {
    exists k :: since <= k < |log| && log[k].actor == actor && IsAuthorized(log[k].permission)
  }

  /** Why a block left the list: all its authors may write, or a reply between it and its successor came from someone who may. */
  datatype Reason = AuthorsMayWrite | AnsweredByWriter

  /** Which finished iteration a block was. */
  datatype Closing =
    | CheckFailed(verification: StateId)  // the results of a prefix, then the report of a failed check
    | HeadMoved                           // a leading verification, or the approval behind it, of a head that is gone
    | Rejected                            // a review that sends the work back
    | Revised(gate: StateId, newer: Publication)          // gate results, each answered before the next one
    | Answered(behind: Option<Publication>)               // a result answered before downstream work
    | Retried(development: StateId, next: Publication)    // a completion that another follows without human input between
    | ReworkRejected(development: StateId)                // a completion and the review that rejects it
    | ApprovalSuperseded(verification: StateId)           // an approval of an older head and the verification behind it

  datatype Drop = Drop(block: seq<Publication>, closing: Closing, reason: Reason, since: nat)

  /** Where a block was cut from: the start of recovery then, the list before the cut, and the place. */
  datatype Cut = Cut(start: StateId, list: seq<Publication>, at: nat, drop: Drop)

  /** What the evidence must say for a block to count as finished. */
  ghost predicate Warranted(e: Evidence, block: seq<Publication>, closing: Closing) {
    match closing
    case CheckFailed(_) =>
      block != [] && IsBugReceipt(e, block[|block| - 1])
      && forall i :: 0 <= i < |block| - 1 ==> IsReview(e, block[i], Approved) || CommentFor(e, block[i].key).Some?
    case HeadMoved =>
      |block| == 1 && e.migration.Some? && e.linked.Some?
      && IsSha(e.linked.value.headSha) && e.linked.value.headSha != e.migration.value.changeHead
      && (IsBugReceipt(e, block[0]) || ApprovesOtherHead(e, block[0]))
    case Rejected => |block| == 1 && IsReview(e, block[0], ChangesRequested)
    case Revised(_, newer) => forall p :: p in block ==> RecoveryKind(e, p.key) == Some(Comment)
    case Answered(behind) => |block| == 1 && RecoveryKind(e, block[0].key) == Some(Comment)
    case Retried(_, next) =>
      1 <= |block| <= 2 && RecoveryKind(e, block[0].key) == Some(Comment) && RecoveryKind(e, next.key) == Some(Comment)
      && CommentFor(e, block[0].key).Some? && CommentFor(e, next.key).Some?
      && NoInputBetween(e, CommentFor(e, block[0].key).value, CommentFor(e, next.key).value)
      && (|block| == 2 ==> IsReport(e, block[1]))
    case ReworkRejected(_) =>
      2 <= |block| <= 3 && RecoveryKind(e, block[0].key) == Some(Comment)
      && IsReview(e, block[|block| - 1], ChangesRequested)
      && (|block| == 3 ==> IsReport(e, block[1])
                           && CommentFor(e, block[1].key).value.report.value.resultHead == ReviewFor(e, block[2].key).value.headSha)
    case ApprovalSuperseded(_) => |block| == 2 && ApprovesOtherHead(e, block[0]) && IsBugReceipt(e, block[1])
  }

  /** The block of `n` publications at `at` of the list has the shape its closing names, by flow and evidence. */
  ghost predicate Placed(e: Evidence, flow: FlowDefinition, stage: StateId, start: StateId, list: seq<Publication>, at: nat, n: nat, closing: Closing) {
    && e.migration.Some? && at + n <= |list|
    && match closing
       case CheckFailed(verification) =>
         && |flow.requiredChecks| > 0 && verification in flow.order && IsCheck(flow, verification)
         && FailedCheckLeads(e, flow, stage, start, list, verification)
         && at == 0 && n == |PathFrom(flow, start, verification).value| + 1
       case HeadMoved =>
         && UpdateApplies(e, flow, start) && flow.ContractOf(start) == Some(Verification)
         && at == 0 && n == 1 && (BugReceiptLeads(e, list) || ApprovesOtherHead(e, list[0]))
       case Rejected => RejectionLeads(e, flow, start, list) && at == 0 && n == 1
       case Revised(gate, _) => RevisionPlaced(e, flow, stage, start, list, at, n, gate)
       case Answered(_) =>
         && PathFrom(flow, start, stage).Some? && AnsweredLeads(e, flow, stage, list, PathFrom(flow, start, stage).value)
         && at == 0 && n == 1
       case Retried(development, _) =>
         && CompletionPlaced(e, flow, start, list, at, development) && RetriesCi(flow, development)
         && n == CompletionLength(e, list, at, Documented(flow, development)) && at + n < |list| && RetriedAt(e, list, at, n)
       case ReworkRejected(development) =>
         && CompletionPlaced(e, flow, start, list, at, development)
         && var length := CompletionLength(e, list, at, Documented(flow, development));
         && n == length + 1 && (length == 2 ==> IsReport(e, list[at + 1])) && RejectedAt(e, list, at, length, Documented(flow, development))
       case ApprovalSuperseded(verification) =>
         && verification in flow.order && OldApprovalLeft(e, flow, start, list, verification)
         && at == |PathFrom(flow, start, verification).value| - 1 && n == 2
  }

  ghost predicate RevisionPlaced(e: Evidence, flow: FlowDefinition, stage: StateId, start: StateId, list: seq<Publication>, at: nat, n: nat, gate: StateId) {
    var gates := Gates(flow, start, stage);
    && flow.KindOf(start) == Some(Agent) && PathFrom(flow, start, stage).Some? && gate in gates
    && ResultIndex(flow, start, gate, PathFrom(flow, start, stage).value) == Some(at)
    && Tellable(e, flow, list, gate, at, |gates| > 1)
    && AnsweredRun(e, stage, list, gate, at, if stage == gate then at + n else at + n + 1, MustName(flow, gate, |gates| > 1))
  }

  ghost predicate CompletionPlaced(e: Evidence, flow: FlowDefinition, start: StateId, list: seq<Publication>, at: nat, development: StateId) {
    && development in flow.order && IsReviewedDevelopment(flow, development) && ReachesTo(e, flow, start, list, development)
    && at == |PathFrom(flow, start, development).value| && at + 1 < |list| && RecoveryKind(e, list[at].key) == Some(Comment)
  }

  lemma CheckPlaced(e: Evidence, flow: FlowDefinition, stage: StateId, start: StateId, list: seq<Publication>, verification: StateId)
    requires e.migration.Some? && |flow.requiredChecks| > 0 && verification in flow.order && IsCheck(flow, verification)
    requires FailedCheckLeads(e, flow, stage, start, list, verification)
    ensures Placed(e, flow, stage, start, list, 0, |PathFrom(flow, start, verification).value| + 1, CheckFailed(verification))
  {
  }

  lemma RetriedPlaced(e: Evidence, flow: FlowDefinition, stage: StateId, start: StateId, list: seq<Publication>, at: nat, development: StateId, next: Publication)
    requires e.migration.Some? && CompletionPlaced(e, flow, start, list, at, development) && RetriesCi(flow, development)
    requires at + CompletionLength(e, list, at, Documented(flow, development)) < |list|
    requires RetriedAt(e, list, at, CompletionLength(e, list, at, Documented(flow, development)))
    ensures Placed(e, flow, stage, start, list, at, CompletionLength(e, list, at, Documented(flow, development)), Retried(development, next))
  {
  }

  lemma RejectedPlaced(e: Evidence, flow: FlowDefinition, stage: StateId, start: StateId, list: seq<Publication>, at: nat, development: StateId)
    requires e.migration.Some? && CompletionPlaced(e, flow, start, list, at, development)
    requires var length := CompletionLength(e, list, at, Documented(flow, development));
             at + length < |list| && (length == 2 ==> IsReport(e, list[at + 1])) && RejectedAt(e, list, at, length, Documented(flow, development))
    ensures Placed(e, flow, stage, start, list, at, CompletionLength(e, list, at, Documented(flow, development)) + 1, ReworkRejected(development))
  {
  }

  /** Each cut was made where it is said to, and cut by cut the list went from what it was to what it is. */
  ghost predicate Chained(initial: seq<Publication>, cuts: seq<Cut>, active: seq<Publication>) {
    if cuts == [] then active == initial
    else
      var c := cuts[|cuts| - 1]; var n := |c.drop.block|;
      && c.at + n <= |c.list| && c.drop.block == c.list[c.at..c.at + n]
      && active == c.list[..c.at] + c.list[c.at + n..] && Chained(initial, cuts[..|cuts| - 1], c.list)
  }

  ghost predicate Traced(e: Evidence, flow: FlowDefinition, stage: StateId, initial: seq<Publication>, active: seq<Publication>,
                         drops: seq<Drop>, cuts: seq<Cut>)
  {
    && |cuts| == |drops| && Chained(initial, cuts, active)
    && forall i :: 0 <= i < |cuts| ==>
         cuts[i].drop == drops[i] && Placed(e, flow, stage, cuts[i].start, cuts[i].list, cuts[i].at, |drops[i].block|, drops[i].closing)
  }

  /** Why recovery starts somewhere else: a failed check or a rejection was cut out, or the head moved. */
  datatype Move = AfterCheck(from: StateId, verification: StateId) | AfterUpdate(from: StateId) | AfterRejection(from: StateId)

  function Destination(flow: FlowDefinition, m: Move): Option<StateId> {
    match m
    case AfterCheck(_, verification) => flow.Target(verification, CiFailed)
    case AfterUpdate(from) => flow.Target(from, ChangeRequestUpdated)
    case AfterRejection(from) => flow.Target(from, ReviewChangesRequested)
  }

  ghost predicate WasCut(cuts: seq<Cut>, from: StateId, closing: Closing) {
    exists i :: 0 <= i < |cuts| && cuts[i].start == from && cuts[i].drop.closing == closing
  }

  ghost predicate Grounds(e: Evidence, flow: FlowDefinition, cuts: seq<Cut>, m: Move) {
    match m
    case AfterCheck(from, verification) => WasCut(cuts, from, CheckFailed(verification))
    case AfterUpdate(from) => e.migration.Some? && UpdateApplies(e, flow, from)
    case AfterRejection(from) => WasCut(cuts, from, Rejected)
  }

  /** Move by move, recovery came from the receipt's start to the one it has now. */
  ghost predicate Led(e: Evidence, flow: FlowDefinition, cuts: seq<Cut>, moves: seq<Move>, start: Option<StateId>) {
    if moves == [] then start == if e.migration.Some? then Some(e.migration.value.start) else None
    else
      var m := moves[|moves| - 1];
      Grounds(e, flow, cuts, m) && start == Destination(flow, m) && Led(e, flow, cuts, moves[..|moves| - 1], Some(m.from))
  }

  lemma {:induction false} LedGrows(e: Evidence, flow: FlowDefinition, cuts: seq<Cut>, more: seq<Cut>, moves: seq<Move>, start: Option<StateId>)
    requires Led(e, flow, cuts, moves, start) && cuts <= more
    ensures Led(e, flow, more, moves, start)
  {
    if moves != [] {
      var m := moves[|moves| - 1];
      LedGrows(e, flow, cuts, more, moves[..|moves| - 1], Some(m.from));
      if m.AfterCheck? { WasCutGrows(cuts, more, m.from, CheckFailed(m.verification)); }
      if m.AfterRejection? { WasCutGrows(cuts, more, m.from, Rejected); }
    }
  }

  lemma WasCutGrows(cuts: seq<Cut>, more: seq<Cut>, from: StateId, closing: Closing)
    requires WasCut(cuts, from, closing) && cuts <= more
    ensures WasCut(more, from, closing)
  {
    var i :| 0 <= i < |cuts| && cuts[i].start == from && cuts[i].drop.closing == closing;
    assert more[i] == cuts[i];
  }

  lemma LedOneMore(e: Evidence, flow: FlowDefinition, cuts: seq<Cut>, moves: seq<Move>, m: Move)
    requires Led(e, flow, cuts, moves, Some(m.from)) && Grounds(e, flow, cuts, m)
    ensures Led(e, flow, cuts, moves + [m], Destination(flow, m))
  {
    assert (moves + [m])[..|moves|] == moves;
  }

  lemma TracedRetire(e: Evidence, flow: FlowDefinition, stage: StateId, initial: seq<Publication>, active: seq<Publication>,
                     drops: seq<Drop>, cuts: seq<Cut>, c: Cut)
    requires Traced(e, flow, stage, initial, active, drops, cuts)
    requires c.list == active && c.at + |c.drop.block| <= |active| && c.drop.block == active[c.at..c.at + |c.drop.block|]
    requires Placed(e, flow, stage, c.start, c.list, c.at, |c.drop.block|, c.drop.closing)
    ensures Traced(e, flow, stage, initial, active[..c.at] + active[c.at + |c.drop.block|..], drops + [c.drop], cuts + [c])
  {
    hide Placed;
    assert (cuts + [c])[..|cuts|] == cuts;
  }

  lemma RefusedGrows(log: seq<PermissionRead>, more: seq<PermissionRead>, since: nat, earlier: nat)
    requires SomeRefused(log, since) && log <= more && earlier <= since
    ensures SomeRefused(more, earlier)
  {
    var k :| since <= k < |log| && !IsAuthorized(log[k].permission);
    assert more[k] == log[k];
  }

  ghost predicate AuthorVouched(e: Evidence, p: Publication, log: seq<PermissionRead>, since: nat) {
    exists actor :: AuthoredBy(e, p, actor) && Vouched(log, since, actor)
  }

  ghost predicate ReplyVouched(e: Evidence, p: Publication, next: Option<Publication>, log: seq<PermissionRead>, since: nat) {
    exists c :: c in e.comments && IsReplyTo(c, p, next) && Vouched(log, since, c.actor)
  }

  /** Somebody who may write answered result `k` of the block before the next one, or before what lay behind the block. */
  ghost predicate RevisedAt(e: Evidence, block: seq<Publication>, newer: Publication, k: nat, log: seq<PermissionRead>, since: nat) {
    k < |block| && ReplyVouched(e, block[k], Some(if k + 1 < |block| then block[k + 1] else newer), log, since)
  }

  /** Each result of the block was answered by somebody who may write before the next result, or what lay behind the block. */
  ghost predicate RepliesVouched(e: Evidence, d: Drop, log: seq<PermissionRead>) {
    match d.closing
    case Revised(_, newer) => forall k :: 0 <= k < |d.block| ==> RevisedAt(e, d.block, newer, k, log, d.since)
    case Answered(behind) => d.block != [] && ReplyVouched(e, d.block[0], behind, log, d.since)
    case _ => true
  }

  ghost predicate Backed(e: Evidence, d: Drop, log: seq<PermissionRead>) {
    && d.block != [] && Warranted(e, d.block, d.closing) && RepliesVouched(e, d, log)
    && match d.reason
       case AuthorsMayWrite => forall p :: p in d.block ==> AuthorVouched(e, p, log, d.since)
       case AnsweredByWriter => d.closing.Answered?
  }

  ghost function Dropped(drops: seq<Drop>): multiset<Publication> {
    if drops == [] then multiset{} else Dropped(drops[..|drops| - 1]) + multiset(drops[|drops| - 1].block)
  }

  /** The list keeps its order, nothing leaves it unrecorded, and every recorded block was finished and is backed by a permission read. */
  ghost predicate Accounted(e: Evidence, initial: seq<Publication>, active: seq<Publication>, drops: seq<Drop>, log: seq<PermissionRead>) {
    && Subsequence(active, initial)
    && multiset(initial) == multiset(active) + Dropped(drops)
    && forall d :: d in drops ==> Backed(e, d, log)
  }

  lemma VouchedGrows(log: seq<PermissionRead>, more: seq<PermissionRead>, since: nat, actor: Actor)
    requires Vouched(log, since, actor) && log <= more
    ensures Vouched(more, since, actor)
  {
    var k :| since <= k < |log| && log[k].actor == actor && IsAuthorized(log[k].permission);
    assert more[k] == log[k];
  }

  lemma ReplyVouchedGrows(e: Evidence, p: Publication, next: Option<Publication>, log: seq<PermissionRead>, more: seq<PermissionRead>, since: nat, earlier: nat)
    requires ReplyVouched(e, p, next, log, since) && log <= more && earlier <= since
    ensures ReplyVouched(e, p, next, more, earlier)
  {
    var c :| c in e.comments && IsReplyTo(c, p, next) && Vouched(log, since, c.actor);
    VouchedGrows(log, more, since, c.actor);
    var k :| since <= k < |more| && more[k].actor == c.actor && IsAuthorized(more[k].permission);
    assert Vouched(more, earlier, c.actor);
  }

  lemma RepliesGrow(e: Evidence, d: Drop, log: seq<PermissionRead>, more: seq<PermissionRead>)
    requires RepliesVouched(e, d, log) && log <= more
    ensures RepliesVouched(e, d, more)
  {
    match d.closing
    case Revised(_, newer) =>
      forall k | 0 <= k < |d.block| ensures RevisedAt(e, d.block, newer, k, more, d.since) {
        assert RevisedAt(e, d.block, newer, k, log, d.since);
        ReplyVouchedGrows(e, d.block[k], Some(if k + 1 < |d.block| then d.block[k + 1] else newer), log, more, d.since, d.since);
      }
    case Answered(behind) => ReplyVouchedGrows(e, d.block[0], behind, log, more, d.since, d.since);
    case _ =>
  }

  lemma BackedGrows(e: Evidence, d: Drop, log: seq<PermissionRead>, more: seq<PermissionRead>)
    requires Backed(e, d, log) && log <= more
    ensures Backed(e, d, more)
  {
    RepliesGrow(e, d, log, more);
    if d.reason.AuthorsMayWrite? {
      forall p | p in d.block ensures AuthorVouched(e, p, more, d.since) {
        AuthorVouchedGrows(e, p, log, more, d.since, d.since);
      }
    }
  }

  lemma AuthorVouchedGrows(e: Evidence, p: Publication, log: seq<PermissionRead>, more: seq<PermissionRead>, since: nat, earlier: nat)
    requires AuthorVouched(e, p, log, since) && log <= more && earlier <= since
    ensures AuthorVouched(e, p, more, earlier)
  {
    var actor :| AuthoredBy(e, p, actor) && Vouched(log, since, actor);
    VouchedGrows(log, more, since, actor);
    var k :| since <= k < |more| && more[k].actor == actor && IsAuthorized(more[k].permission);
    assert Vouched(more, earlier, actor);
  }

  lemma AccountedGrows(e: Evidence, initial: seq<Publication>, active: seq<Publication>, drops: seq<Drop>,
                       log: seq<PermissionRead>, more: seq<PermissionRead>)
    requires Accounted(e, initial, active, drops, log) && log <= more
    ensures Accounted(e, initial, active, drops, more)
  {
    forall d | d in drops ensures Backed(e, d, more) {
      BackedGrows(e, d, log, more);
    }
  }

  lemma AccountedRetire(e: Evidence, initial: seq<Publication>, active: seq<Publication>, drops: seq<Drop>,
                        log: seq<PermissionRead>, i: nat, n: nat, d: Drop)
    requires Accounted(e, initial, active, drops, log)
    requires i + n <= |active| && d.block == active[i..i + n] && Backed(e, d, log)
    ensures Accounted(e, initial, active[..i] + active[i + n..], drops + [d], log)
  {
    var rest := active[..i] + active[i + n..];
    SpliceIsSubsequence(active, i, n);
    SubsequenceTrans(rest, active, initial);
    SpliceParts(active, i, n);
    DroppedOneMore(drops, d);
  }

  lemma SpliceParts(active: seq<Publication>, i: nat, n: nat)
    requires i + n <= |active|
    ensures multiset(active) == multiset(active[..i] + active[i + n..]) + multiset(active[i..i + n])
  {
    assert active == active[..i] + active[i..i + n] + active[i + n..];
  }

  lemma DroppedOneMore(drops: seq<Drop>, d: Drop)
    ensures Dropped(drops + [d]) == Dropped(drops) + multiset(d.block)
  {
    assert (drops + [d])[..|drops|] == drops;
  }

  /** A publication that left the list did so in a block backed by a permission read. */
  lemma {:induction false} NothingVanishes(e: Evidence, initial: seq<Publication>, active: seq<Publication>, drops: seq<Drop>,
                                           log: seq<PermissionRead>, p: Publication)
    requires Accounted(e, initial, active, drops, log) && p in initial && p !in active
    ensures exists d :: d in drops && p in d.block && Backed(e, d, log)
  {
    assert p in multiset(initial);
    assert Dropped(drops)[p] > 0;
    InSomeBlock(drops, p);
  }

  lemma {:induction false} InSomeBlock(drops: seq<Drop>, p: Publication)
    requires p in Dropped(drops)
    ensures exists d :: d in drops && p in d.block
  {
    var last := drops[|drops| - 1];
    if p in multiset(last.block) {
      assert last in drops && p in last.block;
    } else {
      InSomeBlock(drops[..|drops| - 1], p);
      var d :| d in drops[..|drops| - 1] && p in d.block;
      assert d in drops;
    }
  }

  /** The result at `k` is a comment by somebody who may write, answered by somebody who may before the next result. */
  ghost predicate AnsweredAt(e: Evidence, active: seq<Publication>, k: nat, log: seq<PermissionRead>, since: nat) {
    && k < |active| && RecoveryKind(e, active[k].key) == Some(Comment)
    && AuthorVouched(e, active[k], log, since) && ReplyVouched(e, active[k], Behind(active, k), log, since)
  }

  ghost predicate AllAnswered(e: Evidence, active: seq<Publication>, from: nat, to: nat, log: seq<PermissionRead>, since: nat) {
    forall k :: from <= k < to ==> AnsweredAt(e, active, k, log, since)
  }

  lemma AnsweredGrows(e: Evidence, active: seq<Publication>, k: nat, log: seq<PermissionRead>, more: seq<PermissionRead>, since: nat, earlier: nat)
    requires AnsweredAt(e, active, k, log, since) && log <= more && earlier <= since
    ensures AnsweredAt(e, active, k, more, earlier)
  {
    AuthorVouchedGrows(e, active[k], log, more, since, earlier);
    ReplyVouchedGrows(e, active[k], Behind(active, k), log, more, since, earlier);
  }

  lemma AllAnsweredGrows(e: Evidence, active: seq<Publication>, from: nat, to: nat, log: seq<PermissionRead>, more: seq<PermissionRead>, since: nat)
    requires AllAnswered(e, active, from, to, log, since) && log <= more
    ensures AllAnswered(e, active, from, to, more, since)
  {
    forall k | from <= k < to ensures AnsweredAt(e, active, k, more, since) {
      AnsweredGrows(e, active, k, log, more, since, since);
    }
  }

  lemma AnsweredOneMore(e: Evidence, active: seq<Publication>, from: nat, to: nat, log: seq<PermissionRead>, more: seq<PermissionRead>, since: nat)
    requires AllAnswered(e, active, from, to, log, since) && log <= more && since <= |log| && AnsweredAt(e, active, to, more, |log|)
    ensures AllAnswered(e, active, from, to + 1, more, since)
  {
    AllAnsweredGrows(e, active, from, to, log, more, since);
    AnsweredGrows(e, active, to, more, more, |log|, since);
  }

  /** A run of answered results with something behind it counts as revised. */
  lemma AnsweredAreRevised(e: Evidence, active: seq<Publication>, from: nat, to: nat, gate: StateId, log: seq<PermissionRead>, since: nat)
    requires AllAnswered(e, active, from, to, log, since) && from < to < |active|
    ensures Backed(e, Drop(active[from..to], Revised(gate, active[to]), AuthorsMayWrite, since), log)
  {
    var block := active[from..to];
    forall k | 0 <= k < |block| ensures RevisedAt(e, block, active[to], k, log, since) {
      assert AnsweredAt(e, active, from + k, log, since);
      assert Behind(active, from + k) == Some(if k + 1 < |block| then block[k + 1] else active[to]);
    }
    forall p | p in block ensures AuthorVouched(e, p, log, since) && RecoveryKind(e, p.key) == Some(Comment) {
      var k :| 0 <= k < |block| && block[k] == p;
      assert AnsweredAt(e, active, from + k, log, since);
    }
  }

  lemma BackedByAuthors(e: Evidence, block: seq<Publication>, closing: Closing, log: seq<PermissionRead>, since: nat)
    requires block != [] && Warranted(e, block, closing) && !closing.Revised? && !closing.Answered?
    requires forall p :: p in block ==> AuthorVouched(e, p, log, since)
    ensures Backed(e, Drop(block, closing, AuthorsMayWrite, since), log)
  {
  }

  lemma AuthoredBacked(e: Evidence, block: seq<Publication>, actors: seq<Actor>, closing: Closing, log: seq<PermissionRead>, since: nat)
    requires block != [] && Warranted(e, block, closing) && !closing.Revised? && !closing.Answered?
    requires |block| == |actors| && forall k :: 0 <= k < |block| ==> AuthoredBy(e, block[k], actors[k])
    requires forall a :: a in actors ==> Vouched(log, since, a)
    ensures Backed(e, Drop(block, closing, AuthorsMayWrite, since), log)
  {
    forall p | p in block ensures AuthorVouched(e, p, log, since) {
      var k :| 0 <= k < |block| && block[k] == p;
      assert AuthoredBy(e, p, actors[k]) && Vouched(log, since, actors[k]);
    }
  }

  /** A completion, alone or with its report, whose authors may all write. */
  lemma CompletionVouched(e: Evidence, block: seq<Publication>, completer: Actor, log: seq<PermissionRead>, more: seq<PermissionRead>, since: nat)
    requires 1 <= |block| <= 2 && log <= more && since <= |log|
    requires AuthoredBy(e, block[0], completer) && Vouched(more, |log|, completer)
    requires |block| == 2 ==> AuthorVouched(e, block[1], log, since)
    ensures forall p :: p in block ==> AuthorVouched(e, p, more, since)
  {
    assert AuthorVouched(e, block[0], more, |log|);
    AuthorVouchedGrows(e, block[0], more, more, |log|, since);
    if |block| == 2 {
      AuthorVouchedGrows(e, block[1], log, more, since, since);
    }
  }

  /** A completion that a later one follows without human input between them, both by authors who may write. */
  lemma RetriedBacked(e: Evidence, block: seq<Publication>, development: StateId, next: Publication, completion: CommentObject, later: CommentObject,
                      log: seq<PermissionRead>, more: seq<PermissionRead>, since: nat)
    requires 1 <= |block| <= 2 && log <= more && since <= |log|
    requires RecoveryKind(e, block[0].key) == Some(Comment) && RecoveryKind(e, next.key) == Some(Comment)
    requires CommentFor(e, block[0].key) == Some(completion) && CommentFor(e, next.key) == Some(later) && NoInputBetween(e, completion, later)
    requires |block| == 2 ==> IsReport(e, block[1]) && AuthorVouched(e, block[1], log, since)
    requires Vouched(more, |log|, completion.actor)
    ensures Backed(e, Drop(block, Retried(development, next), AuthorsMayWrite, since), more)
  {
    assert AuthoredBy(e, block[0], completion.actor);
    CompletionVouched(e, block, completion.actor, log, more, since);
    BackedByAuthors(e, block, Retried(development, next), more, since);
  }

  /** The same with the rejection behind it. */
  lemma RejectionVouched(e: Evidence, block: seq<Publication>, completer: Actor, rejecter: Actor,
                         log: seq<PermissionRead>, more: seq<PermissionRead>, since: nat)
    requires 2 <= |block| <= 3 && log <= more && since <= |log|
    requires AuthoredBy(e, block[0], completer) && Vouched(more, |log|, completer)
    requires AuthoredBy(e, block[|block| - 1], rejecter) && Vouched(more, |log|, rejecter)
    requires |block| == 3 ==> AuthorVouched(e, block[1], log, since)
    ensures forall p :: p in block ==> AuthorVouched(e, p, more, since)
  {
    hide AuthoredBy;
    var last := |block| - 1;
    CompletionVouched(e, block[..last], completer, log, more, since);
    assert AuthorVouched(e, block[last], more, |log|);
    AuthorVouchedGrows(e, block[last], more, more, |log|, since);
    assert block == block[..last] + [block[last]];
  }
}
