/**
 Recovery of a lost iteration from provider evidence (src/runtime/reconcile.ts:762-1248): which published
 results still count, whether they justify the provider's stage, and which single key, if any, is
 withheld from the baseline so that the newest result is validated again.
 */
module RecoveryIteration {
  import opened Basics
  import opened Flow
  import opened FlowPaths
  import opened RecoveryEvidence
  import opened RecoveryShapes
  import opened RecoveryLedger
  import opened RecoverySearch
  import opened RecoveryVerdict

  // ----- Answers given before the search (780-822) -----

  /** What the owner published after a migration receipt, change requests aside. */
  function Later(e: Evidence, owner: Option<string>, collation: Key -> int): seq<Publication> {
    Sort((a: Publication, b: Publication) => Earlier(collation, a, b),
         Filter((p: Publication) => LaterThanReceipt(e, owner, p), e.publications))
  }

  /** A migration that starts at this human gate: reassess the newest predecessor result, if any came later. */
  function MigratedGate(e: Evidence, flow: FlowDefinition, stage: StateId, owner: Option<string>, collation: Key -> int, baseline: set<Key>): Iteration
    requires e.migration.Some?
  {
    var receipt := e.migration.value;
    var predecessors := Filter((x: Retained) => RetainedFor(flow, stage, x), receipt.retained);
    var result := if |predecessors| == 1 then CommentFor(e, predecessors[0].key) else None;
    if result.None? then Ambiguous(baseline, NO_PREDECESSOR)
    else
      var input := if receipt.humanInput.Some? then CommentById(e.comments, receipt.humanInput.value) else None;
      var cutoff := if input.Some? && input.value.createdAt > result.value.createdAt then input.value.createdAt else result.value.createdAt;
      var later := Later(e, owner, collation);
      if later == [] then Ready(baseline, Some(cutoff), None)
      else if exists p :: p in later && (RecoveryKind(e, p.key) != Some(Comment) || p.key !in baseline) then Ambiguous(baseline, GATE_NOT_ISOLATED)
      else Ready(baseline - {Last(later).key}, Some(if |later| > 1 then later[|later| - 2].createdAt else cutoff), Some(predecessors[0].stage))
  }

  lemma MigratedGateAnswers(e: Evidence, flow: FlowDefinition, stage: StateId, owner: Option<string>, collation: Key -> int, baseline: set<Key>)
    requires e.migration.Some?
    ensures GateAnswer(e, flow, stage, owner, collation, baseline, MigratedGate(e, flow, stage, owner, collation, baseline))
  {
    hide GateAnsweredBy, Sort, LaterThanReceipt, OnlyOne;
    var keep := (x: Retained) => RetainedFor(flow, stage, x);
    var predecessors := Filter(keep, e.migration.value.retained);
    if |predecessors| == 1 && CommentFor(e, predecessors[0].key).Some? {
      FilterSingle(keep, e.migration.value.retained, predecessors[0]);
      assert predecessors == [predecessors[0]];
      PredecessorAnswers(e, flow, stage, owner, collation, baseline, predecessors[0]);
    } else {
      forall x ensures !RetainedResult(e, flow, stage, x) { FilterSingle(keep, e.migration.value.retained, x); }
    }
  }

  lemma PredecessorAnswers(e: Evidence, flow: FlowDefinition, stage: StateId, owner: Option<string>, collation: Key -> int, baseline: set<Key>, x: Retained)
    requires e.migration.Some? && RetainedResult(e, flow, stage, x)
    requires Filter((y: Retained) => RetainedFor(flow, stage, y), e.migration.value.retained) == [x]
    ensures exists cutoff, later ::
              GateAnsweredBy(e, flow, stage, owner, collation, baseline, x, cutoff, later, MigratedGate(e, flow, stage, owner, collation, baseline))
  {
    hide Arranged, OnlyOne, Sort, LaterThanReceipt, Filter;
    SortedFilterIsArranged(collation, (p: Publication) => LaterThanReceipt(e, owner, p), e.publications);
    var input := if e.migration.value.humanInput.Some? then CommentById(e.comments, e.migration.value.humanInput.value) else None;
    var at := CommentFor(e, x.key).value.createdAt;
    var cutoff := if input.Some? && input.value.createdAt > at then input.value.createdAt else at;
    assert GateAnsweredBy(e, flow, stage, owner, collation, baseline, x, cutoff, Later(e, owner, collation),
                          MigratedGate(e, flow, stage, owner, collation, baseline));
  }

  /** A provider wait that needs no reconstruction: an unmoved migrated change, or the owner's merged change. */
  function MergeWait(e: Evidence, flow: FlowDefinition, stage: StateId, owner: Option<string>, baseline: set<Key>): (r: Option<Iteration>)
    ensures r.Some? <==> UnmovedWait(e, flow, stage) || MergedWait(e, flow, stage)
    ensures r.Some? ==> r.value == if UnmovedWait(e, flow, stage) || IsOwnersOnlyChange(e, owner) then Ready(baseline, None, None)
                                   else Ambiguous(baseline, UNOWNED_MERGE)
  {
    if flow.KindOf(stage) != Some(ProviderWait) then None
    else if e.migration.Some? then
      if e.migration.value.start == stage && |e.migration.value.retained| > 0
         && e.linked.Some? && e.linked.value.headSha == e.migration.value.changeHead
      then Some(Ready(baseline, None, None)) else None
    else if e.linked.Some? && e.linked.value.state.Merged? then
      if |e.changes| != 1 || !PublishedBy(e, owner, ChangeRequest, e.linked.value.id)
      then Some(Ambiguous(baseline, UNOWNED_MERGE))
      else Some(Ready(baseline, None, None))
    else None
  }

  // ----- Rework seen without a migration (823-859) -----

  /** The newest changes-requested review that the owner published. */
  function LatestRework(e: Evidence, owner: Option<string>): Option<ReviewObject> {
    var reworks := Sort((a: ReviewObject, b: ReviewObject) => a.submittedAt >= b.submittedAt,
      Filter((r: ReviewObject) => r.verdict.ChangesRequested? && PublishedWithProvenance(e, owner, r.id), e.reviews));
    if reworks == [] then None else Some(reworks[0])
  }

  lemma LatestReworkIs(e: Evidence, owner: Option<string>)
    ensures LatestRework(e, owner).Some? ==> IsLatestRework(e, owner, LatestRework(e, owner).value)
    ensures LatestRework(e, owner).None? ==> forall r :: r in e.reviews ==> !IsRework(e, owner, r)
  {
    var newer := (a: ReviewObject, b: ReviewObject) => a.submittedAt >= b.submittedAt;
    var kept := Filter((r: ReviewObject) => r.verdict.ChangesRequested? && PublishedWithProvenance(e, owner, r.id), e.reviews);
    var sorted := Sort(newer, kept);
    SortSorted(newer, kept);
    SameElements(sorted, kept);
    if sorted != [] {
      forall q | q in e.reviews && IsRework(e, owner, q) ensures q.submittedAt <= sorted[0].submittedAt {
        assert q in sorted;
        var i :| 0 <= i < |sorted| && sorted[i] == q;
        assert i > 0 ==> newer(sorted[0], sorted[i]);
      }
      assert sorted[0] in kept;
    } else {
      forall r | r in e.reviews ensures !IsRework(e, owner, r) { assert r !in sorted; }
    }
  }

  /** Whether a publication still belongs to the iteration after the rework review at `boundary`. */
  predicate SurvivesRework(e: Evidence, owner: Option<string>, linked: Change, boundary: int, p: Publication) {
    p.createdAt > boundary ||
    match RecoveryKind(e, p.key)
    case Some(Review) => false
    case Some(Documentation) =>
      var comment := CommentFor(e, p.key);
      comment.None? || comment.value.report.None? || comment.value.report.value.change != linked.number
      || !(exists r :: r in e.reviews && r.headSha == comment.value.report.value.resultHead
                       && p.createdAt < r.submittedAt <= boundary && PublishedBy(e, owner, Review, r.id))
    case _ => true
  }

  function WithoutReworked(e: Evidence, flow: FlowDefinition, owner: Option<string>, sorted: seq<Publication>): seq<Publication> {
    var documented := exists id :: id in flow.states && flow.states[id].contract == Some(DocumentationResult);
    var rework := LatestRework(e, owner);
    if !documented || e.migration.Some? || rework.None? || e.linked.None? || rework.value.headSha == e.linked.value.headSha then sorted
    else Filter((p: Publication) => SurvivesRework(e, owner, e.linked.value, rework.value.submittedAt, p), sorted)
  }

  lemma OwnersAreArranged(e: Evidence, owner: Option<string>, collation: Key -> int)
    ensures Arranged(collation, (p: Publication) => IsOwners(e, owner, p), e.publications, OwnerPublications(e, owner, collation))
  {
    var keep := (p: Publication) => !IsRetained(e, p.key) && (owner.None? || p.controller == owner.value)
                                    && (p.eligible || RecoveryKind(e, p.key) != Some(Review));
    SortedFilterIsArranged(collation, keep, e.publications);
    forall p ensures keep(p) == IsOwners(e, owner, p) {}
  }

  lemma FilterStaysArranged(collation: Key -> int, of: Publication -> bool, also: Publication -> bool, publications: seq<Publication>, list: seq<Publication>)
    requires Arranged(collation, of, publications, list)
    ensures Arranged(collation, (p: Publication) => of(p) && also(p), publications, Filter(also, list))
  {
    FilterSorted((a: Publication, b: Publication) => Earlier(collation, a, b), also, list);
    forall p ensures multiset(Filter(also, list))[p] == if of(p) && also(p) then multiset(publications)[p] else 0 {
      FilterCounts(also, list, p);
    }
  }

  /** The list the search begins with. */
  lemma SearchIsOpened(e: Evidence, flow: FlowDefinition, owner: Option<string>, collation: Key -> int)
    ensures Opened(e, flow, owner, collation, WithoutReworked(e, flow, owner, OwnerPublications(e, owner, collation)))
  {
    hide Arranged, Sort, IsOwners;
    OwnersAreArranged(e, owner, collation);
    LatestReworkIs(e, owner);
    var rework := LatestRework(e, owner);
    if IsDocumented(flow) && e.migration.None? && rework.Some? && e.linked.Some? {
      OpenedAfter(e, owner, collation, rework.value);
    }
  }

  lemma OpenedAfter(e: Evidence, owner: Option<string>, collation: Key -> int, rework: ReviewObject)
    requires e.linked.Some?
    ensures var sorted := OwnerPublications(e, owner, collation);
            Arranged(collation, p => IsOwners(e, owner, p) && (rework.headSha != e.linked.value.headSha ==> !Consumed(e, owner, rework.submittedAt, p)),
                     e.publications,
                     if rework.headSha == e.linked.value.headSha then sorted
                     else Filter((p: Publication) => SurvivesRework(e, owner, e.linked.value, rework.submittedAt, p), sorted))
  {
    hide IsOwners, OwnerPublications, SortedBy;
    var survives := (p: Publication) => SurvivesRework(e, owner, e.linked.value, rework.submittedAt, p);
    OwnersAreArranged(e, owner, collation);
    FilterStaysArranged(collation, (p: Publication) => IsOwners(e, owner, p), survives, e.publications, OwnerPublications(e, owner, collation));
    forall p ensures survives(p) <==> !Consumed(e, owner, rework.submittedAt, p) {}
  }

  // ----- Old heads dropped after the search (1158-1179) -----

  function AtCurrentHead(e: Evidence, flow: FlowDefinition, stage: StateId, active: seq<Publication>): seq<Publication> {
    if flow.ContractOf(stage) != Some(ReviewResult) then active
    else Filter((p: Publication) => RecoveryKind(e, p.key) != Some(Review)
           || (e.linked.Some? && exists r :: r in e.reviews && HasIdentity(e, p.key, Review, r.id) && r.headSha == e.linked.value.headSha), active)
  }

  lemma AtCurrentHeadKeeps(e: Evidence, flow: FlowDefinition, stage: StateId, active: seq<Publication>)
    ensures Subsequence(AtCurrentHead(e, flow, stage, active), active)
    ensures forall p :: multiset(AtCurrentHead(e, flow, stage, active))[p] == if OffHead(e, flow, stage, p) then 0 else multiset(active)[p]
  {
    if flow.ContractOf(stage) != Some(ReviewResult) {
      SubsequenceRefl(active);
    } else {
      var keep := (p: Publication) => RecoveryKind(e, p.key) != Some(Review)
        || (e.linked.Some? && exists r :: r in e.reviews && HasIdentity(e, p.key, Review, r.id) && r.headSha == e.linked.value.headSha);
      FilterIsSubsequence(keep, active);
      forall p ensures multiset(Filter(keep, active))[p] == if OffHead(e, flow, stage, p) then 0 else multiset(active)[p] {
        FilterCounts(keep, active, p);
      }
    }
  }

  /** A key of an approval of another head whose author was read as allowed to write. */
  ghost predicate IsGone(e: Evidence, key: Key, log: seq<PermissionRead>, since: nat) {
    && ReviewFor(e, key).Some? && e.linked.Some?
    && var review := ReviewFor(e, key).value;
    && review.verdict.Approved? && review.headSha != e.linked.value.headSha && IsSha(review.headSha) && Vouched(log, since, review.actor)
  }

  lemma GoneGrows(e: Evidence, keys: set<Key>, log: seq<PermissionRead>, more: seq<PermissionRead>, since: nat)
    requires log <= more && forall k :: k in keys ==> IsGone(e, k, log, since)
    ensures forall k :: k in keys ==> IsGone(e, k, more, since)
  {
    forall k | k in keys ensures IsGone(e, k, more, since) {
      VouchedGrows(log, more, since, ReviewFor(e, k).value.actor);
    }
  }

  /** Keys of completed approvals for older heads whose authors may write; None when a permission read fails. */
  method SupersededKeys(e: Evidence, linked: Change, active: seq<Publication>, provider: Provider) returns (r: Option<set<Key>>)
    requires e.linked == Some(linked)
    modifies provider
    ensures old(provider.log) <= provider.log
    ensures r.Some? <==> provider.failures == old(provider.failures)
    ensures r.Some? ==> forall k :: k in r.value ==> IsGone(e, k, provider.log, |old(provider.log)|)
    ensures r.Some? ==> SomeRefused(provider.log, |old(provider.log)|) || forall p :: p in active && ApprovesOtherHead(e, p) ==> p.key in r.value
  {
    var keys: set<Key> := {};
    ghost var before := provider.log;
    for i := 0 to |active|
      invariant before <= provider.log && provider.failures == old(provider.failures)
      invariant forall k :: k in keys ==> IsGone(e, k, provider.log, |before|)
      invariant SomeRefused(provider.log, |before|) || forall j :: 0 <= j < i && ApprovesOtherHead(e, active[j]) ==> active[j].key in keys
    {
      var review := ReviewFor(e, active[i].key);
      if review.None? || !review.value.verdict.Approved? || review.value.headSha == linked.headSha || !IsSha(review.value.headSha) { continue; }
      ghost var log := provider.log;
      var permission := provider.ReadPermissionOf(review.value.actor);
      if permission.None? { return None; }
      assert provider.log[|log|] == PermissionRead(review.value.actor, permission.value);
      GoneGrows(e, keys, log, provider.log, |before|);
      if SomeRefused(log, |before|) { RefusedGrows(log, provider.log, |before|, |before|); }
      if IsAuthorized(permission.value) {
        assert Vouched(provider.log, |before|, review.value.actor);
        keys := keys + {active[i].key};
      }
    }
    return Some(keys);
  }

  /** A migrated review path discards completed approvals of older heads (1165-1179). */
  method WithoutSuperseded(e: Evidence, committed: seq<PublicationKind>, active: seq<Publication>, provider: Provider)
    returns (r: Option<seq<Publication>>, ghost gone: set<Key>)
    modifies provider
    ensures old(provider.log) <= provider.log
    ensures r.Some? <==> provider.failures == old(provider.failures)
    ensures r.Some? ==> Subsequence(r.value, active) && forall p :: multiset(r.value)[p] == if p.key in gone then 0 else multiset(active)[p]
    ensures r.Some? ==> forall p :: p in active ==>
              if p.key in gone then Outdated(e, committed, p) && AuthorVouched(e, p, provider.log, |old(provider.log)|)
              else Outdated(e, committed, p) ==> SomeRefused(provider.log, |old(provider.log)|)
  {
    gone := {};
    if e.migration.None? || Review !in committed || e.linked.None? {
      SubsequenceRefl(active);
      return Some(active), {};
    }
    ghost var before := |provider.log|;
    var keys := SupersededKeys(e, e.linked.value, active, provider);
    if keys.None? { return None, {}; }
    var keep := (p: Publication) => p.key !in keys.value;
    FilterIsSubsequence(keep, active);
    forall p ensures multiset(Filter(keep, active))[p] == if p.key in keys.value then 0 else multiset(active)[p] {
      FilterCounts(keep, active, p);
    }
    forall p | p in active && p.key in keys.value ensures AuthorVouched(e, p, provider.log, before) {
      assert IsGone(e, p.key, provider.log, before);
      assert AuthoredBy(e, p, ReviewFor(e, p.key).value.actor);
    }
    return Some(Filter(keep, active)), keys.value;
  }

  lemma BothSurvived(e: Evidence, flow: FlowDefinition, stage: StateId, committed: seq<PublicationKind>, found: seq<Publication>,
                     active: seq<Publication>, gone: set<Key>, log: seq<PermissionRead>, since: nat)
    requires Subsequence(active, AtCurrentHead(e, flow, stage, found))
    requires forall p :: multiset(active)[p] == if p.key in gone then 0 else multiset(AtCurrentHead(e, flow, stage, found))[p]
    requires forall p :: p in AtCurrentHead(e, flow, stage, found) ==>
               if p.key in gone then Outdated(e, committed, p) && AuthorVouched(e, p, log, since)
               else Outdated(e, committed, p) ==> SomeRefused(log, since)
    ensures Survived(e, flow, stage, committed, found, active, gone, log, since)
  {
    hide OffHead, Outdated, AuthorVouched, SomeRefused, Subsequence, AtCurrentHead;
    var current := AtCurrentHead(e, flow, stage, found);
    AtCurrentHeadKeeps(e, flow, stage, found);
    SubsequenceTrans(active, current, found);
    forall p | p in found && !OffHead(e, flow, stage, p) ensures p in current {
      assert p in multiset(found) && p in multiset(current);
    }
  }

  /** What is left to judge of the publications the search found. */
  method Survivors(e: Evidence, flow: FlowDefinition, stage: StateId, committed: seq<PublicationKind>, found: seq<Publication>, provider: Provider)
    returns (r: Option<seq<Publication>>, ghost gone: set<Key>)
    modifies provider
    ensures old(provider.log) <= provider.log
    ensures r.Some? <==> provider.failures == old(provider.failures)
    ensures r.Some? ==> Survived(e, flow, stage, committed, found, r.value, gone, provider.log, |old(provider.log)|)
  {
    hide *;
    var current := AtCurrentHead(e, flow, stage, found);
    r, gone := WithoutSuperseded(e, committed, current, provider);
    if r.Some? { BothSurvived(e, flow, stage, committed, found, r.value, gone, provider.log, |old(provider.log)|); }
  }

  // ----- Judging the survivors (1180-1247) -----

  /** Documentation reports must be for the unmoved linked head; a documentation stage needs exactly one. */
  predicate DocumentationHolds(e: Evidence, flow: FlowDefinition, stage: StateId, active: seq<Publication>) {
    var documented := Filter((p: Publication) => IsDocumentation(e, p), active);
    && (forall p :: p in documented && CommentFor(e, p.key).Some? && CommentFor(e, p.key).value.report.Some? ==>
          var report := CommentFor(e, p.key).value.report.value;
          e.linked.Some? && report.change == e.linked.value.number && report.resultHead == e.linked.value.headSha
          && report.inputHead == report.resultHead)
    && (flow.ContractOf(stage) == Some(DocumentationResult) ==> |documented| == 1)
  }

  lemma DocumentationMeaning(e: Evidence, flow: FlowDefinition, stage: StateId, active: seq<Publication>)
    ensures DocumentationHolds(e, flow, stage, active) <==> DocumentationSettled(e, flow, stage, active)
  {
    var keep := (p: Publication) => IsDocumentation(e, p);
    var documented := Filter(keep, active);
    forall p ensures documented == [p] <==> IsOnlyReport(e, active, p) {
      FilterSingle(keep, active, p);
    }
    assert |documented| == 1 ==> documented == [documented[0]];
    assert forall p :: p in active && IsDocumentation(e, p) <==> p in documented;
  }

  function CommentPredecessors(e: Evidence, flow: FlowDefinition, stage: StateId): seq<StateId> {
    Filter((id: StateId) => LeadsByComment(e, flow, stage, id), flow.order)
  }

  /** A gate or merge wait behind one commenting stage is reached by reassessing that stage's newest result. */
  function Reassess(e: Evidence, flow: FlowDefinition, stage: StateId, baseline: set<Key>, active: seq<Publication>, committed: seq<PublicationKind>)
    : Option<Iteration>
  {
    var predecessors := CommentPredecessors(e, flow, stage);
    var prefix := Front(committed);
    if (flow.KindOf(stage) != Some(HumanGate) && flow.KindOf(stage) != Some(ProviderWait)) || |predecessors| != 1 then None
    else if !MatchesPrefix(e, prefix, active) || (|active| != |committed| && |active| != |prefix|) then None
    else
      var candidate := if |active| == |committed| && active != [] then Some(Last(active)) else None;
      if candidate.Some? && RecoveryKind(e, candidate.value.key) != Some(Comment) then Some(Ambiguous(baseline, NOT_REASSESSABLE))
      else
        Some(Ready(if candidate.Some? then baseline - {candidate.value.key} else baseline,
                   if e.migration.Some? && candidate.Some? then Some(candidate.value.createdAt)
                   else if prefix == [] then None else Some(active[|prefix| - 1].createdAt),
                   Some(predecessors[0])))
  }

  /** A reassessment happens exactly behind the one commenting predecessor, and carries what it must. */
  lemma ReassessCertified(e: Evidence, flow: FlowDefinition, stage: StateId, baseline: set<Key>, active: seq<Publication>, committed: seq<PublicationKind>)
    ensures var r := Reassess(e, flow, stage, baseline, active, committed);
            && (r.Some? <==> SomeReassesses(e, flow, stage, active, committed))
            && (r.Some? && r.value.Ready? ==>
                  && Certified(e, flow, stage, baseline, active, committed, r.value) && r.value.reassessState.Some?
                  && (Newest(active, committed).Some? ==> RecoveryKind(e, Newest(active, committed).value.key) == Some(Comment)))
            && (r.Some? && r.value.Ambiguous? ==>
                  && r.value == Ambiguous(baseline, NOT_REASSESSABLE)
                  && Newest(active, committed).Some? && RecoveryKind(e, Newest(active, committed).value.key) != Some(Comment))
  {
    hide OnlyOne, LeadsByComment;
    var keep := (id: StateId) => LeadsByComment(e, flow, stage, id);
    var predecessors := CommentPredecessors(e, flow, stage);
    forall id ensures OnlyOne(keep, flow.order, id) <==> predecessors == [id] {
      FilterSingle(keep, flow.order, id);
    }
    if |predecessors| == 1 {
      assert predecessors == [predecessors[0]];
      assert Reassess(e, flow, stage, baseline, active, committed).Some? ==> Reassesses(e, flow, stage, active, committed, predecessors[0]);
    }
    assert baseline - {} == baseline;
  }

  /** Every required review approves the linked head and its author may write; otherwise the reason names the first failure. */
  method ReviewsStand(e: Evidence, active: seq<Publication>, committed: seq<PublicationKind>, provider: Provider)
    returns (r: Result<Option<string>, string>)
    requires |committed| <= |active|
    modifies provider
    ensures old(provider.log) <= provider.log
    ensures if r.Ok? then provider.failures == old(provider.failures) else provider.failures != old(provider.failures) && r == Err(READ_FAILED)
    ensures r == Ok(None) ==>
              && ReviewsApprove(e, active, committed) && !SomeRefused(provider.log, |old(provider.log)|)
              && ReviewersVouched(e, active, committed, provider.log, |old(provider.log)|)
    ensures r.Ok? && r.value.Some? ==>
              || (r.value.value == UNAPPROVED && !ReviewsApprove(e, active, committed))
              || (r.value.value == UNAUTHORIZED && SomeRefused(provider.log, |old(provider.log)|))
  {
    ghost var before := provider.log;
    for i := 0 to |committed|
      invariant before <= provider.log && provider.failures == old(provider.failures) && !SomeRefused(provider.log, |before|)
      invariant ReviewsApprove(e, active[..i], committed[..i]) && ReviewersVouched(e, active[..i], committed[..i], provider.log, |before|)
    {
      if committed[i] != Review { continue; }
      var review := ReviewFor(e, active[i].key);
      if review.None? || !review.value.verdict.Approved? || e.linked.None? || review.value.headSha != e.linked.value.headSha {
        assert !ApprovesLinked(e, active[i]);
        return Ok(Some(UNAPPROVED));
      }
      ghost var log := provider.log;
      var permission := provider.ReadPermissionOf(review.value.actor);
      if permission.None? { return Err(READ_FAILED); }
      assert provider.log[|log|] == PermissionRead(review.value.actor, permission.value);
      if !IsAuthorized(permission.value) { return Ok(Some(UNAUTHORIZED)); }
      ReviewersGrow(e, active[..i], committed[..i], log, provider.log, |before|);
    }
    assert active[..|committed|] <= active && committed[..|committed|] == committed;
    return Ok(None);
  }

  lemma ReviewersGrow(e: Evidence, active: seq<Publication>, committed: seq<PublicationKind>, log: seq<PermissionRead>, more: seq<PermissionRead>, since: nat)
    requires |committed| <= |active| && log <= more && ReviewersVouched(e, active, committed, log, since)
    ensures ReviewersVouched(e, active, committed, more, since)
  {
    forall i | 0 <= i < |committed| && committed[i] == Review ensures Vouched(more, since, ReviewFor(e, active[i].key).value.actor) {
      VouchedGrows(log, more, since, ReviewFor(e, active[i].key).value.actor);
    }
  }

  /** With the required prefix in place, at most one further publication may follow: the stage's own newest result. */
  function Isolate(e: Evidence, flow: FlowDefinition, stage: StateId, baseline: set<Key>, active: seq<Publication>, committed: seq<PublicationKind>)
    : (r: Iteration)
    requires MatchesPrefix(e, committed, active)
    ensures r.Ready? <==> Isolated(e, flow, stage, active, committed)
    ensures r.Ready? ==>
              && r.baselineKeys == baseline - (if |active| > |committed| then {Last(active).key} else {}) && r.reassessState.None?
              && r.humanCutoff == (if committed == [] then None else Some(active[|committed| - 1].createdAt))
    ensures r.Ambiguous? ==> r == Ambiguous(baseline, NOT_ISOLATED)
  {
    var candidateKind := if flow.KindOf(stage) == Some(Agent) then ResultPublicationKind(flow.ContractOf(stage), e.migration.Some?) else None;
    var cutoff := if committed == [] then None else Some(active[|committed| - 1].createdAt);
    if |active| == |committed| + 1 && candidateKind.Some? && RecoveryKind(e, Last(active).key) == candidateKind then
      Ready(baseline - {Last(active).key}, cutoff, None)
    else if |active| != |committed| then Ambiguous(baseline, NOT_ISOLATED)
    else
      assert baseline - {} == baseline;
      Ready(baseline, cutoff, None)
  }

  /** Ready exactly when flow and evidence justify the stage and no required review author is refused. */
  method Judge(e: Evidence, flow: FlowDefinition, stage: StateId, baseline: set<Key>, active: seq<Publication>,
               committed: seq<PublicationKind>, provider: Provider) returns (r: Result<Iteration, string>)
    modifies provider
    ensures old(provider.log) <= provider.log
    ensures if r.Ok? then provider.failures == old(provider.failures) else provider.failures != old(provider.failures) && r == Err(READ_FAILED)
    ensures r.Ok? ==> Judged(e, flow, stage, baseline, active, committed, provider.log, |old(provider.log)|, r.value)
  {
    hide DocumentationSettled, SomeReassesses, MatchesPrefix, ReviewsApprove, ReviewersVouched, SomeRefused, Isolated, Reassess, DocumentationHolds;
    NobodyAsked(provider.log);
    DocumentationMeaning(e, flow, stage, active);
    if !DocumentationHolds(e, flow, stage, active) { return Ok(Ambiguous(baseline, UNDOCUMENTED)); }
    if exists p :: p in active && (RecoveryKind(e, p.key).None? || p.key !in baseline) { return Ok(Ambiguous(baseline, UNIDENTIFIED)); }
    var reassessed := Reassess(e, flow, stage, baseline, active, committed);
    ReassessCertified(e, flow, stage, baseline, active, committed);
    if reassessed.Some? { return Ok(reassessed.value); }
    if !MatchesPrefix(e, committed, active) { return Ok(Ambiguous(baseline, UNJUSTIFIED)); }
    r := JudgeInPlace(e, flow, stage, baseline, active, committed, provider);
  }

  lemma NobodyAsked(log: seq<PermissionRead>)
    ensures !SomeRefused(log, |log|)
  {
  }

  /** Without a stage to reassess, and with the required results in place. */
  method JudgeInPlace(e: Evidence, flow: FlowDefinition, stage: StateId, baseline: set<Key>, active: seq<Publication>,
                      committed: seq<PublicationKind>, provider: Provider) returns (r: Result<Iteration, string>)
    requires DocumentationSettled(e, flow, stage, active) && AllIdentified(e, baseline, active)
    requires !SomeReassesses(e, flow, stage, active, committed) && MatchesPrefix(e, committed, active)
    modifies provider
    ensures old(provider.log) <= provider.log
    ensures if r.Ok? then provider.failures == old(provider.failures) else provider.failures != old(provider.failures) && r == Err(READ_FAILED)
    ensures r.Ok? ==> Judged(e, flow, stage, baseline, active, committed, provider.log, |old(provider.log)|, r.value)
  {
    hide DocumentationSettled, AllIdentified, SomeReassesses, ReviewsApprove, ReviewersVouched, SomeRefused, Isolated, Isolate;
    var reviews := ReviewsStand(e, active, committed, provider);
    if reviews.Err? { return Err(reviews.error); }
    if reviews.value.Some? { return Ok(Ambiguous(baseline, reviews.value.value)); }
    r := Ok(Isolate(e, flow, stage, baseline, active, committed));
  }

  // ----- Recovery (762-1248) -----

  /** What the search did and left behind, and what was judged. */
  datatype Trail = Trail(
    initial: seq<Publication>, drops: seq<Drop>, cuts: seq<Cut>, moves: seq<Move>,
    opening: Option<StateId>,                 // where the last round began
    start: Option<StateId>,                   // where recovery starts in the end
    found: seq<Publication>,                  // what the search left
    path: Option<seq<PublicationKind>>,       // what the flow requires to have been published
    gone: set<Key>,                           // the keys of outdated approvals that were dropped afterwards
    active: seq<Publication>,                 // the survivors
    searched: nat, judged: nat,               // how many permissions had been read by then
    log: seq<PermissionRead>)

  /** The search began with what the owner published, accounts for all it retired and all it moved, and left nothing finished. */
  ghost predicate Searched(e: Evidence, flow: FlowDefinition, stage: StateId, owner: Option<string>, collation: Key -> int, since: nat, t: Trail) {
    && t.searched <= |t.log| && Opened(e, flow, owner, collation, t.initial)
    && Accounted(e, t.initial, t.found, t.drops, t.log[..t.searched])
    && Traced(e, flow, stage, t.initial, t.found, t.drops, t.cuts) && Led(e, flow, t.cuts, t.moves, t.start)
    && PublicationPathOf(flow, stage, e.activation, t.start) == Ok(t.path)
    && (e.migration.None? ==> t.found == t.initial && t.start.None?)
    && (e.migration.Some? && t.path.Some? ==>
          NothingLeft(e, flow, stage, t.opening, t.start, t.found, t.path.value) || SomeRefused(t.log[..t.searched], since))
  }

  /** Without one path to the stage the answer is ambiguous, else the survivors of the search are judged. */
  ghost predicate Concludes(e: Evidence, flow: FlowDefinition, stage: StateId, baseline: set<Key>, t: Trail, r: Iteration) {
    if t.path.None? then r == Ambiguous(baseline, NO_PATH)
    else
      && t.searched <= t.judged <= |t.log|
      && Survived(e, flow, stage, t.path.value, t.found, t.active, t.gone, t.log[..t.judged], t.searched)
      && Judged(e, flow, stage, baseline, t.active, t.path.value, t.log, t.judged, r)
  }

  /** Judges what is left of the publications the search found. */
  method JudgeFound(e: Evidence, flow: FlowDefinition, stage: StateId, baseline: set<Key>, committed: seq<PublicationKind>,
                    found: seq<Publication>, provider: Provider)
    returns (r: Result<Iteration, string>, ghost active: seq<Publication>, ghost gone: set<Key>, ghost judged: nat)
    modifies provider
    ensures |old(provider.log)| <= judged <= |provider.log| && old(provider.log) <= provider.log
    ensures if r.Ok? then provider.failures == old(provider.failures) else provider.failures != old(provider.failures) && r == Err(READ_FAILED)
    ensures r.Ok? ==>
              && Survived(e, flow, stage, committed, found, active, gone, provider.log[..judged], |old(provider.log)|)
              && Judged(e, flow, stage, baseline, active, committed, provider.log, judged, r.value)
  {
    hide Survived, Judged;
    var left;
    active, judged := [], |provider.log|;
    left, gone := Survivors(e, flow, stage, committed, found, provider);
    if left.None? { return Err(READ_FAILED), [], {}, |provider.log|; }
    active, judged := left.value, |provider.log|;
    ghost var log := provider.log;
    r := Judge(e, flow, stage, baseline, left.value, committed, provider);
    assert provider.log[..judged] == log;
  }

  lemma JudgedWithholds(e: Evidence, flow: FlowDefinition, stage: StateId, baseline: set<Key>, active: seq<Publication>, committed: seq<PublicationKind>,
                        log: seq<PermissionRead>, since: nat, r: Iteration)
    requires Judged(e, flow, stage, baseline, active, committed, log, since, r)
    ensures WithholdsAtMostOne(baseline, r)
  {
    hide Justified, Certified, Objects;
    if r.Ready? { CertifiedWithholds(e, flow, stage, baseline, active, committed, r); } else { WithholdsNothing(baseline, r); }
  }

  /** An error means a failed permission read, or without a migration an activation route that the flow does not declare. */
  ghost predicate FailsRightly(e: Evidence, flow: FlowDefinition, stage: StateId, error: string, readFailed: bool) {
    || (readFailed && error == READ_FAILED)
    || (e.migration.None? && PublicationPathOf(flow, stage, e.activation, None).Err? && PublicationPathOf(flow, stage, e.activation, None).error == error)
  }

  /** Recovery by search: retire what is finished, drop approvals of older heads, judge the rest. */
  method SearchAndJudge(e: Evidence, flow: FlowDefinition, stage: StateId, owner: Option<string>, collation: Key -> int,
                        baseline: set<Key>, provider: Provider)
    returns (r: Result<Iteration, string>, ghost t: Trail)
    modifies provider
    ensures old(provider.log) <= provider.log
    ensures r.Ok? ==>
              && Searched(e, flow, stage, owner, collation, |old(provider.log)|, t)
              && Concludes(e, flow, stage, baseline, t, r.value) && WithholdsAtMostOne(baseline, r.value)
              && t.log == provider.log && provider.failures == old(provider.failures)
    ensures r.Err? ==> FailsRightly(e, flow, stage, r.error, provider.failures != old(provider.failures))
  {
    hide Accounted, Traced, Led, Opened, NothingLeft, SomeRefused, Survived, Judged, Sort, WithoutReworked, WithholdsAtMostOne;
    var initial := WithoutReworked(e, flow, owner, OwnerPublications(e, owner, collation));
    SearchIsOpened(e, flow, owner, collation);
    var search := new Search(e, flow, stage, provider, initial);
    var path, opening := search.Run();
    t := Trail(initial, search.drops, search.cuts, search.moves, opening, search.start, search.active, None, {}, [],
               |provider.log|, |provider.log|, provider.log);
    if path.Err? { return Err(path.error), t; }
    assert provider.log[..|provider.log|] == provider.log;
    if path.value.None? {
      WithholdsNothing(baseline, Ambiguous(baseline, NO_PATH));
      return Ok(Ambiguous(baseline, NO_PATH)), t;
    }
    ghost var log := provider.log;
    ghost var active, gone, judged;
    r, active, gone, judged := JudgeFound(e, flow, stage, baseline, path.value.value, search.active, provider);
    if r.Ok? {
      t := t.(path := path.value, active := active, gone := gone, judged := judged, log := provider.log);
      assert provider.log[..|log|] == log;
      JudgedWithholds(e, flow, stage, baseline, active, path.value.value, provider.log, judged, r.value);
    }
  }

  /**
   Recovery of one ticket's iteration. A migrated gate, an unmoved migrated wait and a merged change are answered at once;
   everything else is searched and judged, and the trail says how the answer came about.
   */
  method RecoverIteration(e: Evidence, flow: FlowDefinition, stage: StateId, owner: Option<string>, collation: Key -> int,
                          apiScope: Option<string>, provider: Provider)
    returns (r: Result<Iteration, string>, ghost trail: Option<Trail>)
    modifies provider
    ensures old(provider.log) <= provider.log
    ensures r.Ok? ==> WithholdsAtMostOne(BaselineKeys(e, apiScope), r.value) && provider.failures == old(provider.failures)
    ensures r.Err? ==> FailsRightly(e, flow, stage, r.error, provider.failures != old(provider.failures))
    ensures AtMigratedGate(e, flow, stage) ==> r.Ok? && GateAnswer(e, flow, stage, owner, collation, BaselineKeys(e, apiScope), r.value)
    ensures UnmovedWait(e, flow, stage) ==> r == Ok(Ready(BaselineKeys(e, apiScope), None, None))
    ensures MergedWait(e, flow, stage) ==>
              r == Ok(if IsOwnersOnlyChange(e, owner) then Ready(BaselineKeys(e, apiScope), None, None) else Ambiguous(BaselineKeys(e, apiScope), UNOWNED_MERGE))
    ensures r.Ok? && !AtMigratedGate(e, flow, stage) && !UnmovedWait(e, flow, stage) && !MergedWait(e, flow, stage) ==>
              && trail.Some? && trail.value.log == provider.log
              && Searched(e, flow, stage, owner, collation, |old(provider.log)|, trail.value)
              && Concludes(e, flow, stage, BaselineKeys(e, apiScope), trail.value, r.value)
  {
    hide Searched, Concludes, GateAnswer, WithholdsAtMostOne, MigratedGate, MergeWait, BaselineKeys;
    var baseline := BaselineKeys(e, apiScope);
    if e.migration.Some? && e.migration.value.start == stage && flow.KindOf(stage) == Some(HumanGate) {
      MigratedGateAnswers(e, flow, stage, owner, collation, baseline);
      GateWithholdsNewest(e, flow, stage, owner, collation, baseline, MigratedGate(e, flow, stage, owner, collation, baseline));
      return Ok(MigratedGate(e, flow, stage, owner, collation, baseline)), None;
    }
    var wait := MergeWait(e, flow, stage, owner, baseline);
    if wait.Some? {
      WithholdsNothing(baseline, wait.value);
      return Ok(wait.value), None;
    }
    ghost var t;
    r, t := SearchAndJudge(e, flow, stage, owner, collation, baseline, provider);
    trail := Some(t);
  }

  // ----- Over the whole recovery -----

  /** What is judged keeps the publication order of what the search began with. */
  lemma SurvivorsKeepOrder(e: Evidence, flow: FlowDefinition, stage: StateId, owner: Option<string>, collation: Key -> int,
                           baseline: set<Key>, since: nat, r: Iteration, t: Trail)
    requires Searched(e, flow, stage, owner, collation, since, t) && Concludes(e, flow, stage, baseline, t, r) && t.path.Some?
    ensures Subsequence(t.active, t.initial)
  {
    SubsequenceTrans(t.active, t.found, t.initial);
  }

  /** An owner's publication was consumed by a rework. */
  ghost predicate WasConsumed(e: Evidence, owner: Option<string>, p: Publication) {
    exists rework :: IsLatestRework(e, owner, rework) && Consumed(e, owner, rework.submittedAt, p)
  }

  /** Each publication of the owner is judged, or a rework consumed it, or it was finished and backed, or a head that is gone took it along. */
  lemma EveryPublicationIsAccountedFor(e: Evidence, flow: FlowDefinition, stage: StateId, owner: Option<string>, collation: Key -> int,
                                       baseline: set<Key>, since: nat, r: Iteration, t: Trail, p: Publication)
    requires Searched(e, flow, stage, owner, collation, since, t) && Concludes(e, flow, stage, baseline, t, r) && t.path.Some?
    requires p in e.publications && IsOwners(e, owner, p)
    ensures || p in t.active
            || (e.migration.None? && WasConsumed(e, owner, p))
            || (exists d :: d in t.drops && p in d.block && Backed(e, d, t.log[..t.searched]))
            || OffHead(e, flow, stage, p)
            || (Outdated(e, t.path.value, p) && AuthorVouched(e, p, t.log[..t.judged], t.searched))
  {
    hide Judged, Traced, Led, NothingLeft, SomeRefused, IsOwners, IsLatestRework, Consumed, OffHead, Outdated, AuthorVouched, Backed;
    if p !in t.initial {
      ConsumedOrOpened(e, flow, owner, collation, t.initial, p);
    } else if p !in t.found {
      NothingVanishes(e, t.initial, t.found, t.drops, t.log[..t.searched], p);
    } else if p !in t.active {
      assert p in multiset(t.found) && p !in multiset(t.active);
    }
  }

  lemma ConsumedOrOpened(e: Evidence, flow: FlowDefinition, owner: Option<string>, collation: Key -> int, list: seq<Publication>, p: Publication)
    requires Opened(e, flow, owner, collation, list) && p in e.publications && IsOwners(e, owner, p) && p !in list
    ensures e.migration.None? && WasConsumed(e, owner, p)
  {
    hide IsOwners, IsLatestRework, Consumed, IsRework, SortedBy;
    assert p in multiset(e.publications) && p !in multiset(list);
  }
}
