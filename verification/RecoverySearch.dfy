/**
 The retirement loop of crash recovery (src/runtime/reconcile.ts:860-1157). An ordered list of the owner's
 publications is cut down, one completed iteration at a time, until no phase retires anything more. The
 provider's permission answers are arbitrary; a failed read ends recovery with an error.
 */
module RecoverySearch {
  import opened Basics
  import opened Flow
  import opened FlowPaths
  import opened RecoveryEvidence
  import opened RecoveryShapes
  import opened RecoveryLedger

  /** The mutable locals of `recoveryIteration`: the surviving list and the stage recovery now starts from. */
  class Search {
    const e: Evidence
    const flow: FlowDefinition
    const stage: StateId
    const provider: Provider
    const initial: seq<Publication>
    var active: seq<Publication>
    var start: Option<StateId>
    ghost var drops: seq<Drop>
    ghost var cuts: seq<Cut>
    ghost var moves: seq<Move>

    constructor (e: Evidence, flow: FlowDefinition, stage: StateId, provider: Provider, initial: seq<Publication>)
      ensures Valid() && active == initial && drops == []
      ensures start == if e.migration.Some? then Some(e.migration.value.start) else None
      ensures this.e == e && this.flow == flow && this.stage == stage && this.provider == provider && this.initial == initial
    {
      this.e, this.flow, this.stage, this.provider, this.initial := e, flow, stage, provider, initial;
      active := initial;
      start := if e.migration.Some? then Some(e.migration.value.start) else None;
      drops, cuts, moves := [], [], [];
      SubsequenceRefl(initial);
    }

    ghost predicate Valid()
      reads this, provider
    {
      && Accounted(e, initial, active, drops, provider.log)
      && Traced(e, flow, stage, initial, active, drops, cuts) && Led(e, flow, cuts, moves, start)
      && (e.migration.Some? ==> start.Some?)
    }

    /** `active.splice(i, n)` */
    method Retire(i: nat, n: nat, ghost from: StateId, ghost closing: Closing, ghost reason: Reason, ghost since: nat)
      requires Valid() && i + n <= |active|
      requires Backed(e, Drop(active[i..i + n], closing, reason, since), provider.log)
      requires Placed(e, flow, stage, from, active, i, n, closing)
      modifies this`active, this`drops, this`cuts
      ensures Valid()
      ensures active == old(active)[..i] + old(active)[i + n..]
      ensures drops == old(drops) + [Drop(old(active)[i..i + n], closing, reason, since)]
      ensures WasCut(cuts, from, closing)
    {
      hide Accounted, Traced, Led, Placed, Backed;
      ghost var d := Drop(active[i..i + n], closing, reason, since);
      AccountedRetire(e, initial, active, drops, provider.log, i, n, d);
      TracedRetire(e, flow, stage, initial, active, drops, cuts, Cut(from, active, i, d));
      LedGrows(e, flow, cuts, cuts + [Cut(from, active, i, d)], moves, start);
      drops, cuts := drops + [d], cuts + [Cut(from, active, i, d)];
      active := active[..i] + active[i + n..];
      assert cuts[|cuts| - 1] == Cut(from, old(active), i, d);
    }

    /** Recovery starts somewhere else from here on. */
    method MoveTo(to: Option<StateId>, ghost m: Move)
      requires Valid() && start == Some(m.from) && Grounds(e, flow, cuts, m) && to == Destination(flow, m) && to.Some?
      modifies this`start, this`moves
      ensures Valid() && start == to
    {
      hide Accounted, Traced;
      LedOneMore(e, flow, cuts, moves, m);
      start, moves := to, moves + [m];
    }

    /** Reads every actor's permission, left to right; None when a read fails, else whether all may write. */
    method MayWrite(actors: seq<Actor>) returns (r: Option<bool>)
      requires Valid()
      modifies provider
      ensures Valid() && old(provider.log) <= provider.log
      ensures r.Some? <==> provider.failures == old(provider.failures)
      ensures r.Some? ==>
                && |provider.log| == |old(provider.log)| + |actors|
                && (forall j :: 0 <= j < |actors| ==> provider.log[|old(provider.log)| + j].actor == actors[j])
                && (r.value <==> forall j :: |old(provider.log)| <= j < |provider.log| ==> IsAuthorized(provider.log[j].permission))
      ensures r == Some(true) ==> forall a :: a in actors ==> Vouched(provider.log, |old(provider.log)|, a)
    {
      var all := true;
      var i := 0;
      ghost var before := provider.log;
      while i < |actors|
        invariant provider.failures == old(provider.failures)
        invariant 0 <= i <= |actors|
        invariant before <= provider.log && Accounted(e, initial, active, drops, provider.log)
        invariant |provider.log| == |before| + i
        invariant forall j :: 0 <= j < i ==> provider.log[|before| + j].actor == actors[j]
        invariant all <==> forall j :: |before| <= j < |provider.log| ==> IsAuthorized(provider.log[j].permission)
      {
        ghost var log := provider.log;
        var p := provider.ReadPermissionOf(actors[i]);
        if p.None? { return None; }
        AccountedGrows(e, initial, active, drops, log, provider.log);
        if !IsAuthorized(p.value) { all := false; }
        i := i + 1;
      }
      forall a | all && a in actors ensures Vouched(provider.log, |before|, a) {
        var j :| 0 <= j < |actors| && actors[j] == a;
        assert provider.log[|before| + j].actor == a;
      }
      r := Some(all);
    }

    /** `MayWrite`, as far as its callers build on it. */
    method AllMayWrite(actors: seq<Actor>) returns (r: Option<bool>)
      requires Valid()
      modifies provider
      ensures Valid() && old(provider.log) <= provider.log
      ensures r.Some? <==> provider.failures == old(provider.failures)
      ensures r == Some(true) ==> forall a :: a in actors ==> Vouched(provider.log, |old(provider.log)|, a)
      ensures r == Some(false) ==> SomeRefused(provider.log, |old(provider.log)|)
    {
      hide Accounted, Traced, Led;
      r := MayWrite(actors);
    }

    /** Asks for the authors' permissions and retires their consecutive publications only if all may write. */
    method RetireAuthored(i: nat, authors: seq<Actor>, ghost from: StateId, ghost closing: Closing) returns (ok: bool, retired: bool)
      requires Valid() && authors != [] && i + |authors| <= |active|
      requires forall k :: 0 <= k < |authors| ==> AuthoredBy(e, active[i + k], authors[k])
      requires Warranted(e, active[i..i + |authors|], closing) && !closing.Revised? && !closing.Answered?
      requires Placed(e, flow, stage, from, active, i, |authors|, closing)
      modifies this`active, this`drops, this`cuts, provider
      ensures Valid() && old(provider.log) <= provider.log
      ensures ok <==> provider.failures == old(provider.failures)
      ensures retired ==> ok && active == old(active)[..i] + old(active)[i + |authors|..]
      ensures retired ==> drops == old(drops) + [Drop(old(active)[i..i + |authors|], closing, AuthorsMayWrite, |old(provider.log)|)]
      ensures retired ==> WasCut(cuts, from, closing)
      ensures !retired ==> active == old(active) && drops == old(drops)
      ensures ok && !retired ==> SomeRefused(provider.log, |old(provider.log)|)
    {
      hide Accounted, Traced, Led, Placed, Warranted, AuthorVouched;
      ghost var before := |provider.log|;
      var allowed := AllMayWrite(authors);
      if allowed.None? { return false, false; }
      if !allowed.value { return true, false; }
      AuthoredBacked(e, active[i..i + |authors|], authors, closing, provider.log, before);
      Retire(i, |authors|, from, closing, AuthorsMayWrite, before);
      return true, true;
    }

    // ----- Failed CI after a complete prefix (867-905) -----

    /** Who published one result of a completed prefix; None when it is missing or a review does not approve a commit. */
    function ResultAuthor(kind: PublicationKind, p: Publication): (r: Option<Actor>)
      ensures r.Some? ==> AuthoredBy(e, p, r.value)
    {
      var review, comment := ReviewFor(e, p.key), CommentFor(e, p.key);
      if kind.Review? then
        if review.Some? && review.value.verdict.Approved? && IsSha(review.value.headSha) then Some(review.value.actor) else None
      else if comment.Some? then Some(comment.value.actor) else None
    }

    /** Who published each result of a completed prefix, all of them or none. */
    function PrefixAuthors(kinds: seq<PublicationKind>, publications: seq<Publication>): (r: Option<seq<Actor>>)
      requires |kinds| == |publications|
      ensures r.Some? ==> |r.value| == |kinds| && forall i :: 0 <= i < |kinds| ==> ResultAuthor(kinds[i], publications[i]) == Some(r.value[i])
      ensures r.None? ==> exists i :: 0 <= i < |kinds| && ResultAuthor(kinds[i], publications[i]).None?
    {
      if kinds == [] then Some([])
      else
        var first, rest := ResultAuthor(kinds[0], publications[0]), PrefixAuthors(kinds[1..], publications[1..]);
        if first.None? || rest.None? then None else Some([first.value] + rest.value)
    }

    /** Nothing was cut, and of the first `n` stages none has a failed check at the head of the list. */
    ghost predicate NoCheckLeads(list: seq<Publication>, from: StateId, n: nat)
      requires n <= |flow.order|
    {
      forall j :: 0 <= j < n && IsCheck(flow, flow.order[j]) ==> !FailedCheckLeads(e, flow, stage, from, list, flow.order[j])
    }

    method RetireFailedCi() returns (ok: bool)
      requires Valid() && e.migration.Some? && |flow.requiredChecks| > 0
      modifies this`active, this`start, this`drops, this`cuts, this`moves, provider
      ensures Valid() && |active| <= |old(active)| && old(provider.log) <= provider.log
      ensures ok <==> provider.failures == old(provider.failures)
      ensures |active| == |old(active)| ==> active == old(active) && start == old(start)
      ensures ok && |active| == |old(active)| ==> NoCheckLeads(active, start.value, |flow.order|) || SomeRefused(provider.log, |old(provider.log)|)
    {
      hide Accounted, Traced, Led;
      ghost var before := provider.log;
      for i := 0 to |flow.order|
        invariant provider.failures == old(provider.failures)
        invariant Valid() && |active| <= |old(active)| && before <= provider.log
        invariant |active| == |old(active)| ==> active == old(active) && start == old(start)
        invariant |active| == |old(active)| ==> NoCheckLeads(active, start.value, i) || SomeRefused(provider.log, |before|)
      {
        if !IsCheck(flow, flow.order[i]) { continue; }
        ok := RetireCheck(flow.order[i]);
        if !ok { return false; }
      }
      return true;
    }

    /** One verification stage, as often as a failed check of it leads. */
    method RetireCheck(verification: StateId) returns (ok: bool)
      requires Valid() && e.migration.Some? && |flow.requiredChecks| > 0 && verification in flow.order && IsCheck(flow, verification)
      modifies this`active, this`start, this`drops, this`cuts, this`moves, provider
      ensures Valid() && |active| <= |old(active)| && old(provider.log) <= provider.log
      ensures ok <==> provider.failures == old(provider.failures)
      ensures |active| == |old(active)| ==> active == old(active) && start == old(start)
      ensures ok && |active| == |old(active)| ==>
                !FailedCheckLeads(e, flow, stage, start.value, active, verification) || SomeRefused(provider.log, |old(provider.log)|)
      ensures forall since :: 0 <= since <= |old(provider.log)| && SomeRefused(old(provider.log), since) ==> SomeRefused(provider.log, since)
    {
      hide Accounted, Traced, Led;
      ghost var before := provider.log;
      var more := true;
      while more
        invariant provider.failures == old(provider.failures)
        invariant Valid() && |active| <= |old(active)| && before <= provider.log
        invariant |active| == |old(active)| ==> active == old(active) && start == old(start)
        invariant |active| == |old(active)| && !more ==>
                    !FailedCheckLeads(e, flow, stage, start.value, active, verification) || SomeRefused(provider.log, |before|)
        decreases |active|, more
      {
        ghost var log := provider.log;
        ok, more := RetireOneFailedCi(verification);
        if !ok { KeepsRefusals(before); return false; }
        if SomeRefused(provider.log, |log|) { RefusedGrows(provider.log, provider.log, |log|, |before|); }
      }
      KeepsRefusals(before);
      return true;
    }

    lemma KeepsRefusals(before: seq<PermissionRead>)
      requires before <= provider.log
      ensures forall since :: 0 <= since <= |before| && SomeRefused(before, since) ==> SomeRefused(provider.log, since)
    {
      forall since | 0 <= since <= |before| && SomeRefused(before, since) ensures SomeRefused(provider.log, since) {
        RefusedGrows(before, provider.log, since, since);
      }
    }

    method RetireOneFailedCi(verification: StateId) returns (ok: bool, retired: bool)
      requires Valid() && e.migration.Some? && |flow.requiredChecks| > 0 && verification in flow.order && IsCheck(flow, verification)
      modifies this`active, this`start, this`drops, this`cuts, this`moves, provider
      ensures Valid() && old(provider.log) <= provider.log
      ensures ok <==> provider.failures == old(provider.failures)
      ensures retired ==>
                && ok && FailedCheckLeads(e, flow, stage, old(start).value, old(active), verification) && start == flow.Target(verification, CiFailed)
                && active == old(active)[|PathFrom(flow, old(start).value, verification).value| + 1..]
      ensures !retired ==> active == old(active) && start == old(start)
      ensures ok && !retired ==>
                !FailedCheckLeads(e, flow, stage, start.value, active, verification) || SomeRefused(provider.log, |old(provider.log)|)
    {
      hide Accounted, Traced, Led, Placed, FailedCheckLeads, Warranted, AuthoredBy, SomeRefused;
      var actors := FailedCiAuthors(verification);
      if actors.None? { return true, false; }
      CheckPlaced(e, flow, stage, start.value, active, verification);
      ok, retired := RetireAuthored(0, actors.value, start.value, CheckFailed(verification));
      if retired {
        assert old(active)[..0] + old(active)[0 + |actors.value|..] == old(active)[|actors.value|..];
        MoveTo(flow.Target(verification, CiFailed), AfterCheck(start.value, verification));
      }
    }

    /** The authors of a completed prefix and of the failed check's report behind it, or None when there is no such block. */
    method FailedCiAuthors(verification: StateId) returns (r: Option<seq<Actor>>)
      requires start.Some?
      ensures r.Some? <==> FailedCheckLeads(e, flow, stage, start.value, active, verification)
      ensures r.Some? ==>
                && |r.value| == |PathFrom(flow, start.value, verification).value| + 1 <= |active|
                && forall k :: 0 <= k < |r.value| ==> AuthoredBy(e, active[k], r.value[k])
      ensures r.Some? ==> Warranted(e, active[0..0 + |r.value|], CheckFailed(verification))
    {
      hide Corrected, Warranted, Attributable, AuthoredBy;
      var prefix := PathFrom(flow, start.value, verification);
      if prefix.None? || !MatchesPrefix(e, prefix.value, active) { return None; }
      var n := |prefix.value|;
      if n >= |active| { return None; }
      if !Corrected(e, stage, flow.Target(verification, CiFailed), active, n) { return None; }
      var completion := CommentFor(e, active[n].key);
      if completion.None? || !completion.value.bugReceipt { return None; }
      var authors := PrefixAuthors(prefix.value, active[..n]);
      AttributedIff(prefix.value, active[..n]);
      if authors.None? { return None; }
      r := Some(authors.value + [completion.value.actor]);
      forall k | 0 <= k < |r.value| ensures AuthoredBy(e, active[k], r.value[k]) {
        CheckAuthored(prefix.value, active, completion.value.actor, k);
      }
      CheckWarranted(prefix.value, active, verification);
    }

    lemma AttributedIff(kinds: seq<PublicationKind>, publications: seq<Publication>)
      requires |kinds| == |publications|
      ensures PrefixAuthors(kinds, publications).Some? <==> Attributable(e, kinds, publications)
    {
      var authors := PrefixAuthors(kinds, publications);
      forall i | authors.Some? && 0 <= i < |kinds|
        ensures if kinds[i].Review? then IsReview(e, publications[i], Approved) else CommentFor(e, publications[i].key).Some?
      {
        assert ResultAuthor(kinds[i], publications[i]) == Some(authors.value[i]);
      }
    }

    /** The authors of a prefix and of the report behind it, one for each publication of the block. */
    lemma CheckAuthored(kinds: seq<PublicationKind>, list: seq<Publication>, reporter: Actor, k: nat)
      requires k <= |kinds| < |list| && CommentFor(e, list[|kinds|].key).Some? && CommentFor(e, list[|kinds|].key).value.actor == reporter
      requires PrefixAuthors(kinds, list[..|kinds|]).Some?
      ensures var authors := PrefixAuthors(kinds, list[..|kinds|]).value + [reporter];
              |authors| == |kinds| + 1 && AuthoredBy(e, list[k], authors[k])
    {
      var authors := PrefixAuthors(kinds, list[..|kinds|]).value;
      if k < |kinds| { assert ResultAuthor(kinds[k], list[..|kinds|][k]) == Some(authors[k]); }
    }

    lemma CheckWarranted(kinds: seq<PublicationKind>, list: seq<Publication>, verification: StateId)
      requires |kinds| < |list| && IsBugReceipt(e, list[|kinds|]) && Attributable(e, kinds, list[..|kinds|])
      ensures Warranted(e, list[0..0 + (|kinds| + 1)], CheckFailed(verification))
    {
      var publications, block := list[..|kinds|], list[0..0 + (|kinds| + 1)];
      assert block[|kinds|] == list[|kinds|];
      forall i | 0 <= i < |kinds| ensures IsReview(e, block[i], Approved) || CommentFor(e, block[i].key).Some? {
        assert block[i] == publications[i];
      }
    }

    // ----- Verification of an earlier head (906-942) -----

    method FollowHeadUpdate(linked: Change) returns (ok: bool)
      requires Valid() && e.migration.Some? && e.linked == Some(linked)
      modifies this`active, this`start, this`drops, this`cuts, this`moves, provider
      ensures Valid() && |active| <= |old(active)| && old(provider.log) <= provider.log
      ensures ok <==> provider.failures == old(provider.failures)
      ensures start == if UpdateApplies(e, flow, old(start).value) then flow.Target(old(start).value, ChangeRequestUpdated) else old(start)
      ensures flow.ContractOf(old(start).value) != Some(Verification) || !UpdateApplies(e, flow, old(start).value) ==> active == old(active)
      ensures |active| == |old(active)| ==> active == old(active)
      ensures ok && |active| == |old(active)| && UpdateApplies(e, flow, old(start).value) && flow.ContractOf(old(start).value) == Some(Verification) ==>
                !BugReceiptLeads(e, active) || SomeRefused(provider.log, |old(provider.log)|)
    {
      hide Accounted, Traced, Led;
      ghost var before := provider.log;
      var boundary := start.value;
      var updated := flow.Target(boundary, ChangeRequestUpdated);
      var repeats := flow.ContractOf(boundary) == Some(Verification)
        || (flow.KindOf(boundary) == Some(ProviderWait) && |e.migration.value.retained| > 0);
      if !repeats || !IsSha(linked.headSha) || linked.headSha == e.migration.value.changeHead
        || ContractAt(flow, updated) != Some(ReviewResult) { return true; }
      MoveTo(updated, AfterUpdate(boundary));
      if flow.ContractOf(boundary) != Some(Verification) { return true; }
      var more := true;
      while more
        invariant provider.failures == old(provider.failures)
        invariant Valid() && |active| <= |old(active)| && before <= provider.log && start == updated
        invariant |active| == |old(active)| ==> active == old(active)
        invariant |active| == |old(active)| && !more ==> !BugReceiptLeads(e, active) || SomeRefused(provider.log, |before|)
        decreases |active|, more
      {
        ghost var log := provider.log;
        ok, more := RetireLeadingVerification(linked, boundary);
        if !ok { return false; }
        if SomeRefused(provider.log, |log|) { RefusedGrows(provider.log, provider.log, |log|, |before|); }
      }
      return true;
    }

    /** Retires one authorized diagnostic, then the authorized older-head approval behind it; `more` when both went. */
    method RetireLeadingVerification(linked: Change, ghost boundary: StateId) returns (ok: bool, more: bool)
      requires Valid() && e.migration.Some? && e.linked == Some(linked)
      requires UpdateApplies(e, flow, boundary) && flow.ContractOf(boundary) == Some(Verification)
      modifies this`active, this`drops, this`cuts, provider
      ensures Valid() && |active| <= |old(active)| && old(provider.log) <= provider.log
      ensures ok <==> provider.failures == old(provider.failures)
      ensures |active| == |old(active)| ==> active == old(active) && !more
      ensures ok && |active| == |old(active)| ==> !BugReceiptLeads(e, active) || SomeRefused(provider.log, |old(provider.log)|)
    {
      hide Accounted, Traced, Led;
      if active == [] || RecoveryKind(e, active[0].key) != Some(Comment) { return true, false; }
      var completion := CommentFor(e, active[0].key);
      if completion.None? || !completion.value.bugReceipt { return true, false; }
      ok, more := RetireAuthored(0, [completion.value.actor], boundary, HeadMoved);
      if !ok || !more { return ok, false; }
      ok, more := RetireOldApproval(linked, boundary);
    }

    method RetireOldApproval(linked: Change, ghost boundary: StateId) returns (ok: bool, retired: bool)
      requires Valid() && e.migration.Some? && e.linked == Some(linked)
      requires UpdateApplies(e, flow, boundary) && flow.ContractOf(boundary) == Some(Verification)
      modifies this`active, this`drops, this`cuts, provider
      ensures Valid() && |active| <= |old(active)| && old(provider.log) <= provider.log
      ensures ok <==> provider.failures == old(provider.failures)
      ensures retired ==> ok && old(active) != [] && ApprovesOtherHead(e, old(active)[0]) && active == old(active)[1..]
      ensures !retired ==> active == old(active)
      ensures ok && !retired ==> active == [] || !ApprovesOtherHead(e, active[0]) || SomeRefused(provider.log, |old(provider.log)|)
    {
      hide Accounted, Traced, Led;
      if active == [] { return true, false; }
      var approval := ReviewFor(e, active[0].key);
      if approval.None? || !approval.value.verdict.Approved? || approval.value.headSha == linked.headSha
        || !IsSha(approval.value.headSha) { return true, false; }
      ok, retired := RetireAuthored(0, [approval.value.actor], boundary, HeadMoved);
    }

    // ----- A verified rejection at the start of a replay (943-959) -----

    method RetireRejection() returns (ok: bool)
      requires Valid() && e.migration.Some?
      modifies this`active, this`start, this`drops, this`cuts, this`moves, provider
      ensures Valid() && |active| <= |old(active)| && old(provider.log) <= provider.log
      ensures ok <==> provider.failures == old(provider.failures)
      ensures (start == old(start) && active == old(active) && drops == old(drops))
              || (RejectionLeads(e, flow, old(start).value, old(active)) && active == old(active)[1..]
                  && start == flow.Target(old(start).value, ReviewChangesRequested))
      ensures ok && |active| == |old(active)| ==> !RejectionLeads(e, flow, start.value, active) || SomeRefused(provider.log, |old(provider.log)|)
    {
      hide Accounted, Traced, Led;
      var rework := flow.Target(start.value, ReviewChangesRequested);
      if flow.ContractOf(start.value) != Some(ReviewResult) || ContractAt(flow, rework) != Some(Development) || active == [] { return true; }
      var rejection := ReviewFor(e, active[0].key);
      if rejection.None? || !rejection.value.verdict.ChangesRequested? || !IsSha(rejection.value.headSha) { return true; }
      var retired;
      ok, retired := RetireAuthored(0, [rejection.value.actor], start.value, Rejected);
      if retired {
        MoveTo(rework, AfterRejection(start.value));
      }
    }

    // ----- Answered human gates (964-1028) -----

    /** Looks for a reply strictly after `after` (and before `next`) by someone who may write, asking in comment order. */
    method FindReply(after: Publication, next: Option<Publication>) returns (ok: bool, found: bool)
      requires Valid()
      modifies provider
      ensures Valid() && old(provider.log) <= provider.log
      ensures ok <==> provider.failures == old(provider.failures)
      ensures found ==> ok && ReplyVouched(e, after, next, provider.log, |old(provider.log)|)
      ensures ok && !found ==> (forall c :: c in e.comments ==> !IsReplyTo(c, after, next)) || SomeRefused(provider.log, |old(provider.log)|)
    {
      hide Accounted, Traced, Led;
      ghost var before := provider.log;
      for i := 0 to |e.comments|
        invariant provider.failures == old(provider.failures)
        invariant Valid() && before <= provider.log
        invariant (forall j :: 0 <= j < i ==> !IsReplyTo(e.comments[j], after, next)) || SomeRefused(provider.log, |before|)
      {
        var c := e.comments[i];
        if c.createdAt <= after.createdAt || (next.Some? && c.createdAt >= next.value.createdAt) || !IsHumanReply(c) { continue; }
        ghost var log := provider.log;
        var allowed := AllMayWrite([c.actor]);
        if allowed.None? { return false, false; }
        if allowed.value {
          assert c.actor in [c.actor];
          ghost var k :| |log| <= k < |provider.log| && provider.log[k].actor == c.actor && IsAuthorized(provider.log[k].permission);
          assert Vouched(provider.log, |before|, c.actor) && IsReplyTo(c, after, next);
          return true, true;
        }
        RefusedGrows(provider.log, provider.log, |log|, |before|);
      }
      return true, false;
    }

    /** One gate has a result that was replaced, and is on the way. */
    ghost predicate GateLeft(list: seq<Publication>, from: StateId, committed: seq<PublicationKind>, gate: StateId) {
      && ResultIndex(flow, from, gate, committed).Some?
      && ResultRevised(e, flow, stage, list, gate, ResultIndex(flow, from, gate, committed).value, |Gates(flow, from, stage)| > 1)
    }

    ghost predicate GateStops(list: seq<Publication>, from: StateId, committed: seq<PublicationKind>, gate: StateId) {
      && ResultIndex(flow, from, gate, committed).Some?
      && StopsAt(e, flow, stage, list, gate, ResultIndex(flow, from, gate, committed).value, |Gates(flow, from, stage)| > 1)
    }

    method RetireGateRevisions(committed: seq<PublicationKind>) returns (ok: bool)
      requires Valid() && e.migration.Some? && flow.KindOf(start.value) == Some(Agent) && PathFrom(flow, start.value, stage) == Some(committed)
      modifies this`active, this`drops, this`cuts, provider
      ensures Valid() && |active| <= |old(active)| && old(provider.log) <= provider.log
      ensures ok <==> provider.failures == old(provider.failures)
      ensures |active| == |old(active)| ==> active == old(active)
      ensures ok && |active| == |old(active)| ==>
                !RevisionLeft(e, flow, stage, start.value, active, committed) || SomeRefused(provider.log, |old(provider.log)|)
    {
      hide Accounted, Traced, Led, ResultRevised, StopsAt, Gates, RevisionLeft;
      ghost var before := provider.log;
      var gates := Gates(flow, start.value, stage);
      for i := 0 to |gates|
        invariant provider.failures == old(provider.failures)
        invariant Valid() && |active| <= |old(active)| && before <= provider.log
        invariant |active| == |old(active)| ==> active == old(active)
        invariant |active| == |old(active)| ==>
                    (forall j :: 0 <= j < i ==> !GateLeft(active, start.value, committed, gates[j])) || SomeRefused(provider.log, |before|)
      {
        ghost var log := provider.log;
        var further;
        ok, further := RetireAtGate(gates[i], committed);
        if !ok { return false; }
        KeepsRefusals(log);
        if SomeRefused(provider.log, |log|) { RefusedGrows(provider.log, provider.log, |log|, |before|); }
        if !further {
          if |active| == |old(active)| && !SomeRefused(provider.log, |before|) { StoppedLeavesNone(active, committed, i); }
          return true;
        }
      }
      if |active| == |old(active)| && !SomeRefused(provider.log, |before|) { PassedLeavesNone(active, committed); }
      return true;
    }

    lemma StoppedLeavesNone(list: seq<Publication>, committed: seq<PublicationKind>, i: nat)
      requires start.Some?
      requires var gates := Gates(flow, start.value, stage);
               && i < |gates| && GateStops(list, start.value, committed, gates[i])
               && forall j :: 0 <= j <= i ==> !GateLeft(list, start.value, committed, gates[j])
      ensures !RevisionLeft(e, flow, stage, start.value, list, committed)
    {
      var gates := Gates(flow, start.value, stage);
      forall k | 0 <= k < |gates| && GateLeft(list, start.value, committed, gates[k])
        ensures !PassedBefore(e, flow, stage, start.value, list, committed, k)
      {
        assert i < k && GateStops(list, start.value, committed, gates[i]);
      }
    }

    lemma PassedLeavesNone(list: seq<Publication>, committed: seq<PublicationKind>)
      requires start.Some?
      requires var gates := Gates(flow, start.value, stage);
               forall j :: 0 <= j < |gates| ==> !GateLeft(list, start.value, committed, gates[j])
      ensures !RevisionLeft(e, flow, stage, start.value, list, committed)
    {
      var gates := Gates(flow, start.value, stage);
      forall k | 0 <= k < |gates| ensures !GateLeft(list, start.value, committed, gates[k]) {}
    }

    /** One gate; several gates need results that name their stage, and stop at the first gate nobody answered. */
    method RetireAtGate(gate: StateId, committed: seq<PublicationKind>) returns (ok: bool, further: bool)
      requires Valid() && e.migration.Some? && flow.KindOf(start.value) == Some(Agent) && PathFrom(flow, start.value, stage) == Some(committed)
      requires gate in Gates(flow, start.value, stage)
      modifies this`active, this`drops, this`cuts, provider
      ensures Valid() && |active| <= |old(active)| && old(provider.log) <= provider.log
      ensures ok <==> provider.failures == old(provider.failures)
      ensures |active| == |old(active)| ==> active == old(active)
      ensures ok && |active| == |old(active)| ==> !GateLeft(active, start.value, committed, gate) || SomeRefused(provider.log, |old(provider.log)|)
      ensures ok && !further ==> GateStops(old(active), start.value, committed, gate) || SomeRefused(provider.log, |old(provider.log)|)
    {
      hide Accounted, Traced, Led, AllAnswered, AnsweredRun, AnsweredResult, Gates, PathFrom, AgentPredecessors;
      var path := PathFrom(flow, start.value, gate);
      if path.None? || path.value == [] || path.value[|path.value| - 1] != Comment || !(path.value <= committed) { return true, true; }
      var index := |path.value| - 1;
      assert ResultIndex(flow, start.value, gate, committed) == Some(index);
      var several := |Gates(flow, start.value, stage)| > 1;
      var predecessors := AgentPredecessors(flow, gate);
      var only := if |predecessors| == 1 then Some(predecessors[0]) else None;
      var named := if index < |active| then ResultStage(e, active[index].key) else None;
      if several && (only.None? || named != only) { return true, false; }
      var answered;
      ok, answered := RetireRevisionsOf(gate, index, if several then only else None);
      further := !several || answered > 0;
    }

    /** How many of the answered results a newer one replaced. */
    function Superseded(gate: StateId, answered: nat): nat {
      if stage == gate then answered else if answered > 0 then answered - 1 else 0
    }

    /** The last result before `gate` stands at `index`, and results of the gate name the stage `named`. */
    ghost predicate AtGate(gate: StateId, index: nat, named: Option<StateId>)
      reads this
    {
      && e.migration.Some? && start.Some? && flow.KindOf(start.value) == Some(Agent) && PathFrom(flow, start.value, stage).Some?
      && var gates := Gates(flow, start.value, stage);
      && gate in gates && ResultIndex(flow, start.value, gate, PathFrom(flow, start.value, stage).value) == Some(index)
      && Tellable(e, flow, active, gate, index, |gates| > 1) && named == MustName(flow, gate, |gates| > 1)
    }

    /**
     Retires answered results from `index` on: at the gate itself every answered result before a newer one is
     a revision, downstream the last answer advanced the gate and its result stays.
     */
    method RetireRevisionsOf(gate: StateId, index: nat, named: Option<StateId>) returns (ok: bool, answered: nat)
      requires Valid() && AtGate(gate, index, named)
      modifies this`active, this`drops, this`cuts, provider
      ensures Valid() && old(provider.log) <= provider.log
      ensures ok <==> provider.failures == old(provider.failures)
      ensures AllAnswered(e, old(active), index, index + answered, provider.log, |old(provider.log)|)
      ensures AnsweredRun(e, stage, old(active), gate, index, index + answered, named)
      ensures ok ==> !AnsweredResult(e, stage, old(active), gate, index + answered, named) || SomeRefused(provider.log, |old(provider.log)|)
      ensures answered > 0 ==> index + answered <= |old(active)|
      ensures !ok || Superseded(gate, answered) == 0 ==> active == old(active)
      ensures ok && Superseded(gate, answered) > 0 ==>
                index + Superseded(gate, answered) <= |old(active)| && active == old(active)[..index] + old(active)[index + Superseded(gate, answered)..]
    {
      hide Accounted, Traced, Led, AnsweredRun, AllAnswered, RevisionPlaced, Gates, PathFrom, ResultIndex, Tellable, MustName, AnsweredResult;
      ghost var before := |provider.log|;
      ok, answered := CountAnswered(gate, index, named);
      if ok && Superseded(gate, answered) > 0 {
        RunIsRevised(gate, index, answered, named, provider.log, before);
        RetireAnswered(gate, index, Superseded(gate, answered), before);
      }
    }

    /** The superseded part of a run of answered results. */
    lemma RunIsRevised(gate: StateId, index: nat, answered: nat, named: Option<StateId>, log: seq<PermissionRead>, since: nat)
      requires AtGate(gate, index, named) && AnsweredRun(e, stage, active, gate, index, index + answered, named)
      requires AllAnswered(e, active, index, index + answered, log, since) && Superseded(gate, answered) > 0
      ensures RevisionPlaced(e, flow, stage, start.value, active, index, Superseded(gate, answered), gate)
      ensures AllAnswered(e, active, index, index + Superseded(gate, answered), log, since)
    {
      hide Gates, ResultIndex, Tellable, MustName, AnsweredResult, AnsweredAt, PathFrom;
    }

    /** Cuts out the first `n` of a run of answered results. */
    method RetireAnswered(gate: StateId, index: nat, n: nat, ghost since: nat)
      requires Valid() && e.migration.Some?
      requires n > 0 && index + n < |active| && AllAnswered(e, active, index, index + n, provider.log, since)
      requires RevisionPlaced(e, flow, stage, start.value, active, index, n, gate)
      modifies this`active, this`drops, this`cuts
      ensures Valid() && active == old(active)[..index] + old(active)[index + n..]
    {
      hide Accounted, Traced, Led, RevisionPlaced, AllAnswered, Backed;
      AnsweredAreRevised(e, active, index, index + n, gate, provider.log, since);
      Retire(index, n, start.value, Revised(gate, active[index + n]), AuthorsMayWrite, since);
    }

    /** How many consecutive results from `index` on are answered. */
    method CountAnswered(gate: StateId, index: nat, named: Option<StateId>) returns (ok: bool, answered: nat)
      requires Valid()
      modifies provider
      ensures Valid() && old(provider.log) <= provider.log
      ensures ok <==> provider.failures == old(provider.failures)
      ensures answered > 0 ==> index + answered <= |active| && (stage == gate ==> index + answered < |active|)
      ensures AllAnswered(e, active, index, index + answered, provider.log, |old(provider.log)|)
      ensures AnsweredRun(e, stage, active, gate, index, index + answered, named)
      ensures ok ==> !AnsweredResult(e, stage, active, gate, index + answered, named) || SomeRefused(provider.log, |old(provider.log)|)
    {
      hide Accounted, Traced, Led;
      answered := 0;
      ghost var before := provider.log;
      while index + answered < |active|
        invariant provider.failures == old(provider.failures)
        invariant Valid() && before <= provider.log
        invariant answered > 0 ==> index + answered <= |active| && (stage == gate ==> index + answered < |active|)
        invariant AllAnswered(e, active, index, index + answered, provider.log, |before|)
        invariant AnsweredRun(e, stage, active, gate, index, index + answered, named)
        decreases |active| - answered
      {
        ghost var log := provider.log;
        var more;
        ok, more := IsAnswered(gate, index + answered, named);
        if !more {
          AllAnsweredGrows(e, active, index, index + answered, log, provider.log, |before|);
          if SomeRefused(provider.log, |log|) { RefusedGrows(provider.log, provider.log, |log|, |before|); }
          return;
        }
        AnsweredOneMore(e, active, index, index + answered, log, provider.log, |before|);
        answered := answered + 1;
      }
      return true, answered;
    }

    /** The result at `offset` and the one after it are comments by writers, with a writer's reply to the first. */
    method IsAnswered(gate: StateId, offset: nat, named: Option<StateId>) returns (ok: bool, answered: bool)
      requires Valid() && offset < |active|
      modifies provider
      ensures Valid() && old(provider.log) <= provider.log
      ensures ok <==> provider.failures == old(provider.failures)
      ensures answered ==> ok && AnsweredAt(e, active, offset, provider.log, |old(provider.log)|) && AnsweredResult(e, stage, active, gate, offset, named)
      ensures ok && !answered ==> !AnsweredResult(e, stage, active, gate, offset, named) || SomeRefused(provider.log, |old(provider.log)|)
    {
      hide Accounted, Traced, Led;
      if named.Some? && ResultStage(e, active[offset].key) != named { return true, false; }
      var last := offset + 1 >= |active|;
      if (last && stage == gate) || RecoveryKind(e, active[offset].key) != Some(Comment)
        || (!last && RecoveryKind(e, active[offset + 1].key) != Some(Comment)) { return true, false; }
      var found;
      ok, found := FindReply(active[offset], Behind(active, offset));
      if !ok || !found { return ok, false; }
      var result := CommentFor(e, active[offset].key);
      var next := if last then None else CommentFor(e, active[offset + 1].key);
      if result.None? || (!last && next.None?) { return true, false; }
      ghost var log := provider.log;
      var allowed := AllMayWrite([result.value.actor] + (if next.Some? then [next.value.actor] else []));
      if allowed.None? { return false, false; }
      if allowed.value {
        assert Vouched(provider.log, |log|, result.value.actor);
        AnswerVouched(active, offset, result.value, log, provider.log, |old(provider.log)|);
      } else {
        RefusedGrows(provider.log, provider.log, |log|, |old(provider.log)|);
      }
      return true, allowed.value;
    }

    lemma AnswerVouched(list: seq<Publication>, k: nat, result: CommentObject, log: seq<PermissionRead>, more: seq<PermissionRead>, since: nat)
      requires k < |list| && since <= |log| && log <= more && CommentFor(e, list[k].key) == Some(result) && RecoveryKind(e, list[k].key) == Some(Comment)
      requires ReplyVouched(e, list[k], Behind(list, k), log, since) && Vouched(more, |log|, result.actor)
      ensures AnsweredAt(e, list, k, more, since)
      ensures exists c :: c in e.comments && IsReplyTo(c, list[k], Behind(list, k))
    {
      assert AuthoredBy(e, list[k], result.actor);
      AuthorVouchedGrows(e, list[k], more, more, |log|, since);
      ReplyVouchedGrows(e, list[k], Behind(list, k), log, more, since, since);
    }

    // ----- Results answered before downstream work of a migrated gate (1029-1053) -----

    method RetireAnsweredResults(committed: seq<PublicationKind>) returns (ok: bool)
      requires Valid() && e.migration.Some? && PathFrom(flow, start.value, stage) == Some(committed)
      requires e.migration.value.start != stage && flow.KindOf(e.migration.value.start) == Some(HumanGate)
      modifies this`active, this`drops, this`cuts, provider
      ensures Valid() && |active| <= |old(active)| && old(provider.log) <= provider.log
      ensures ok <==> provider.failures == old(provider.failures)
      ensures |active| == |old(active)| ==> active == old(active)
      ensures ok && |active| == |old(active)| ==> !AnsweredLeads(e, flow, stage, active, committed) || SomeRefused(provider.log, |old(provider.log)|)
    {
      hide Accounted, Traced, Led;
      ghost var before := provider.log;
      while |active| > |committed| && RecoveryKind(e, active[0].key) == Some(Comment)
        invariant provider.failures == old(provider.failures)
        invariant Valid() && |active| <= |old(active)| && before <= provider.log
        invariant |active| == |old(active)| ==> active == old(active)
        decreases |active|
      {
        ghost var log := provider.log;
        var found;
        ok, found := FindReply(active[0], Behind(active, 0));
        if !ok { return false; }
        if !found {
          if SomeRefused(provider.log, |log|) { RefusedGrows(provider.log, provider.log, |log|, |before|); }
          return true;
        }
        assert active[0..0 + 1] == [active[0]];
        ReplyIsThere(active[0], Behind(active, 0), provider.log, |log|);
        Retire(0, 1, start.value, Answered(Behind(active, 0)), AnsweredByWriter, |log|);
      }
      return true;
    }

    lemma ReplyIsThere(p: Publication, next: Option<Publication>, log: seq<PermissionRead>, since: nat)
      requires ReplyVouched(e, p, next, log, since)
      ensures exists c :: c in e.comments && IsReplyTo(c, p, next)
    {
    }

    // ----- Superseded development completions (1054-1126) -----

    ghost predicate NoneSuperseded(list: seq<Publication>, from: StateId, n: nat)
      requires n <= |flow.order|
    {
      forall j :: 0 <= j < n ==> !CompletionSuperseded(e, flow, from, list, flow.order[j])
    }

    method RetireDevelopment() returns (ok: bool)
      requires Valid() && e.migration.Some?
      modifies this`active, this`drops, this`cuts, provider
      ensures Valid() && |active| <= |old(active)| && old(provider.log) <= provider.log
      ensures ok <==> provider.failures == old(provider.failures)
      ensures |active| == |old(active)| ==> active == old(active)
      ensures ok && |active| == |old(active)| ==> NoneSuperseded(active, start.value, |flow.order|) || SomeRefused(provider.log, |old(provider.log)|)
    {
      hide Accounted, Traced, Led;
      ghost var before := provider.log;
      for i := 0 to |flow.order|
        invariant provider.failures == old(provider.failures)
        invariant Valid() && start.Some? && |active| <= |old(active)| && before <= provider.log
        invariant |active| == |old(active)| ==> active == old(active)
        invariant |active| == |old(active)| ==> NoneSuperseded(active, start.value, i) || SomeRefused(provider.log, |before|)
      {
        ghost var log := provider.log;
        ok := RetireCompletions(flow.order[i]);
        if !ok { return false; }
        KeepsRefusals(log);
        if SomeRefused(provider.log, |log|) { RefusedGrows(provider.log, provider.log, |log|, |before|); }
      }
      return true;
    }

    /** One development stage, as often as its completion was superseded. */
    method RetireCompletions(development: StateId) returns (ok: bool)
      requires Valid() && e.migration.Some? && development in flow.order
      modifies this`active, this`drops, this`cuts, provider
      ensures Valid() && |active| <= |old(active)| && old(provider.log) <= provider.log
      ensures ok <==> provider.failures == old(provider.failures)
      ensures |active| == |old(active)| ==> active == old(active)
      ensures ok && |active| == |old(active)| ==>
                !CompletionSuperseded(e, flow, start.value, active, development) || SomeRefused(provider.log, |old(provider.log)|)
    {
      hide Accounted, Traced, Led;
      if flow.ContractOf(development) != Some(Development) { return true; }
      var next := flow.Target(development, AgentSucceeded);
      var documented := ContractAt(flow, next) == Some(DocumentationResult);
      var review := if documented then flow.Target(next.value, AgentSucceeded) else next;
      if ContractAt(flow, review) != Some(ReviewResult)
        || flow.Target(review.value, ReviewChangesRequested) != Some(development) { return true; }
      var prefix := PathFrom(flow, start.value, development);
      if prefix.None? || !MatchesPrefix(e, prefix.value, active) { return true; }
      var retriesCi := |flow.requiredChecks| > 0
        && (flow.Target(development, CiFailed) == Some(development) || flow.Target(review.value, CiFailed) == Some(development));
      ghost var before := provider.log;
      var more := true;
      while more
        invariant provider.failures == old(provider.failures)
        invariant Valid() && start.Some? && |active| <= |old(active)| && before <= provider.log
        invariant |active| == |old(active)| ==> active == old(active)
        invariant ReachesTo(e, flow, start.value, active, development)
        invariant |active| == |old(active)| && !more ==>
                    !SupersededAt(e, active, |prefix.value|, documented, retriesCi) || SomeRefused(provider.log, |before|)
        decreases |active|, more
      {
        ghost var log := provider.log;
        var n;
        ok, n := RetireCompletion(development, |prefix.value|, documented, retriesCi);
        if !ok { return false; }
        if SomeRefused(provider.log, |log|) { RefusedGrows(provider.log, provider.log, |log|, |before|); }
        more := n > 0;
      }
      return true;
    }

    /** Where a completion of `development` stands, and what the flow says about it. */
    ghost predicate AtCompletion(development: StateId, index: nat, documented: bool, retriesCi: bool)
      requires start.Some?
      reads this
    {
      && e.migration.Some? && development in flow.order && IsReviewedDevelopment(flow, development)
      && ReachesTo(e, flow, start.value, active, development) && index == |PathFrom(flow, start.value, development).value|
      && documented == Documented(flow, development) && retriesCi == RetriesCi(flow, development)
    }

    /** Retires the completion at `index` (with its report) when a later completion or a rejection review supersedes it. */
    method RetireCompletion(development: StateId, index: nat, documented: bool, retriesCi: bool) returns (ok: bool, n: nat)
      requires Valid() && start.Some? && AtCompletion(development, index, documented, retriesCi)
      modifies this`active, this`drops, this`cuts, provider
      ensures Valid() && old(provider.log) <= provider.log
      ensures ok <==> provider.failures == old(provider.failures)
      ensures n > 0 ==>
                && ok && n <= 3 && index + n <= |old(active)| && active == old(active)[..index] + old(active)[index + n..]
                && SupersededAt(e, old(active), index, documented, retriesCi) && ReachesTo(e, flow, start.value, active, development)
      ensures n == 0 ==> active == old(active)
      ensures ok && n == 0 ==> !SupersededAt(e, active, index, documented, retriesCi) || SomeRefused(provider.log, |old(provider.log)|)
    {
      hide Accounted, Traced, Led, ReachesTo, IsReviewedDevelopment, Documented, RetriesCi, PathFrom, IsReport, IsReview, NoInputBetween, SomeRefused;
      if index + 1 >= |active| || RecoveryKind(e, active[index].key) != Some(Comment) { return true, 0; }
      ghost var before := |provider.log|;
      var usable: bool;
      var report: Option<CommentObject>;
      ok, usable, report := ReportBehind(active[index + 1], documented);
      if !usable { return ok, 0; }
      assert Length(report) == CompletionLength(e, active, index, documented);
      if index + Length(report) >= |active| { return true, 0; }
      ghost var list := active;
      ok, n := CloseCompletion(development, index, documented, retriesCi, report, before);
      if n > 0 { StillReaches(list, index, n, development); }
    }

    /** Retires the completion with the report that was found for it, when what follows supersedes it. */
    method CloseCompletion(development: StateId, index: nat, documented: bool, retriesCi: bool, report: Option<CommentObject>, ghost since: nat)
      returns (ok: bool, n: nat)
      requires Valid() && start.Some? && AtCompletion(development, index, documented, retriesCi) && since <= |provider.log|
      requires index + Length(report) < |active| && RecoveryKind(e, active[index].key) == Some(Comment)
      requires VerifiedFor(active[index + 1], report, provider.log, since)
      requires Length(report) == CompletionLength(e, active, index, documented)
      modifies this`active, this`drops, this`cuts, provider
      ensures Valid() && old(provider.log) <= provider.log
      ensures ok <==> provider.failures == old(provider.failures)
      ensures n > 0 ==>
                && ok && n <= 3 && index + n <= |old(active)| && active == old(active)[..index] + old(active)[index + n..]
                && Follows(old(active), index, documented, retriesCi, report)
      ensures n == 0 ==> active == old(active)
      ensures ok && n == 0 ==> !Follows(active, index, documented, retriesCi, report) || SomeRefused(provider.log, since)
    {
      hide Accounted, Traced, Led, ReachesTo, IsReviewedDevelopment, AtCompletion, NoInputBetween, IsReview, CompletionLength;
      var nextKind := RecoveryKind(e, active[index + Length(report)].key);
      if nextKind == Some(Comment) && retriesCi {
        ok, n := RetireRetried(development, index, documented, report, since);
      } else if nextKind == Some(Review) && (!documented || report.Some?) {
        ok, n := RetireRejected(development, index, documented, retriesCi, report, since);
      } else {
        return true, 0;
      }
    }

    /** What follows the completion with its report supersedes it. */
    ghost predicate Follows(list: seq<Publication>, index: nat, documented: bool, retriesCi: bool, report: Option<CommentObject>)
      requires index + Length(report) < |list| && (report.Some? ==> IsReport(e, list[index + 1]))
    {
      (retriesCi && RetriedAt(e, list, index, Length(report))) || RejectedAt(e, list, index, Length(report), documented)
    }

    /** Cutting behind the prefix leaves it. */
    lemma StillReaches(list: seq<Publication>, index: nat, n: nat, development: StateId)
      requires start.Some? && index + n <= |list| && ReachesTo(e, flow, start.value, list, development)
      requires index == |PathFrom(flow, start.value, development).value|
      ensures ReachesTo(e, flow, start.value, list[..index] + list[index + n..], development)
    {
    }

    /** The report at `p`, when documentation is due; a report that cannot be verified makes the completion unusable. */
    method ReportBehind(p: Publication, documented: bool) returns (ok: bool, usable: bool, report: Option<CommentObject>)
      requires Valid()
      modifies provider
      ensures Valid() && old(provider.log) <= provider.log
      ensures ok <==> provider.failures == old(provider.failures)
      ensures usable ==> ok && VerifiedFor(p, report, provider.log, |old(provider.log)|)
      ensures usable ==> (report.Some? <==> documented && RecoveryKind(e, p.key) == Some(Documentation))
      ensures ok && !usable ==>
                documented && RecoveryKind(e, p.key) == Some(Documentation) && (!IsReport(e, p) || SomeRefused(provider.log, |old(provider.log)|))
    {
      hide Accounted, Traced, Led;
      if !documented || RecoveryKind(e, p.key) != Some(Documentation) { return true, true, None; }
      ok, report := VerifiedReport(p);
      usable := ok && report.Some?;
    }

    /** The documentation report behind a publication, if it is for the linked change and its author may write. */
    method VerifiedReport(p: Publication) returns (ok: bool, report: Option<CommentObject>)
      requires Valid()
      modifies provider
      ensures Valid() && old(provider.log) <= provider.log
      ensures ok <==> provider.failures == old(provider.failures)
      ensures report.Some? ==> ok && VerifiedFor(p, report, provider.log, |old(provider.log)|)
      ensures ok && report.None? ==> !IsReport(e, p) || SomeRefused(provider.log, |old(provider.log)|)
    {
      hide Accounted, Traced, Led;
      ghost var before := provider.log;
      report := CommentFor(e, p.key);
      if report.None? || report.value.report.None? || e.linked.None?
        || report.value.report.value.change != e.linked.value.number { return true, None; }
      var allowed := AllMayWrite([report.value.actor]);
      if allowed.None? { return false, None; }
      if !allowed.value { return true, None; }
      assert AuthoredBy(e, p, report.value.actor);
      assert Vouched(provider.log, |before|, report.value.actor);
      return true, report;
    }

    ghost predicate VerifiedFor(p: Publication, report: Option<CommentObject>, log: seq<PermissionRead>, since: nat) {
      report.Some? ==>
        report == CommentFor(e, p.key) && IsReport(e, p) && AuthoredBy(e, p, report.value.actor) && Vouched(log, since, report.value.actor)
    }

    /** The completions at `index` and behind it, when no human input lies between them. */
    method Retry(index: nat, length: nat) returns (completion: Option<CommentObject>, later: Option<CommentObject>)
      requires index + length < |active| && RecoveryKind(e, active[index + length].key) == Some(Comment)
      ensures completion.Some? <==> later.Some?
      ensures completion.Some? <==> RetriedAt(e, active, index, length)
      ensures completion.Some? ==> completion == CommentFor(e, active[index].key) && later == CommentFor(e, active[index + length].key)
    {
      completion, later := CommentFor(e, active[index].key), CommentFor(e, active[index + length].key);
      if completion.None? || later.None?
        || exists c :: c in e.comments && completion.value.createdAt < c.createdAt < later.value.createdAt && !c.marked && !c.command {
        return None, None;
      }
    }

    /** A CI retry: another authorized completion follows, with no reply between the two. */
    method RetireRetried(development: StateId, index: nat, documented: bool, report: Option<CommentObject>, ghost since: nat) returns (ok: bool, n: nat)
      requires Valid() && start.Some? && AtCompletion(development, index, documented, true) && since <= |provider.log|
      requires index + Length(report) < |active| && RecoveryKind(e, active[index + Length(report)].key) == Some(Comment)
      requires RecoveryKind(e, active[index].key) == Some(Comment) && VerifiedFor(active[index + 1], report, provider.log, since)
      requires Length(report) == CompletionLength(e, active, index, documented)
      modifies this`active, this`drops, this`cuts, provider
      ensures Valid() && old(provider.log) <= provider.log
      ensures ok <==> provider.failures == old(provider.failures)
      ensures n > 0 ==>
                && ok && n == Length(report) && active == old(active)[..index] + old(active)[index + n..]
                && RetriedAt(e, old(active), index, Length(report))
      ensures n == 0 ==> active == old(active)
      ensures ok && n == 0 ==> !RetriedAt(e, active, index, Length(report)) || SomeRefused(provider.log, since)
    {
      hide Accounted, Traced, Led, Backed, Placed, IsReviewedDevelopment, ReachesTo, IsReport, PathFrom, RetriesCi, Vouched, AuthoredBy, AuthorVouched, WasCut, Documented;
      var length := Length(report);
      var completion, later := Retry(index, length);
      if completion.None? { return true, 0; }
      ghost var log := provider.log;
      var allowed := AllMayWrite([completion.value.actor, later.value.actor]);
      if allowed.None? { return false, 0; }
      if !allowed.value {
        RefusedGrows(provider.log, provider.log, |log|, since);
        return true, 0;
      }
      RetriedBacked(e, active[index..index + length], development, active[index + length], completion.value, later.value, log, provider.log, since);
      RetriedPlaced(e, flow, stage, start.value, active, index, development, active[index + length]);
      Retire(index, length, start.value, Retried(development, active[index + length]), AuthorsMayWrite, since);
      return true, length;
    }

    /** A verified rejection closes the completion and review iteration, even after the head moved on. */
    method RetireRejected(development: StateId, index: nat, documented: bool, ghost retriesCi: bool, report: Option<CommentObject>, ghost since: nat)
      returns (ok: bool, n: nat)
      requires Valid() && start.Some? && AtCompletion(development, index, documented, retriesCi) && since <= |provider.log|
      requires index + Length(report) < |active| && RecoveryKind(e, active[index].key) == Some(Comment)
      requires RecoveryKind(e, active[index + Length(report)].key) == Some(Review) && (documented ==> report.Some?)
      requires VerifiedFor(active[index + 1], report, provider.log, since)
      requires Length(report) == CompletionLength(e, active, index, documented)
      modifies this`active, this`drops, this`cuts, provider
      ensures Valid() && old(provider.log) <= provider.log
      ensures ok <==> provider.failures == old(provider.failures)
      ensures n > 0 ==>
                && ok && n == Length(report) + 1 && active == old(active)[..index] + old(active)[index + n..]
                && RejectedAt(e, old(active), index, Length(report), documented)
      ensures n == 0 ==> active == old(active)
      ensures ok && n == 0 ==> !RejectedAt(e, active, index, Length(report), documented) || SomeRefused(provider.log, since)
    {
      hide Accounted, Traced, Led, Backed, Placed, IsReviewedDevelopment, ReachesTo, RejectedAt, RetriesCi, PathFrom, AuthorVouched, Warranted, AuthoredBy, Vouched, IsReport;
      var authors := RejectionAuthors(index, documented, report, development);
      if authors.None? { return true, 0; }
      var length := Length(report) + 1;
      ghost var log := provider.log;
      var allowed := RejectionAllowed(index, report, authors.value[0], authors.value[1], since);
      if allowed.None? { return false, 0; }
      if !allowed.value {
        RefusedGrows(provider.log, provider.log, |log|, since);
        return true, 0;
      }
      BackedByAuthors(e, active[index..index + length], ReworkRejected(development), provider.log, since);
      RejectedPlaced(e, flow, stage, start.value, active, index, development);
      Retire(index, length, start.value, ReworkRejected(development), AuthorsMayWrite, since);
      return true, length;
    }

    /** Asks whether the completer and the rejecter may write. */
    method RejectionAllowed(index: nat, report: Option<CommentObject>, completer: Actor, rejecter: Actor, ghost since: nat)
      returns (r: Option<bool>)
      requires Valid() && index + Length(report) < |active| && since <= |provider.log|
      requires VerifiedFor(active[index + 1], report, provider.log, since)
      requires AuthoredBy(e, active[index], completer) && AuthoredBy(e, active[index + Length(report)], rejecter)
      modifies provider
      ensures Valid() && old(provider.log) <= provider.log
      ensures r.Some? <==> provider.failures == old(provider.failures)
      ensures r == Some(true) ==> forall p :: p in active[index..index + (Length(report) + 1)] ==> AuthorVouched(e, p, provider.log, since)
      ensures r == Some(false) ==> SomeRefused(provider.log, |old(provider.log)|)
    {
      hide Accounted, Traced, Led;
      ghost var log := provider.log;
      r := AllMayWrite([completer, rejecter]);
      if r == Some(true) {
        assert completer in [completer, rejecter] && rejecter in [completer, rejecter];
        RejectionVouched(e, active[index..index + (Length(report) + 1)], completer, rejecter, log, provider.log, since);
      }
    }

    /** Who completed the work and who rejected it, when the review behind the completion does reject that very head. */
    method RejectionAuthors(index: nat, documented: bool, report: Option<CommentObject>, ghost development: StateId) returns (r: Option<seq<Actor>>)
      requires index + Length(report) < |active| && RecoveryKind(e, active[index].key) == Some(Comment)
      requires RecoveryKind(e, active[index + Length(report)].key) == Some(Review) && (documented ==> report.Some?)
      requires report.Some? ==> report == CommentFor(e, active[index + 1].key) && IsReport(e, active[index + 1])
      ensures r.Some? <==> RejectedAt(e, active, index, Length(report), documented)
      ensures r.Some? ==> |r.value| == 2 && AuthoredBy(e, active[index], r.value[0]) && AuthoredBy(e, active[index + Length(report)], r.value[1])
      ensures r.Some? ==> Warranted(e, active[index..index + (Length(report) + 1)], ReworkRejected(development))
    {
      var following := active[index + Length(report)];
      var completion, rejection := CommentFor(e, active[index].key), ReviewFor(e, following.key);
      if completion.None? || rejection.None? || !rejection.value.verdict.ChangesRequested? || !IsSha(rejection.value.headSha)
        || (report.Some? && report.value.report.value.resultHead != rejection.value.headSha) { return None; }
      assert IsReview(e, following, ChangesRequested);
      return Some([completion.value.actor, rejection.value.actor]);
    }

    function Length(report: Option<CommentObject>): nat {
      if report.Some? then 2 else 1
    }

    // ----- Verified approvals of an earlier head (1127-1156) -----

    ghost predicate NoOldApproval(list: seq<Publication>, from: StateId, n: nat)
      requires n <= |flow.order|
    {
      forall j :: 0 <= j < n ==> !OldApprovalLeft(e, flow, from, list, flow.order[j])
    }

    method RetireOldHeads(linked: Change) returns (ok: bool)
      requires Valid() && e.migration.Some? && e.linked == Some(linked)
      modifies this`active, this`drops, this`cuts, provider
      ensures Valid() && |active| <= |old(active)| && old(provider.log) <= provider.log
      ensures ok <==> provider.failures == old(provider.failures)
      ensures |active| == |old(active)| ==> active == old(active)
      ensures ok && |active| == |old(active)| ==> NoOldApproval(active, start.value, |flow.order|) || SomeRefused(provider.log, |old(provider.log)|)
    {
      hide Accounted, Traced, Led;
      ghost var before := provider.log;
      for i := 0 to |flow.order|
        invariant provider.failures == old(provider.failures)
        invariant Valid() && start.Some? && |active| <= |old(active)| && before <= provider.log
        invariant |active| == |old(active)| ==> active == old(active)
        invariant |active| == |old(active)| ==> NoOldApproval(active, start.value, i) || SomeRefused(provider.log, |before|)
      {
        ghost var log := provider.log;
        ok := RetireOldHeadsOf(flow.order[i], linked);
        if !ok { return false; }
        KeepsRefusals(log);
        if SomeRefused(provider.log, |log|) { RefusedGrows(provider.log, provider.log, |log|, |before|); }
      }
      return true;
    }

    method RetireOldHeadsOf(verification: StateId, linked: Change) returns (ok: bool)
      requires Valid() && e.migration.Some? && e.linked == Some(linked) && verification in flow.order
      modifies this`active, this`drops, this`cuts, provider
      ensures Valid() && |active| <= |old(active)| && old(provider.log) <= provider.log
      ensures ok <==> provider.failures == old(provider.failures)
      ensures |active| == |old(active)| ==> active == old(active)
      ensures ok && |active| == |old(active)| ==>
                !OldApprovalLeft(e, flow, start.value, active, verification) || SomeRefused(provider.log, |old(provider.log)|)
    {
      hide Accounted, Traced, Led;
      var review := flow.Target(verification, ChangeRequestUpdated);
      if flow.ContractOf(verification) != Some(Verification) || ContractAt(flow, review) != Some(ReviewResult) { return true; }
      var prefix := PathFrom(flow, start.value, verification);
      if prefix.None? || prefix.value == [] || prefix.value[|prefix.value| - 1] != Review { return true; }
      ghost var before := provider.log;
      var more := true;
      while more && MatchesPrefix(e, prefix.value, active)
        invariant provider.failures == old(provider.failures)
        invariant Valid() && start.Some? && |active| <= |old(active)| && before <= provider.log
        invariant |active| == |old(active)| ==> active == old(active)
        invariant |active| == |old(active)| && !more ==> !OldApprovalAt(e, active, |prefix.value| - 1) || SomeRefused(provider.log, |before|)
        decreases |active|, more
      {
        ghost var log := provider.log;
        ok, more := RetireOldHead(verification, |prefix.value| - 1, linked);
        if !ok { return false; }
        if SomeRefused(provider.log, |log|) { RefusedGrows(provider.log, provider.log, |log|, |before|); }
      }
      return true;
    }

    method RetireOldHead(verification: StateId, index: nat, linked: Change) returns (ok: bool, retired: bool)
      requires Valid() && e.migration.Some? && index < |active| && e.linked == Some(linked) && verification in flow.order
      requires IsRepeatedVerification(flow, start.value, verification) && ReachesTo(e, flow, start.value, active, verification)
      requires index == |PathFrom(flow, start.value, verification).value| - 1
      modifies this`active, this`drops, this`cuts, provider
      ensures Valid() && old(provider.log) <= provider.log
      ensures ok <==> provider.failures == old(provider.failures)
      ensures retired ==>
                && ok && OldApprovalAt(e, old(active), index) && active == old(active)[..index] + old(active)[index + 2..]
                && drops == old(drops) + [Drop(old(active)[index..index + 2], ApprovalSuperseded(verification), AuthorsMayWrite, |old(provider.log)|)]
      ensures !retired ==> active == old(active) && drops == old(drops)
      ensures ok && !retired ==> !OldApprovalAt(e, active, index) || SomeRefused(provider.log, |old(provider.log)|)
    {
      hide Accounted, Traced, Led;
      var approval := ReviewFor(e, active[index].key);
      var completion := if index + 1 < |active| then CommentFor(e, active[index + 1].key) else None;
      if approval.None? || !approval.value.verdict.Approved? || approval.value.headSha == linked.headSha
        || !IsSha(approval.value.headSha) || completion.None? || !completion.value.bugReceipt { return true, false; }
      assert AuthoredBy(e, active[index], approval.value.actor) && AuthoredBy(e, active[index + 1], completion.value.actor);
      assert active[index..index + 2] == [active[index], active[index + 1]];
      ok, retired := RetireAuthored(index, [approval.value.actor, completion.value.actor], start.value, ApprovalSuperseded(verification));
    }

    // ----- The fixpoint (865-1157) -----

    /** Retirement that may move the start of recovery (867-959). */
    method MoveStart() returns (ok: bool)
      requires Valid()
      modifies this`active, this`start, this`drops, this`cuts, this`moves, provider
      ensures Valid() && |active| <= |old(active)| && old(provider.log) <= provider.log
      ensures ok <==> provider.failures == old(provider.failures)
      ensures e.migration.None? ==> active == old(active) && start == old(start)
      ensures |active| == |old(active)| ==> active == old(active)
      ensures ok && e.migration.Some? && |active| == |old(active)| ==>
                HeadSettled(e, flow, stage, old(start).value, start.value, active) || SomeRefused(provider.log, |old(provider.log)|)
    {
      hide Accounted, Traced, Led;
      if e.migration.None? { return true; }
      ghost var before := provider.log;
      if |flow.requiredChecks| > 0 {
        ok := RetireFailedCi();
        if !ok { return false; }
      }
      ghost var checked := provider.log;
      if e.linked.Some? {
        ok := FollowHeadUpdate(e.linked.value);
        if !ok { return false; }
      }
      KeepsRefusals(checked);
      ghost var followed := provider.log;
      ok := RetireRejection();
      KeepsRefusals(followed);
      if SomeRefused(followed, |checked|) { RefusedGrows(followed, provider.log, |checked|, |before|); }
      if SomeRefused(provider.log, |followed|) { RefusedGrows(provider.log, provider.log, |followed|, |before|); }
    }

    /** Retirement along the path from a settled start (964-1156). */
    method RetireAlong(committed: seq<PublicationKind>) returns (ok: bool)
      requires Valid() && (e.migration.Some? ==> PathFrom(flow, start.value, stage) == Some(committed))
      modifies this`active, this`drops, this`cuts, provider
      ensures Valid() && |active| <= |old(active)| && old(provider.log) <= provider.log
      ensures ok <==> provider.failures == old(provider.failures)
      ensures e.migration.None? ==> active == old(active)
      ensures |active| == |old(active)| ==> active == old(active)
      ensures ok && e.migration.Some? && |active| == |old(active)| ==>
                WaySettled(e, flow, stage, start.value, active, committed) || SomeRefused(provider.log, |old(provider.log)|)
    {
      hide Accounted, Traced, Led, CompletionSuperseded, OldApprovalLeft, SomeRefused, AnsweredFirst, PassedBefore, ResultRevised, Gates, ResultIndex, PathFrom;
      if e.migration.None? { return true; }
      ghost var before := provider.log;
      if flow.KindOf(start.value) == Some(Agent) {
        ok := RetireGateRevisions(committed);
        if !ok { return false; }
      }
      ghost var gated := provider.log;
      if e.migration.value.start != stage && flow.KindOf(e.migration.value.start) == Some(HumanGate) {
        ok := RetireAnsweredResults(committed);
        if !ok { return false; }
      }
      ghost var answered := provider.log;
      ok := RetireDevelopment();
      if !ok { return false; }
      ghost var developed := provider.log;
      if e.linked.Some? {
        ok := RetireOldHeads(e.linked.value);
      }
      RefusedInPart(before, gated, answered, developed);
    }

    /** A refusal in any part of a round is one of the round. */
    lemma RefusedInPart(before: seq<PermissionRead>, first: seq<PermissionRead>, second: seq<PermissionRead>, third: seq<PermissionRead>)
      requires before <= first <= second <= third <= provider.log
      ensures SomeRefused(first, |before|) || SomeRefused(second, |first|) || SomeRefused(third, |second|) || SomeRefused(provider.log, |third|)
              ==> SomeRefused(provider.log, |before|)
    {
      if SomeRefused(first, |before|) { RefusedGrows(first, provider.log, |before|, |before|); }
      if SomeRefused(second, |first|) { RefusedGrows(second, provider.log, |first|, |before|); }
      if SomeRefused(third, |second|) { RefusedGrows(third, provider.log, |second|, |before|); }
      if SomeRefused(provider.log, |third|) { RefusedGrows(provider.log, provider.log, |third|, |before|); }
    }

    /** One round; None when the pinned flow has no unique path to the stage. */
    method Round() returns (r: Result<Option<seq<PublicationKind>>, string>)
      requires Valid()
      modifies this`active, this`start, this`drops, this`cuts, this`moves, provider
      ensures Valid() && |active| <= |old(active)| && old(provider.log) <= provider.log
      ensures e.migration.None? ==> active == old(active) && start == old(start)
      ensures PublicationPathOf(flow, stage, e.activation, start) == r || (r == Err(READ_FAILED) && provider.failures != old(provider.failures))
      ensures r.Ok? ==> provider.failures == old(provider.failures)
      ensures r.Ok? && r.value.Some? && e.migration.Some? && |active| == |old(active)| ==>
                NothingLeft(e, flow, stage, old(start), start, active, r.value.value) || SomeRefused(provider.log, |old(provider.log)|)
    {
      hide Accounted, Traced, Led;
      ghost var before := provider.log;
      var ok := MoveStart();
      if !ok { return Err(READ_FAILED); }
      ghost var moved := provider.log;
      r := SuccessfulPublicationPath(flow, stage, e.activation, start);
      if r.Err? || r.value.None? { return; }
      ok := RetireAlong(r.value.value);
      if !ok { return Err(READ_FAILED); }
      RefusedInPart(before, moved, moved, moved);
    }

    /**
     Repeats rounds until one retires nothing. Without a migration nothing is ever retired; with one, and nobody refused,
     no finished iteration is left.
     */
    method Run() returns (r: Result<Option<seq<PublicationKind>>, string>, ghost opening: Option<StateId>)
      requires Valid()
      modifies this`active, this`start, this`drops, this`cuts, this`moves, provider
      ensures Valid() && old(provider.log) <= provider.log
      ensures e.migration.None? ==> active == old(active) && start == old(start)
      ensures PublicationPathOf(flow, stage, e.activation, start) == r || (r == Err(READ_FAILED) && provider.failures != old(provider.failures))
      ensures r.Ok? ==> provider.failures == old(provider.failures)
      ensures r.Ok? && r.value.Some? && e.migration.Some? ==> NothingLeft(e, flow, stage, opening, start, active, r.value.value) || SomeRefused(provider.log, |old(provider.log)|)
    {
      hide Accounted, Traced, Led;
      ghost var before := provider.log;
      var more := true;
      r, opening := Ok(None), start;
      while more
        invariant provider.failures == old(provider.failures)
        invariant Valid() && before <= provider.log
        invariant e.migration.None? ==> active == old(active) && start == old(start)
        invariant !more ==> r.Ok? && r.value.Some? && PublicationPathOf(flow, stage, e.activation, start) == Ok(r.value)
        invariant !more && e.migration.Some? ==> NothingLeft(e, flow, stage, opening, start, active, r.value.value) || SomeRefused(provider.log, |before|)
        decreases |active|, more
      {
        var previous := |active|;
        ghost var log := provider.log;
        opening := start;
        r := Round();
        if r.Err? || r.value.None? { return; }
        if SomeRefused(provider.log, |log|) { RefusedGrows(provider.log, provider.log, |log|, |before|); }
        more := |active| < previous;
      }
    }
  }
}
