/** The recovery decision as a whole: which evidence leads to which answer (src/runtime/recovery.ts:10-64). */
module RecoveryDecision {
  import opened Basics
  import opened Ownership

  /** Someone wants the ticket worked on, or its work has just been merged. */
  predicate Active(e: Evidence) {
    (e.activationPresent && e.open) || MergedCompletion(e)
  }

  /** The provider's evidence is whole and says one thing. */
  predicate Clear(e: Evidence) {
    e.complete && !e.legacyActive && !e.boundary.AmbiguousBoundary? && e.ambiguities == [] && |e.changes| <= 1
  }

  /** Whatever was published without provenance hangs on the earlier elected owner. */
  ghost predicate Anchored(e: Evidence) {
    Timed(e.publications) && forall p :: p in e.publications && !p.eligible ==> HangsOn(ElectOwner(e.publications).value, p)
  }

  predicate HangsOn(owner: Option<Publication>, p: Publication) {
    owner.Some? && owner.value.controller == p.controller && owner.value.config == p.config && Time(owner.value) < Time(p)
  }

  /** The owner published under one pin, and nobody else published a change. */
  predicate Undisputed(e: Evidence, owner: Publication) {
    && (forall p, q :: p in e.publications && q in e.publications && p.controller == owner.controller && q.controller == owner.controller ==> p.config == q.config)
    && (e.migration.Some? || exists p :: p in e.publications && p.controller == owner.controller)
    && (forall p :: p in e.publications && p.controller != owner.controller ==> p.subject != "change-request")
  }

  predicate Untouched(e: Evidence) {
    e.boundary.Fresh? && e.publications == []
  }

  /** Exactly one label names a stage, and not one that waits for a human decision about where to resume. */
  ghost predicate StageKnown(e: Evidence) {
    exists i :: 0 <= i < |e.labels| && IsStage(e.labels[i]) && e.labels[i] != "agent-stage:blocked" && e.labels[i] != "agent-stage:needs-human"
                && forall j :: 0 <= j < |e.labels| && IsStage(e.labels[j]) ==> j == i
  }

  /** The controller may go on: the evidence is its own, or nobody's, and undisputed. */
  ghost predicate MayGoOn(e: Evidence, controllerId: string) {
    && Active(e) && Clear(e) && Anchored(e)
    && var owner := OwnerOf(e).value;
    && (owner.Some? ==> owner.value.controller == controllerId && Undisputed(e, owner.value))
  }

  lemma OneTime(e: Evidence)
    ensures UnanchoredKeys(e.publications).Ok? <==> Timed(e.publications)
    ensures Timed(e.publications) ==> OwnerOf(e).Ok?
    ensures Anchored(e) <==> UnanchoredKeys(e.publications) == Ok([])
  {
    if Timed(e.publications) {
      var owner := ElectOwner(e.publications).value;
      var loose := Filter((p: Publication) => Unanchored(owner, p), e.publications);
      assert |Map((p: Publication) => p.key, loose)| == |loose|;
      if loose != [] { assert loose[0] in loose; }
      forall p | p in e.publications && Unanchored(owner, p) ensures loose != [] { assert p in loose; }
    }
  }

  lemma TicketVerdictIs(e: Evidence)
    ensures TicketVerdict(e).None? <==> Active(e) && Clear(e)
    ensures !Active(e) ==> TicketVerdict(e).Some? && TicketVerdict(e).value.kind.Inactive?
    ensures Active(e) && !Clear(e) ==> TicketVerdict(e).Some? && TicketVerdict(e).value.kind.Ambiguous?
  {
  }

  lemma OwnerVerdictIs(e: Evidence, owner: Publication)
    ensures OwnerVerdict(e, owner).None? <==> Undisputed(e, owner)
    ensures OwnerVerdict(e, owner).Some? ==> OwnerVerdict(e, owner).value.kind.Ambiguous?
  {
    var pins := WinningPins(e, owner.controller);
    forall p, q | |pins| <= 1 && p in e.publications && q in e.publications && p.controller == owner.controller && q.controller == owner.controller
      ensures p.config == q.config
    {
      assert p.config in pins && q.config in pins;
      SubsetCardinality({p.config, q.config}, pins);
    }
    if |pins| > 1 {
      var c :| c in pins;
      if forall d :: d in pins ==> d == c { SubsetCardinality(pins, {c}); }
    }
    if p: Publication :| p in e.publications && p.controller == owner.controller { assert p.config in pins; }
  }

  lemma StageVerdictIs(e: Evidence, owner: Option<Publication>)
    ensures var kind := StageVerdict(e, owner).kind;
            && (kind.Resume? <==> Untouched(e) || (StageKnown(e) && owner.None?))
            && (kind.Reassess? <==> !Untouched(e) && StageKnown(e) && owner.Some?)
            && (!kind.Resume? && !kind.Reassess? ==> kind.Ambiguous?)
  {
    var stages := Stages(e.labels);
    StagesAre(e.labels);
    if |stages| == 1 {
      var found := stages[0];
      assert found in stages;
      assert found == STAGE_PREFIX + found[|STAGE_PREFIX|..];
      assert "agent-stage:blocked"[|STAGE_PREFIX|..] == "blocked" && "agent-stage:needs-human"[|STAGE_PREFIX|..] == "needs-human";
      assert STAGE_PREFIX + "blocked" == "agent-stage:blocked" && STAGE_PREFIX + "needs-human" == "agent-stage:needs-human";
    }
  }

  lemma StagesAre(labels: seq<string>)
    ensures forall l :: Stages(labels) == [l] <==>
              exists i :: 0 <= i < |labels| && labels[i] == l && IsStage(l) && forall j :: 0 <= j < |labels| && IsStage(labels[j]) ==> j == i
    ensures |Stages(labels)| == 1 ==> Stages(labels) == [Stages(labels)[0]]
  {
    forall l ensures Stages(labels) == [l] <==>
              exists i :: 0 <= i < |labels| && labels[i] == l && IsStage(l) && forall j :: 0 <= j < |labels| && IsStage(labels[j]) ==> j == i
    {
      FilterSingle((x: string) => IsStage(x), labels, l);
    }
  }

  lemma OwnedVerdictIs(e: Evidence, controllerId: string, owner: Option<Publication>)
    ensures var d := OwnedVerdict(e, controllerId, Ok(owner), Ok([])); var mine := owner.Some? ==> owner.value.controller == controllerId;
            && d.Ok? && !d.value.kind.Inactive?
            && (d.value.kind.Foreign? <==> !mine)
            && (d.value.kind.Resume? <==>
                  mine && (owner.Some? ==> Undisputed(e, owner.value)) && (Untouched(e) || (StageKnown(e) && owner.None?)))
            && (d.value.kind.Reassess? <==>
                  mine && (owner.Some? ==> Undisputed(e, owner.value)) && !Untouched(e) && StageKnown(e) && owner.Some?)
  {
    StageVerdictIs(e, owner);
    if owner.Some? { OwnerVerdictIs(e, owner.value); }
  }

  lemma LooseIsAmbiguous(e: Evidence, controllerId: string, owner: Option<Publication>, keys: seq<string>)
    requires keys != []
    ensures var d := OwnedVerdict(e, controllerId, Ok(owner), Ok(keys)); d.Ok? && d.value.kind.Ambiguous?
  {
  }

  lemma UntimedIsAnError(e: Evidence, controllerId: string)
    requires !Timed(e.publications)
    ensures OwnedVerdict(e, controllerId, OwnerOf(e), UnanchoredKeys(e.publications)).Err?
  {
  }

  /** Every answer of recovery, with exactly the evidence that leads to it. */
  lemma DecisionIs(e: Evidence, controllerId: string)
    ensures var d := ClassifyRecovery(e, controllerId);
            && (d.Err? <==> Active(e) && Clear(e) && !Timed(e.publications))
            && (d.Ok? ==>
                  && (d.value.kind.Inactive? <==> !Active(e))
                  && (d.value.kind.Foreign? <==>
                        Active(e) && Clear(e) && Anchored(e) && OwnerOf(e).value.Some? && OwnerOf(e).value.value.controller != controllerId)
                  && (d.value.kind.Resume? <==> MayGoOn(e, controllerId) && (Untouched(e) || (StageKnown(e) && OwnerOf(e).value.None?)))
                  && (d.value.kind.Reassess? <==> MayGoOn(e, controllerId) && !Untouched(e) && StageKnown(e) && OwnerOf(e).value.Some?))
  {
    TicketVerdictIs(e);
    OneTime(e);
    if Active(e) && Clear(e) {
      var owner, unanchored := OwnerOf(e), UnanchoredKeys(e.publications);
      assert ClassifyRecovery(e, controllerId) == OwnedVerdict(e, controllerId, owner, unanchored);
      if !Timed(e.publications) {
        UntimedIsAnError(e, controllerId);
      } else if unanchored != Ok([]) {
        LooseIsAmbiguous(e, controllerId, owner.value, unanchored.value);
      } else {
        OwnedVerdictIs(e, controllerId, owner.value);
      }
    }
  }

  lemma StageVerdictNames(e: Evidence, owner: Option<Publication>)
    ensures var d := StageVerdict(e, owner);
            && d.owner == (if d.kind.Resume? && Untouched(e) then None else owner)
            && (d.reason.None? <==> d.kind.Resume? || d.kind.Reassess?)
  {
  }

  lemma OwnerVerdictNames(e: Evidence, owner: Publication)
    ensures var d := OwnerVerdict(e, owner);
            d.Some? ==> d.value.owner == Some(owner) && d.value.reason.Some? && d.value.kind.Ambiguous?
  {
  }

  lemma TicketVerdictNames(e: Evidence)
    ensures var d := TicketVerdict(e);
            d.Some? ==> d.value.owner.None? && d.value.reason.Some? && (d.value.kind.Inactive? || d.value.kind.Ambiguous?)
  {
  }

  /** The controller's own evidence: the owner's conflict, if there is one, and else the stage decide. */
  lemma UndisputedVerdict(e: Evidence, controllerId: string, owner: Option<Publication>)
    requires owner.Some? ==> owner.value.controller == controllerId
    ensures var conflict := if owner.Some? then OwnerVerdict(e, owner.value) else None;
            OwnedVerdict(e, controllerId, Ok(owner), Ok([])) == Ok(if conflict.Some? then conflict.value else StageVerdict(e, owner))
  {
    hide OwnerVerdict, StageVerdict;
  }

  lemma DisputedVerdict(e: Evidence, controllerId: string, owner: Result<Option<Publication>, OwnerError>, unanchored: Result<seq<string>, OwnerError>)
    requires !(owner.Ok? && unanchored == Ok([]) && (owner.value.Some? ==> owner.value.value.controller == controllerId))
    ensures var d := OwnedVerdict(e, controllerId, owner, unanchored);
            d.Ok? ==> owner.Ok? && d.value.owner == owner.value && d.value.reason.Some? && (d.value.kind.Ambiguous? || d.value.kind.Foreign?)
  {
    hide OwnerVerdict, StageVerdict;
  }

  lemma OwnedVerdictNames(e: Evidence, controllerId: string, owner: Result<Option<Publication>, OwnerError>, unanchored: Result<seq<string>, OwnerError>)
    ensures var d := OwnedVerdict(e, controllerId, owner, unanchored);
            d.Ok? ==>
              && owner.Ok? && d.value.owner == (if d.value.kind.Resume? && Untouched(e) then None else owner.value)
              && (d.value.reason.None? <==> d.value.kind.Resume? || d.value.kind.Reassess?)
  {
    hide *;
    if owner.Ok? && unanchored == Ok([]) && (owner.value.Some? ==> owner.value.value.controller == controllerId) {
      StageVerdictNames(e, owner.value);
      if owner.value.Some? { OwnerVerdictNames(e, owner.value.value); }
      UndisputedVerdict(e, controllerId, owner.value);
    } else {
      DisputedVerdict(e, controllerId, owner, unanchored);
    }
  }

  /** A decision names the owner unless the ticket alone decided it or nothing was ever published, and gives a reason exactly when it stops the work. */
  lemma DecisionNamesOwnerAndReason(e: Evidence, controllerId: string)
    ensures var d := ClassifyRecovery(e, controllerId);
            d.Ok? ==>
              && d.value.owner == (if !Active(e) || !Clear(e) || (d.value.kind.Resume? && Untouched(e)) then None else OwnerOf(e).value)
              && (d.value.reason.None? <==> d.value.kind.Resume? || d.value.kind.Reassess?)
  {
    hide OwnerOf, UnanchoredKeys, OwnedVerdict, TicketVerdict, Active, Clear, Untouched;
    TicketVerdictIs(e);
    TicketVerdictNames(e);
    OwnedVerdictNames(e, controllerId, OwnerOf(e), UnanchoredKeys(e.publications));
  }
}
