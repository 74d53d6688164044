/**
 Provider evidence as crash recovery reads it (src/provider/types.ts:85-103, src/provider/publication.ts:18-23),
 and the lookups that src/runtime/reconcile.ts makes over it. Bodies appear as what their parsers found in them.
 */
module RecoveryEvidence {
  import opened Basics
  import opened Flow
  import opened FlowPaths

  type Actor = string

  datatype Permission = NoPermission | ReadPermission | Triage | Write | Maintain | Admin

  predicate IsAuthorized(p: Permission) {
    p.Write? || p.Maintain? || p.Admin?
  }

  /** A publication key: the JSON list of provider, API scope, repository, object kind and id, or some other text. */
  datatype Key = Key(provider: string, scope: string, repository: string, kind: string, id: string) | OtherKey(text: string)

  datatype Publication = Publication(key: Key, createdAt: int, controller: string, config: string, eligible: bool)

  datatype Report = Report(change: int, inputHead: string, resultHead: string)

  datatype CommentObject = CommentObject(
    id: string, actor: Actor, createdAt: int,
    marked: bool,                  // carries any publication marker
    command: bool,                 // is a migration command
    diagnostic: bool,              // carries a migration diagnostic
    bugReceipt: bool,              // is a verified bug receipt
    report: Option<Report>,        // documentation metadata
    resultStage: Option<StateId>)  // the stage named by its single result marker

  datatype Verdict = Approved | ChangesRequested | Commented

  datatype ReviewObject = ReviewObject(id: string, actor: Actor, submittedAt: int, headSha: string, verdict: Verdict, marked: bool)

  datatype ChangeState = Open | Closed | Merged

  datatype Change = Change(number: int, id: string, headSha: string, state: ChangeState, marked: bool)

  datatype Retained = Retained(key: Key, stage: StateId)

  datatype Receipt = Receipt(
    start: StateId, retained: seq<Retained>, changeHead: string, humanInput: Option<string>, baselineReviews: seq<string>)

  datatype Evidence = Evidence(
    provider: string, repository: string, activation: Option<string>,
    comments: seq<CommentObject>, reviews: seq<ReviewObject>, changes: seq<Change>,
    linked: Option<Change>,
    publications: seq<Publication>,
    migration: Option<Receipt>)

  predicate IsSha(s: string) {
    |s| == 40 && forall i :: 0 <= i < 40 ==> ('0' <= s[i] <= '9' || 'a' <= s[i] <= 'f')
  }

  function KindName(kind: PublicationKind): string {
    match kind
    case Comment => "comment"
    case ChangeRequest => "change-request"
    case Review => "review"
    case Documentation => "documentation"
  }

  /** `hasPublicationIdentity` (src/runtime/reconcile.ts:531-550). */
  predicate HasIdentity(e: Evidence, key: Key, kind: PublicationKind, id: string) {
    && key.Key?
    && key.provider == e.provider && key.scope != "" && key.repository == e.repository
    && key.kind == KindName(kind) && key.id == id
  }

  function FirstComment(e: Evidence, comments: seq<CommentObject>, key: Key): (r: Option<CommentObject>)
    ensures r.Some? ==> r.value in comments && HasIdentity(e, key, Comment, r.value.id)
    ensures r.None? ==> forall c :: c in comments ==> !HasIdentity(e, key, Comment, c.id)
  {
    if comments == [] then None
    else if HasIdentity(e, key, Comment, comments[0].id) then Some(comments[0])
    else FirstComment(e, comments[1..], key)
  }

  function FirstReview(e: Evidence, reviews: seq<ReviewObject>, key: Key): (r: Option<ReviewObject>)
    ensures r.Some? ==> r.value in reviews && HasIdentity(e, key, Review, r.value.id)
    ensures r.None? ==> forall c :: c in reviews ==> !HasIdentity(e, key, Review, c.id)
  {
    if reviews == [] then None
    else if HasIdentity(e, key, Review, reviews[0].id) then Some(reviews[0])
    else FirstReview(e, reviews[1..], key)
  }

  function CommentFor(e: Evidence, key: Key): (r: Option<CommentObject>)
    ensures r.Some? ==> r.value in e.comments && HasIdentity(e, key, Comment, r.value.id)
  {
    FirstComment(e, e.comments, key)
  }

  function ReviewFor(e: Evidence, key: Key): (r: Option<ReviewObject>)
    ensures r.Some? ==> r.value in e.reviews && HasIdentity(e, key, Review, r.value.id)
  {
    FirstReview(e, e.reviews, key)
  }

  /** `publicationObjectKind` (1313-1321) refined to documentation reports as `recoveryKind` does (773-779). */
  function RecoveryKind(e: Evidence, key: Key): Option<PublicationKind> {
    if key.OtherKey? || key.provider != e.provider || key.repository != e.repository then None
    else if key.kind == "change-request" then Some(ChangeRequest)
    else if key.kind == "review" then Some(Review)
    else if key.kind == "comment" then
      var comment := CommentFor(e, key);
      if comment.Some? && comment.value.report.Some? then Some(Documentation) else Some(Comment)
    else None
  }

  /** The object a publication stands for was written by `actor`. */
  ghost predicate AuthoredBy(e: Evidence, p: Publication, actor: Actor) {
    || (exists c :: c in e.comments && HasIdentity(e, p.key, Comment, c.id) && c.actor == actor)
    || (exists r :: r in e.reviews && HasIdentity(e, p.key, Review, r.id) && r.actor == actor)
  }

  function IsRetained(e: Evidence, key: Key): bool {
    e.migration.Some? && exists r :: r in e.migration.value.retained && r.key == key
  }

  /** `markedObjectKeys` (1293-1311): every known publication, plus every marked object once a scope is known. */
  function BaselineKeys(e: Evidence, apiScope: Option<string>): set<Key> {
    var known := set p | p in e.publications :: p.key;
    var scope := if apiScope.Some? then apiScope else FirstScope(e.publications);
    if scope.None? || scope.value == "" then known
    else
      known
      + (set c | c in e.comments && c.marked :: Key(e.provider, scope.value, e.repository, "comment", c.id))
      + (set c | c in e.changes && c.marked :: Key(e.provider, scope.value, e.repository, "change-request", c.id))
      + (set r | r in e.reviews && r.marked :: Key(e.provider, scope.value, e.repository, "review", r.id))
      + (if e.migration.Some? then set id | id in e.migration.value.baselineReviews :: Key(e.provider, scope.value, e.repository, "review", id) else {})
  }

  function FirstScope(publications: seq<Publication>): Option<string> {
    if publications == [] then None
    else if publications[0].key.Key? then Some(publications[0].key.scope)
    else FirstScope(publications[1..])
  }

  predicate MatchesPrefix(e: Evidence, kinds: seq<PublicationKind>, active: seq<Publication>) {
    |kinds| <= |active| && forall i :: 0 <= i < |kinds| ==> RecoveryKind(e, active[i].key) == Some(kinds[i])
  }

  /** A comment that can answer a gate: no marker, no command, no diagnostic. */
  predicate IsHumanReply(c: CommentObject) {
    !c.marked && !c.command && !c.diagnostic
  }

  /** Publication order: time first, then the key's place in the locale's collation. */
  predicate Earlier(collation: Key -> int, a: Publication, b: Publication) {
    a.createdAt < b.createdAt || (a.createdAt == b.createdAt && collation(a.key) <= collation(b.key))
  }

  lemma EarlierIsPreorder(collation: Key -> int)
    ensures TotalPreorder((a: Publication, b: Publication) => Earlier(collation, a, b))
  {
  }

  /** The owner's publications in order, without retained results and unprovenanced reviews (823-832). */
  function OwnerPublications(e: Evidence, owner: Option<string>, collation: Key -> int): seq<Publication> {
    Sort((a, b) => Earlier(collation, a, b),
         Filter((p: Publication) => !IsRetained(e, p.key) && (owner.None? || p.controller == owner.value)
                                 && (p.eligible || RecoveryKind(e, p.key) != Some(Review)), e.publications))
  }
}
