/**
 Delivery of a prepared comment (src/runtime/prepared-publication.ts:38-83, 117-165). The record of one attempt is
 frozen as `ready`, rewritten as `writing` before the comment is created, and as `delivered` once it was read back.
 Workers may stop between any two steps, reads of the ticket may miss comments, and a create request may be accepted
 although its answer is lost.
 */
module PreparedPublication {
  import opened Basics

  datatype Status = Absent | Ready | Writing | Delivered

  /** `ours`: created by the controller for this attempt. `mentions`: carries the attempt's identifier. */
  datatype Comment = Comment(mentions: bool, body: string, ours: bool)

  datatype Answer = Created | HttpError(status: int, accepted: bool) | TransportError(accepted: bool)

  /** Client errors that say for certain that nothing was created. */
  const DEFINITE := {400, 401, 403, 404, 422, 429}

  datatype Pc =
    | Loaded(status: Status)          // holds the record it read
    | Clear                           // read `ready`, saw no matching comment, ownership checked
    | Creating                        // `writing` is durable
    | Restoring                       // rejected for certain, about to write `ready` back
    | Reading(comment: nat)           // about to read a comment back
    | Marking(comment: nat)           // read back, about to write `delivered`

  datatype State = State(body: string, status: Status, comments: seq<Comment>, workers: map<nat, Pc>)

  datatype Event =
    | Freeze                                             // `ready` is written where no record exists
    | Load(worker: nat)
    | ReadTicket(worker: nat, visible: set<nat>, owned: bool)
    | MarkWriting(worker: nat, active: bool)
    | Create(worker: nat, answer: Answer)
    | Restore(worker: nat)
    | ReadBack(worker: nat, matches: bool)
    | MarkDelivered(worker: nat)
    | Stop(worker: nat)                                  // crash, cancellation or any error in between
    | Posted(comment: Comment)                           // somebody else comments

  predicate At(s: State, w: nat, accepts: Pc -> bool) {
    w in s.workers && accepts(s.workers[w])
  }

  predicate Enabled(s: State, e: Event) {
    match e
    case Freeze => s.status.Absent?
    case Load(w) => w !in s.workers && !s.status.Absent?
    case ReadTicket(w, visible, _) => At(s, w, (pc: Pc) => pc.Loaded?) && forall c :: c in visible ==> c < |s.comments|
    case MarkWriting(w, _) => At(s, w, (pc: Pc) => pc.Clear?)
    case Create(w, answer) => At(s, w, (pc: Pc) => pc.Creating?) && (answer.HttpError? && answer.status in DEFINITE ==> !answer.accepted)
    case Restore(w) => At(s, w, (pc: Pc) => pc.Restoring?)
    case ReadBack(w, matches) => At(s, w, (pc: Pc) => pc.Reading?) && (matches ==> BodyAt(s, s.workers[w].comment))
    case MarkDelivered(w) => At(s, w, (pc: Pc) => pc.Marking?)
    case Stop(w) => w in s.workers
    case Posted(comment) => !comment.ours
  }

  predicate BodyAt(s: State, c: nat) {
    c < |s.comments| && s.comments[c].body == s.body
  }

  function Matching(s: State, visible: set<nat>): set<nat> {
    set c | c in visible && c < |s.comments| && s.comments[c].mentions
  }

  function Goto(s: State, w: nat, pc: Pc): State {
    s.(workers := s.workers[w := pc])
  }

  function Leave(s: State, w: nat): State {
    s.(workers := s.workers - {w})
  }

  /** The checks between reading the ticket and creating a comment. */
  ghost function TicketStep(s: State, w: nat, visible: set<nat>, owned: bool): State
    requires At(s, w, (pc: Pc) => pc.Loaded?)
  {
    var matches := Matching(s, visible);
    if |matches| > 1 || !owned then Leave(s, w)
    else if matches != {} then
      var c: nat :| c in matches;
      if s.comments[c].body == s.body then Goto(s, w, Reading(c)) else Leave(s, w)
    else if s.workers[w].status.Ready? then Goto(s, w, Clear)
    else Leave(s, w)
  }

  function Add(s: State): State {
    s.(comments := s.comments + [Comment(true, s.body, true)])
  }

  function CreateStep(s: State, w: nat, answer: Answer): State {
    match answer
    case Created => Goto(Add(s), w, Reading(|s.comments|))
    case HttpError(status, accepted) =>
      if status in DEFINITE then Goto(s, w, Restoring) else Leave(if accepted then Add(s) else s, w)
    case TransportError(accepted) => Leave(if accepted then Add(s) else s, w)
  }

  ghost function Apply(s: State, e: Event): State
    requires Enabled(s, e)
  {
    match e
    case Freeze => s.(status := Ready)
    case Load(w) => Goto(s, w, Loaded(s.status))
    case ReadTicket(w, visible, owned) => TicketStep(s, w, visible, owned)
    case MarkWriting(w, active) => if active then Goto(s.(status := Writing), w, Creating) else Leave(s, w)
    case Create(w, answer) => CreateStep(s, w, answer)
    case Restore(w) => Leave(s.(status := Ready), w)
    case ReadBack(w, matches) => if matches then Goto(s, w, Marking(s.workers[w].comment)) else Leave(s, w)
    case MarkDelivered(w) => Leave(s.(status := Delivered), w)
    case Stop(w) => Leave(s, w)
    case Posted(comment) => s.(comments := s.comments + [comment])
  }

  ghost predicate Possible(s: State, events: seq<Event>)
    decreases |events|
  {
    events == [] || (Enabled(s, events[0]) && Possible(Apply(s, events[0]), events[1..]))
  }

  ghost function After(s: State, events: seq<Event>): State
    requires Possible(s, events)
    decreases |events|
  {
    if events == [] then s else After(Apply(s, events[0]), events[1..])
  }

  /** The record is not read as `ready` while another worker that read it so is still short of its own `writing`. */
  predicate Unrivalled(s: State, e: Event) {
    e.Load? && s.status.Ready? ==> forall w :: w in s.workers ==> s.workers[w] != Loaded(Ready) && !s.workers[w].Clear?
  }

  ghost predicate UnrivalledRun(s: State, events: seq<Event>)
    requires Possible(s, events)
    decreases |events|
  {
    events == [] || (Unrivalled(s, events[0]) && UnrivalledRun(Apply(s, events[0]), events[1..]))
  }

  /** One delivery at a time: the runner keeps its flow to itself, and a crashed one is gone before the next begins. */
  ghost predicate OneAtATime(s: State, events: seq<Event>)
    requires Possible(s, events)
    decreases |events|
  {
    events == [] || ((events[0].Load? ==> s.workers == map[]) && OneAtATime(Apply(s, events[0]), events[1..]))
  }

  lemma {:induction false} OneAtATimeIsUnrivalled(s: State, events: seq<Event>)
    requires Possible(s, events) && OneAtATime(s, events)
    ensures UnrivalledRun(s, events)
    decreases |events|
  {
    if events != [] {
      OneAtATimeIsUnrivalled(Apply(s, events[0]), events[1..]);
    }
  }

  function Unprepared(body: string, comments: seq<Comment>): State {
    State(body, Absent, comments, map[])
  }

  function Ours(comments: seq<Comment>): seq<Comment> {
    Filter((c: Comment) => c.ours, comments)
  }

  lemma {:induction false} OursAppend(comments: seq<Comment>, c: Comment)
    ensures Ours(comments + [c]) == Ours(comments) + if c.ours then [c] else []
  {
    if comments == [] {
      assert comments + [c] == [c];
      assert [c][1..] == [];
    } else {
      OursAppend(comments[1..], c);
      assert (comments + [c])[1..] == comments[1..] + [c];
    }
  }

  // ----- Who may still create a comment -----

  /** A worker in such a place may create a comment without reading the record again. */
  predicate MayCreate(pc: Pc) {
    pc == Loaded(Ready) || pc.Clear? || pc.Creating?
  }

  predicate Entitled(pc: Pc, restoring: bool) {
    MayCreate(pc) || (restoring && pc.Restoring?)
  }

  function Those(s: State, restoring: bool): set<nat> {
    set w | w in s.workers && Entitled(s.workers[w], restoring)
  }

  /** The workers that may still create a comment. */
  function Creators(s: State): set<nat> {
    Those(s, false)
  }

  /** The workers that may still create a comment or write `ready` back. */
  function Holders(s: State): set<nat> {
    Those(s, true)
  }

  ghost predicate WorkerOk(s: State, pc: Pc) {
    match pc
    case Loaded(status) => true
    case Clear => true
    case Creating => !s.status.Ready?
    case Restoring => !s.status.Ready?
    case Reading(c) => BodyAt(s, c)
    case Marking(c) => BodyAt(s, c)
  }

  /** There is at most one comment of ours or one worker that holds the right to it. */
  ghost predicate Inv(s: State) {
    && |Ours(s.comments)| + |Holders(s)| <= 1
    && (s.status.Absent? ==> s.workers == map[])
    && (s.status.Absent? || s.status.Ready? ==> Ours(s.comments) == [])
    && (s.status.Delivered? ==> exists c :: BodyAt(s, c))
    && (forall w :: w in s.workers ==> WorkerOk(s, s.workers[w]))
  }

  lemma BodiesSurvive(s: State, e: Event)
    requires Enabled(s, e)
    ensures forall i :: BodyAt(s, i) ==> BodyAt(Apply(s, e), i)
  {
  }

  /** Only a create request adds a comment of ours, and only one. */
  lemma OursAfter(s: State, e: Event)
    requires Enabled(s, e)
    ensures Ours(Apply(s, e).comments) == Ours(s.comments) + if Apply(s, e).comments == s.comments || e.Posted? then [] else [Comment(true, s.body, true)]
    ensures Apply(s, e).comments != s.comments && !e.Posted? ==> e.Create? && Apply(s, e).comments == Add(s).comments
  {
    OursAppend(s.comments, Comment(true, s.body, true));
    if e.Posted? { OursAppend(s.comments, e.comment); }
  }

  /** What a step does to the workers: all but its own stay where they are. */
  lemma OneWorkerMoves(s: State, e: Event, restoring: bool)
    requires Enabled(s, e)
    ensures e.Freeze? || e.Posted? ==> Apply(s, e).workers == s.workers
    ensures !e.Freeze? && !e.Posted? ==> forall w :: w in Apply(s, e).workers && w != e.worker ==>
              w in s.workers && Apply(s, e).workers[w] == s.workers[w]
    ensures !e.Freeze? && !e.Posted? ==>
              var t := Apply(s, e);
              Those(t, restoring) == if e.worker in t.workers && Entitled(t.workers[e.worker], restoring)
                                     then Those(s, restoring) + {e.worker} else Those(s, restoring) - {e.worker}
  {
    if !e.Freeze? && !e.Posted? {
      var t := Apply(s, e);
      assert t.workers == s.workers - {e.worker} || t.workers == s.workers[e.worker := t.workers[e.worker]];
    }
  }

  lemma NoRightArises(s: State, e: Event, restoring: bool)
    requires Enabled(s, e) && !e.Load? && !e.Freeze? && !e.Posted?
    ensures e.worker in s.workers
    ensures e.worker in Those(Apply(s, e), restoring) ==> e.worker in Those(s, restoring)
    ensures Apply(s, e).comments != s.comments ==> e.worker in Those(s, restoring) && e.worker !in Those(Apply(s, e), restoring)
  {
  }

  /** Without a load, no right to a comment arises: what a worker creates it gives up its right for. */
  lemma RightsAreSpent(s: State, e: Event, restoring: bool)
    requires Enabled(s, e) && !e.Load?
    ensures |Ours(Apply(s, e).comments)| + |Those(Apply(s, e), restoring)| <= |Ours(s.comments)| + |Those(s, restoring)|
  {
    OursAfter(s, e);
    OneWorkerMoves(s, e, restoring);
    var before, after := Those(s, restoring), Those(Apply(s, e), restoring);
    if e.Freeze? || e.Posted? {
      assert after == before;
    } else {
      NoRightArises(s, e, restoring);
      assert after == before || after == before - {e.worker};
    }
  }

  lemma StepKeepsRights(s: State, e: Event)
    requires Inv(s) && Enabled(s, e) && Unrivalled(s, e)
    ensures |Ours(Apply(s, e).comments)| + |Holders(Apply(s, e))| <= 1
  {
    if e.Load? {
      OneWorkerMoves(s, e, true);
      if s.status.Ready? {
        forall w | w in s.workers ensures !Entitled(s.workers[w], true) { assert WorkerOk(s, s.workers[w]); }
        assert Holders(s) == {};
      }
    } else {
      RightsAreSpent(s, e, true);
    }
  }

  /** With one right at most, a step of the worker that holds it leaves no other that could. */
  lemma SoleHolder(s: State, v: nat, w: nat)
    requires Inv(s) && v in s.workers && w in s.workers && Entitled(s.workers[v], true) && Entitled(s.workers[w], true)
    ensures v == w && Ours(s.comments) == []
  {
    assert v in Holders(s) && w in Holders(s);
    SubsetCardinality({v, w}, Holders(s));
  }

  lemma OthersStay(s: State, e: Event, w: nat)
    requires Inv(s) && Enabled(s, e) && w in s.workers && (e.Freeze? || e.Posted? || w != e.worker)
    ensures WorkerOk(Apply(s, e), s.workers[w])
  {
    assert WorkerOk(s, s.workers[w]);
    BodiesSurvive(s, e);
    if e.Restore? && Entitled(s.workers[w], true) { SoleHolder(s, e.worker, w); }
  }

  lemma OwnStepIsOk(s: State, e: Event)
    requires Inv(s) && Enabled(s, e) && !e.Freeze? && !e.Posted? && e.worker in Apply(s, e).workers
    ensures WorkerOk(Apply(s, e), Apply(s, e).workers[e.worker])
  {
    if !e.Load? { assert WorkerOk(s, s.workers[e.worker]); }
  }

  lemma StepKeepsWorkers(s: State, e: Event)
    requires Inv(s) && Enabled(s, e)
    ensures forall w :: w in Apply(s, e).workers ==> WorkerOk(Apply(s, e), Apply(s, e).workers[w])
  {
    OneWorkerMoves(s, e, true);
    var t := Apply(s, e);
    forall w | w in t.workers ensures WorkerOk(t, t.workers[w]) {
      if e.Freeze? || e.Posted? || w != e.worker { OthersStay(s, e, w); } else { OwnStepIsOk(s, e); }
    }
  }

  lemma StepKeeps(s: State, e: Event)
    requires Inv(s) && Enabled(s, e) && Unrivalled(s, e)
    ensures Inv(Apply(s, e))
  {
    BodiesSurvive(s, e);
    OursAfter(s, e);
    StepKeepsRights(s, e);
    StepKeepsWorkers(s, e);
    match e
    case Create(w, _) => assert WorkerOk(s, s.workers[w]);
    case Restore(w) => SoleHolder(s, w, w);
    case MarkDelivered(w) =>
      assert WorkerOk(s, s.workers[w]);
      assert BodyAt(Apply(s, e), s.workers[w].comment);
    case _ =>
  }

  lemma {:induction false} RunKeeps(s: State, events: seq<Event>)
    requires Inv(s) && Possible(s, events) && UnrivalledRun(s, events)
    ensures Inv(After(s, events))
    decreases |events|
  {
    if events != [] {
      StepKeeps(s, events[0]);
      RunKeeps(Apply(s, events[0]), events[1..]);
    }
  }

  lemma AloneRunKeeps(s: State, events: seq<Event>)
    requires Inv(s) && Possible(s, events) && OneAtATime(s, events)
    ensures Inv(After(s, events))
  {
    OneAtATimeIsUnrivalled(s, events);
    RunKeeps(s, events);
  }

  /**
   Whatever crashes, lost answers, incomplete reads and overlapping deliveries occur, one attempt leaves at most one
   comment, provided no delivery reads `ready` while another that did is short of its `writing`; and a record that says
   `delivered` has its comment.
   */
  lemma AtMostOneComment(body: string, comments: seq<Comment>, events: seq<Event>)
    requires Ours(comments) == []
    requires Possible(Unprepared(body, comments), events) && UnrivalledRun(Unprepared(body, comments), events)
    ensures var s := After(Unprepared(body, comments), events);
            |Ours(s.comments)| <= 1 && (s.status.Delivered? ==> exists c :: BodyAt(s, c))
  {
    assert Holders(Unprepared(body, comments)) == {};
    RunKeeps(Unprepared(body, comments), events);
  }

  // ----- The exact condition -----

  predicate LoadFree(events: seq<Event>) {
    forall i :: 0 <= i < |events| ==> !events[i].Load?
  }

  /** However the workers there are go on, and whatever is lost or missed, one comment of ours at most comes of it. */
  ghost predicate Safe(s: State) {
    forall events :: Possible(s, events) && LoadFree(events) ==> |Ours(After(s, events).comments)| <= 1
  }

  lemma {:induction false} RunSpendsRights(s: State, events: seq<Event>)
    requires Possible(s, events) && LoadFree(events)
    ensures |Ours(After(s, events).comments)| + |Creators(After(s, events))| <= |Ours(s.comments)| + |Creators(s)|
    decreases |events|
  {
    if events != [] {
      RightsAreSpent(s, events[0], false);
      RunSpendsRights(Apply(s, events[0]), events[1..]);
    }
  }

  /**
   From every state, whether reached or not, all runs without another load leave at most one comment of ours exactly
   when the comments there are and the workers that may still create one make at most one together.
   */
  lemma SafeIffOneMayCreate(s: State)
    ensures Safe(s) <==> |Ours(s.comments)| + |Creators(s)| <= 1
  {
    if |Ours(s.comments)| + |Creators(s)| <= 1 {
      forall events | Possible(s, events) && LoadFree(events) ensures |Ours(After(s, events).comments)| <= 1 {
        RunSpendsRights(s, events);
      }
    } else {
      var events := AllCreate(s);
    }
  }

  /** So a delivery may read `ready` safely exactly when no other that read it so is short of its `writing`. */
  lemma LoadIsSafeIffUnrivalled(s: State, w: nat)
    requires Inv(s) && Enabled(s, Load(w)) && s.status.Ready?
    ensures Safe(Apply(s, Load(w))) <==> Unrivalled(s, Load(w))
  {
    var t := Apply(s, Load(w));
    SafeIffOneMayCreate(t);
    OneWorkerMoves(s, Load(w), false);
    if Unrivalled(s, Load(w)) {
      forall v | v in s.workers ensures !MayCreate(s.workers[v]) { assert WorkerOk(s, s.workers[v]); }
      assert Creators(s) == {};
    } else {
      var v :| v in s.workers && (s.workers[v] == Loaded(Ready) || s.workers[v].Clear?);
      assert v in Creators(s);
      SubsetCardinality({v, w}, Creators(t));
    }
  }

  // ----- Order of the writes -----

  /** A create request leaves while no comment of ours exists, behind a durable `writing` that nobody took back. */
  lemma CreateOnlyAfterWriting(s: State, w: nat, answer: Answer)
    requires Inv(s) && Enabled(s, Create(w, answer))
    ensures Ours(s.comments) == []
    ensures s.status.Writing? || (s.status.Delivered? && exists c: nat :: BodyAt(s, c) && !s.comments[c].ours)
  {
    SoleHolder(s, w, w);
    assert WorkerOk(s, s.workers[w]);
    if s.status.Delivered? {
      var c: nat :| BodyAt(s, c);
      assert s.comments[c] in s.comments && s.comments[c] !in Ours(s.comments);
    }
  }

  /** In any run, a worker about to create wrote `writing` itself. */
  lemma {:induction false} WritingPrecedesCreate(s: State, events: seq<Event>, w: nat)
    requires Possible(s, events) && !At(s, w, (pc: Pc) => pc.Creating?)
    requires At(After(s, events), w, (pc: Pc) => pc.Creating?)
    ensures MarkWriting(w, true) in events
    decreases |events|
  {
    var t := Apply(s, events[0]);
    if At(t, w, (pc: Pc) => pc.Creating?) {
      assert events[0] == MarkWriting(w, true);
    } else {
      WritingPrecedesCreate(t, events[1..], w);
    }
  }

  /** With one delivery at a time the record agrees with where its worker is. */
  ghost predicate Alone(s: State) {
    && (forall v, w :: v in s.workers && w in s.workers ==> v == w)
    && (forall w :: w in s.workers ==>
          match s.workers[w]
          case Loaded(status) => status == s.status
          case Clear => s.status.Ready?
          case Creating => s.status.Writing?
          case Restoring => s.status.Writing?
          case _ => true)
  }

  /** One delivery at a time: the record says `writing` whenever a create request leaves. */
  lemma {:induction false} AloneWritingIsDurable(s: State, events: seq<Event>, w: nat, answer: Answer)
    requires Alone(s) && (s.status.Absent? ==> s.workers == map[])
    requires Possible(s, events) && OneAtATime(s, events) && Enabled(After(s, events), Create(w, answer))
    ensures After(s, events).status.Writing?
    decreases |events|
  {
    if events != [] {
      AloneWritingIsDurable(Apply(s, events[0]), events[1..], w, answer);
    }
  }

  /** `ready` comes back only from a worker whose request was rejected for certain. */
  lemma ReadyOnlyAfterRejection(s: State, e: Event)
    requires Inv(s) && Enabled(s, e) && Apply(s, e).status.Ready? && !s.status.Ready?
    ensures e.Freeze? || (e.Restore? && s.workers[e.worker].Restoring? && Ours(s.comments) == [])
  {
    if e.Restore? { SoleHolder(s, e.worker, e.worker); }
  }

  lemma RestoringMeansRejected(s: State, e: Event, w: nat)
    requires Enabled(s, e) && w in Apply(s, e).workers && Apply(s, e).workers[w].Restoring?
    requires w !in s.workers || !s.workers[w].Restoring?
    ensures e.Create? && e.worker == w && e.answer.HttpError? && e.answer.status in DEFINITE && Apply(s, e).comments == s.comments
  {
  }

  // ----- Recovery of an uncertain create -----

  /** The comment was created but its answer was lost: a delivery that sees the ticket finishes without creating. */
  lemma LostAnswerIsRecovered(s: State, w: nat, c: nat, visible: set<nat>)
    requires Inv(s) && s.status.Writing? && s.workers == map[]
    requires c in visible && (forall i :: i in visible ==> i < |s.comments|) && Matching(s, visible) == {c} && BodyAt(s, c)
    ensures var events := [Load(w), ReadTicket(w, visible, true), ReadBack(w, true), MarkDelivered(w)];
            Possible(s, events) && After(s, events) == s.(status := Delivered)
  {
    var events := [Load(w), ReadTicket(w, visible, true), ReadBack(w, true), MarkDelivered(w)];
    var s1 := Apply(s, events[0]);
    var s2 := Apply(s1, events[1]);
    assert s2.workers == map[w := Reading(c)];
    var s3 := Apply(s2, events[2]);
    var s4 := Apply(s3, events[3]);
    assert s4.workers == map[];
    Unfold(s4, events, 4);
    Unfold(s3, events, 3);
    Unfold(s2, events, 2);
    Unfold(s1, events, 1);
    Unfold(s, events, 0);
    assert events[0..] == events;
  }

  lemma Unfold(s: State, events: seq<Event>, i: nat)
    requires i <= |events|
    requires i < |events| ==> Enabled(s, events[i]) && Possible(Apply(s, events[i]), events[i + 1..])
    ensures Possible(s, events[i..])
    ensures After(s, events[i..]) == if i == |events| then s else After(Apply(s, events[i]), events[i + 1..])
  {
    if i < |events| {
      assert events[i..][1..] == events[i + 1..];
    }
  }

  /** Stopped after `writing` became durable and before the request left: no comment exists and none is ever created. */
  ghost predicate Stranded(s: State) {
    && s.status.Writing?
    && (forall c :: 0 <= c < |s.comments| ==> !s.comments[c].mentions && !s.comments[c].ours)
    && (forall w :: w in s.workers ==> s.workers[w] == Loaded(Writing))
  }

  /** A stranded record stays as it is until somebody posts a comment with its identifier. */
  lemma {:induction false} StrandedStays(s: State, events: seq<Event>)
    requires Stranded(s) && Possible(s, events)
    requires forall i :: 0 <= i < |events| && events[i].Posted? ==> !events[i].comment.mentions
    ensures Stranded(After(s, events))
    decreases |events|
  {
    if events != [] {
      var e := events[0];
      if e.ReadTicket? {
        assert Matching(s, e.visible) == {};
      }
      StrandedStays(Apply(s, e), events[1..]);
    }
  }

  // ----- Overlapping deliveries -----

  lemma {:induction false} Join(s: State, first: seq<Event>, second: seq<Event>)
    requires Possible(s, first) && Possible(After(s, first), second)
    ensures Possible(s, first + second) && After(s, first + second) == After(After(s, first), second)
    decreases |first|
  {
    if first == [] {
      assert first + second == second;
    } else {
      assert (first + second)[1..] == first[1..] + second;
      Join(Apply(s, first[0]), first[1..], second);
    }
  }

  lemma Prepend(s: State, e: Event, rest: seq<Event>)
    requires Enabled(s, e) && Possible(Apply(s, e), rest)
    ensures Possible(s, [e] + rest) && After(s, [e] + rest) == After(Apply(s, e), rest)
    ensures !e.Load? && LoadFree(rest) ==> LoadFree([e] + rest)
  {
    assert ([e] + rest)[1..] == rest;
  }

  /** A worker that sees no comment of its attempt, and whose request is accepted although its answer is lost. */
  lemma Creates(s: State, w: nat) returns (events: seq<Event>)
    requires w in s.workers && MayCreate(s.workers[w])
    ensures Possible(s, events) && LoadFree(events)
    ensures After(s, events).comments == s.comments + [Comment(true, s.body, true)] && After(s, events).workers == s.workers - {w}
    decreases if s.workers[w].Loaded? then 2 else if s.workers[w].Clear? then 1 else 0
  {
    var e := if s.workers[w].Loaded? then ReadTicket(w, {}, true) else if s.workers[w].Clear? then MarkWriting(w, true)
             else Create(w, TransportError(true));
    assert Matching(s, {}) == {};
    var t := Apply(s, e);
    var rest := [];
    if !s.workers[w].Creating? {
      rest := Creates(t, w);
      assert t.workers - {w} == s.workers - {w};
    }
    Prepend(s, e, rest);
    events := [e] + rest;
  }

  /** Every worker that may create a comment does. */
  lemma {:induction false} AllCreate(s: State) returns (events: seq<Event>)
    ensures Possible(s, events) && LoadFree(events)
    ensures |Ours(After(s, events).comments)| == |Ours(s.comments)| + |Creators(s)|
    decreases |Creators(s)|
  {
    events := [];
    if Creators(s) != {} {
      var w :| w in Creators(s);
      var first := Creates(s, w);
      var t := After(s, first);
      OursAppend(s.comments, Comment(true, s.body, true));
      assert Creators(t) == Creators(s) - {w};
      var rest := AllCreate(t);
      Join(s, first, rest);
      events := first + rest;
    }
  }

  /** Two deliveries that both read `ready` before either writes can create a comment each. */
  lemma TwoWorkersCanCreateTwice(s: State, v: nat, w: nat) returns (events: seq<Event>)
    requires s.status.Ready? && v != w && s.workers == map[] && Ours(s.comments) == []
    ensures Possible(s, events) && |Ours(After(s, events).comments)| == 2
  {
    var one := Apply(s, Load(v));
    var both := Apply(one, Load(w));
    assert Creators(both) == {v, w};
    var rest := AllCreate(both);
    Prepend(one, Load(w), rest);
    Prepend(s, Load(v), [Load(w)] + rest);
    events := [Load(v)] + ([Load(w)] + rest);
  }
}
