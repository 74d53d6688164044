/**
 `deliverPreparedPublication` as one method over the durable record and the ticket (src/runtime/prepared-publication.ts:117-165):
 each call is proved to be a run of the `PreparedPublication` machine by a single worker.
 */
module PreparedDelivery {
  import opened Basics
  import opened PreparedPublication

  lemma {:induction false} Snoc(s: State, events: seq<Event>, e: Event)
    requires Possible(s, events) && OneAtATime(s, events) && Enabled(After(s, events), e)
    requires e.Load? ==> After(s, events).workers == map[]
    ensures Possible(s, events + [e]) && After(s, events + [e]) == Apply(After(s, events), e)
    ensures OneAtATime(s, events + [e])
    decreases |events|
  {
    if events == [] {
      assert events + [e] == [e] && [e][1..] == [];
    } else {
      Snoc(Apply(s, events[0]), events[1..], e);
      assert (events + [e])[1..] == events[1..] + [e];
    }
  }

  /** What an accepted or uncertain create request leaves: `writing`, and the comment if it was accepted. */
  function Sent(s: State, accepted: bool): State {
    s.(status := Writing, comments := s.comments + if accepted then [Comment(true, s.body, true)] else [])
  }

  /** What one delivery makes of the record and the ticket, from what it saw and was answered. */
  ghost predicate Outcome(before: State, after: State, matches: set<nat>, owned: bool, active: bool, answer: Answer, intact: bool, delivered: bool) {
    if before.status.Absent? || !owned || |matches| > 1 || (matches == {} && (!before.status.Ready? || !active)) then
      !delivered && after == before
    else if matches != {} then
      forall c :: c in matches ==>
        if BodyAt(before, c) then delivered == intact && after == (if intact then before.(status := Delivered) else before)
        else !delivered && after == before
    else
      match answer
      case Created => delivered == intact && after == (if intact then Sent(before, true).(status := Delivered) else Sent(before, true))
      case HttpError(status, accepted) => !delivered && after == (if status in DEFINITE then before else Sent(before, accepted))
      case TransportError(accepted) => !delivered && after == Sent(before, accepted)
  }

  /** The part of an outcome that is reached before a created comment is read back. */
  predicate Requested(before: State, after: State, active: bool, answer: Answer, created: bool) {
    && created == (active && answer.Created?)
    && after == if !active || (answer.HttpError? && answer.status in DEFINITE) then before.(status := Ready)
                else Sent(before, answer.Created? || answer.accepted)
  }

  class Ticket {
    const body: string
    var status: Status
    var comments: seq<Comment>

    ghost function Model(): State
      reads this
    {
      State(body, status, comments, map[])
    }

    ghost predicate Valid()
      reads this
    {
      Inv(Model())
    }

    constructor (body: string, comments: seq<Comment>)
      requires Ours(comments) == []
      ensures Valid() && Model() == Unprepared(body, comments)
    {
      this.body, status, this.comments := body, Absent, comments;
    }

    /** `freezePreparedPublication`: an existing record is left alone. */
    method Freeze()
      requires Valid()
      modifies this
      ensures Valid()
      ensures Model() == if old(status).Absent? then Apply(old(Model()), PreparedPublication.Freeze) else old(Model())
    {
      if status.Absent? {
        StepKeeps(Model(), PreparedPublication.Freeze);
        status := Ready;
      }
    }

    /** The ticket comments that carry the identifier, among those the provider returned. */
    method FindMatches(visible: set<nat>) returns (matches: seq<nat>)
      requires forall c :: c in visible ==> c < |comments|
      ensures Distinct(matches) && ToSet(matches) == Matching(Model(), visible)
    {
      matches := [];
      var c := 0;
      while c < |comments|
        invariant c <= |comments|
        invariant Distinct(matches)
        invariant forall i :: i in matches <==> i < c && i in visible && comments[i].mentions
      {
        if c in visible && comments[c].mentions { matches := matches + [c]; }
        c := c + 1;
      }
    }

    /** The part between an empty ticket and the answer to the create request. */
    method Publish(w: nat, active: bool, answer: Answer, ghost start: State, ghost before: seq<Event>)
      returns (created: bool, comment: nat, ghost events: seq<Event>)
      requires Inv(start) && Possible(start, before) && OneAtATime(start, before)
      requires After(start, before) == State(body, status, comments, map[w := Clear]) && status.Ready?
      requires answer.HttpError? && answer.status in DEFINITE ==> !answer.accepted
      modifies this
      ensures Possible(start, events) && OneAtATime(start, events)
      ensures Inv(After(start, events))
      ensures After(start, events) == State(body, status, comments, if created then map[w := Reading(comment)] else map[])
      ensures Requested(old(Model()), Model(), active, answer, created) && (created ==> comment == |old(comments)|)
    {
      ghost var s: State;
      events, s := Extend(start, before, MarkWriting(w, active));
      if !active {
        Close(start, s, w);
        return false, |comments|, events;
      }
      status := Writing;
      created, comment, events := Send(w, answer, start, events);
    }

    /** The create request, its answer, and `ready` written back when it was rejected for certain. */
    method Send(w: nat, answer: Answer, ghost start: State, ghost before: seq<Event>)
      returns (created: bool, comment: nat, ghost events: seq<Event>)
      requires Inv(start) && Possible(start, before) && OneAtATime(start, before) && status.Writing?
      requires After(start, before) == State(body, status, comments, map[w := Creating])
      requires answer.HttpError? && answer.status in DEFINITE ==> !answer.accepted
      modifies this
      ensures Possible(start, events) && OneAtATime(start, events)
      ensures Inv(After(start, events))
      ensures After(start, events) == State(body, status, comments, if created then map[w := Reading(comment)] else map[])
      ensures Requested(old(Model()).(status := Ready), Model(), true, answer, created) && (created ==> comment == |old(comments)|)
    {
      ghost var s: State;
      comment := |comments|;
      if answer.Created? || answer.accepted {
        comments := comments + [Comment(true, body, true)];
      }
      events, s := Extend(start, before, Create(w, answer));
      if answer.HttpError? && answer.status in DEFINITE {
        status := Ready;
        events, s := Extend(start, events, Restore(w));
      }
      created := answer.Created?;
      if created {
        assert s.workers == map[w := Reading(comment)];
      } else {
        Close(start, s, w);
      }
    }

    /**
     One delivery. `visible`, `owned`, `active`, `answer` and `intact` are what the provider and the caller answer along
     the way. The ghost result is the run of the machine it made.
     */
    method Deliver(w: nat, visible: set<nat>, owned: bool, active: bool, answer: Answer, intact: bool)
      returns (delivered: bool, ghost events: seq<Event>)
      requires Valid()
      requires forall c :: c in visible ==> c < |comments|
      requires answer.HttpError? && answer.status in DEFINITE ==> !answer.accepted
      modifies this
      ensures Valid()
      ensures Possible(old(Model()), events) && OneAtATime(old(Model()), events) && After(old(Model()), events) == Model()
      ensures Outcome(old(Model()), Model(), Matching(old(Model()), visible), owned, active, answer, intact, delivered)
      ensures delivered ==> status.Delivered? && exists c :: BodyAt(Model(), c)
      ensures old(status).Absent? ==> !delivered && Model() == old(Model())
      ensures !old(status).Ready? ==> comments == old(comments)
      ensures |Ours(comments)| <= 1
    {
      ghost var start := Model();
      events := [];
      delivered := false;
      if status.Absent? { return; }
      var found: Found;
      found, events := Look(w, visible, owned, start);
      if found.Nothing? {
        AtMostOneMatch(Matching(start, visible));
        return;
      }
      var comment := 0;
      if found.At? {
        comment := found.comment;
      } else {
        var created: bool;
        created, comment, events := Publish(w, active, answer, start, events);
        if !created {
          AloneRunKeeps(start, events);
          return;
        }
      }
      delivered, events := Confirm(w, comment, intact, start, events);
    }

    /** Reads the comment back and marks the record. */
    method Confirm(w: nat, comment: nat, intact: bool, ghost start: State, ghost before: seq<Event>)
      returns (delivered: bool, ghost events: seq<Event>)
      requires Inv(start) && Possible(start, before) && OneAtATime(start, before)
      requires After(start, before) == State(body, status, comments, map[w := Reading(comment)])
      modifies this`status
      ensures Possible(start, events) && OneAtATime(start, events) && Inv(After(start, events)) && After(start, events) == Model()
      ensures delivered ==> status.Delivered? && BodyAt(Model(), comment)
      ensures delivered == intact && status == if intact then Delivered else old(status)
    {
      ghost var s: State;
      AloneRunKeeps(start, before);
      assert WorkerOk(After(start, before), Reading(comment)) by {
        assert After(start, before).workers[w] == Reading(comment);
      }
      events, s := Extend(start, before, ReadBack(w, intact));
      if !intact {
        Close(start, s, w);
        return false, events;
      }
      events, s := Extend(start, events, MarkDelivered(w));
      status := Delivered;
      Close(start, s, w);
      return true, events;
    }

    /** Loads the record and looks for the comment. */
    method Look(w: nat, visible: set<nat>, owned: bool, ghost start: State)
      returns (found: Found, ghost events: seq<Event>)
      requires Inv(start) && start == Model() && !status.Absent?
      requires forall c :: c in visible ==> c < |comments|
      ensures Possible(start, events) && OneAtATime(start, events)
      ensures found.Nothing? ==> After(start, events) == start
      ensures found.At? ==> After(start, events) == Goto(start, w, Reading(found.comment))
      ensures found.Missing? ==> status.Ready? && After(start, events) == Goto(start, w, Clear)
      ensures var matches := Matching(start, visible);
              && (found.Missing? <==> owned && matches == {} && status.Ready?)
              && (found.At? <==> owned && exists c :: matches == {c} && BodyAt(start, c))
              && (found.At? ==> matches == {found.comment} && BodyAt(start, found.comment))
    {
      ghost var s: State;
      assert Possible(start, []) && OneAtATime(start, []) && After(start, []) == start;
      events, s := Extend(start, [], Load(w));
      var matches := FindMatches(visible);
      DistinctCardinality(matches);
      events, s := Extend(start, events, ReadTicket(w, visible, owned));
      found := Nothing;
      if |matches| <= 1 && owned {
        if |matches| == 1 {
          assert Matching(start, visible) == {matches[0]};
          if comments[matches[0]].body == body { return At(matches[0]), events; }
        } else {
          assert Matching(start, visible) == {};
          if status.Ready? { return Missing, events; }
        }
      }
      Close(start, s, w);
    }
  }

  lemma AtMostOneMatch(matches: set<nat>)
    ensures |matches| <= 1 ==> forall c :: c in matches ==> matches == {c}
  {
    forall c | |matches| <= 1 && c in matches ensures matches == {c} {
      assert |matches - {c}| == 0;
    }
  }

  datatype Found = Nothing | At(comment: nat) | Missing

  lemma Extend(start: State, events: seq<Event>, e: Event) returns (longer: seq<Event>, s: State)
    requires Inv(start) && Possible(start, events) && OneAtATime(start, events) && Enabled(After(start, events), e)
    requires e.Load? ==> After(start, events).workers == map[]
    ensures longer == events + [e] && Possible(start, longer) && OneAtATime(start, longer)
    ensures s == Apply(After(start, events), e) && After(start, longer) == s && Inv(s)
  {
    longer := events + [e];
    Snoc(start, events, e);
    s := After(start, longer);
    AloneRunKeeps(start, longer);
  }

  lemma Close(start: State, s: State, w: nat)
    requires Inv(s) && s.workers.Keys <= {w} && w !in s.workers
    ensures s.workers == map[]
  {
  }
}
