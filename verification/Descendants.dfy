/**
 Which sessions belong to an attempt: those reached from the root by parent links (src/harness/usage.ts:228-234,
 src/harness/ccusage.ts:250-256). The source sweeps all logs again and again until a sweep adds nothing.
 */
module Descendants {
  import opened Basics

  datatype Log = Log(id: string, parent: Option<string>)

  /** Logs lead from each entry to the next. */
  ghost predicate Descent(logs: seq<Log>, path: seq<string>) {
    path != [] && forall i :: 0 < i < |path| ==> Child(logs, path[i - 1], path[i])
  }

  ghost predicate Child(logs: seq<Log>, parent: string, id: string) {
    Log(id, Some(parent)) in logs
  }

  ghost predicate DescendsFrom(logs: seq<Log>, root: string, id: string) {
    exists path :: Descent(logs, path) && path[0] == root && path[|path| - 1] == id
  }

  function Known(logs: seq<Log>): set<string> {
    set log | log in logs :: log.id
  }

  lemma Extend(logs: seq<Log>, root: string, log: Log)
    requires log in logs && log.parent.Some? && DescendsFrom(logs, root, log.parent.value)
    ensures DescendsFrom(logs, root, log.id)
  {
    var path :| Descent(logs, path) && path[0] == root && path[|path| - 1] == log.parent.value;
    var longer := path + [log.id];
    forall i | 0 < i < |longer| ensures Child(logs, longer[i - 1], longer[i]) {
      if i < |path| { assert Child(logs, path[i - 1], path[i]); }
    }
    assert Descent(logs, longer);
  }

  predicate Closed(logs: seq<Log>, included: set<string>) {
    forall log :: log in logs && log.parent.Some? && log.parent.value in included ==> log.id in included
  }

  lemma {:induction false} ClosedContainsDescent(logs: seq<Log>, included: set<string>, path: seq<string>, i: nat)
    requires Closed(logs, included) && Descent(logs, path) && path[0] in included && i < |path|
    ensures path[i] in included
    decreases i
  {
    if i > 0 {
      ClosedContainsDescent(logs, included, path, i - 1);
      assert Child(logs, path[i - 1], path[i]);
    }
  }

  ghost predicate AllDescend(logs: seq<Log>, root: string, included: set<string>) {
    forall id :: id in included ==> DescendsFrom(logs, root, id)
  }

  lemma Add(logs: seq<Log>, root: string, included: set<string>, log: Log)
    requires AllDescend(logs, root, included) && log in logs && log.parent.Some? && log.parent.value in included
    ensures AllDescend(logs, root, included + {log.id})
  {
    Extend(logs, root, log);
  }

  /** One sweep over the logs. */
  method Sweep(logs: seq<Log>, root: string, before: set<string>) returns (included: set<string>, changed: bool)
    requires AllDescend(logs, root, before)
    ensures AllDescend(logs, root, included)
    ensures before <= included <= before + Known(logs)
    ensures if changed then before != included else included == before && Closed(logs, included)
  {
    included, changed := before, false;
    var i := 0;
    while i < |logs|
      invariant i <= |logs|
      invariant before <= included <= before + Known(logs)
      invariant AllDescend(logs, root, included)
      invariant changed <==> included != before
      invariant !changed ==> forall j :: 0 <= j < i ==> Settled(logs[j], included)
    {
      var log := logs[i];
      if log.parent.Some? && log.parent.value in included && log.id !in included {
        Add(logs, root, included, log);
        included, changed := included + {log.id}, true;
        assert log.id in included && log.id !in before;
      }
      i := i + 1;
    }
  }

  lemma ExactlyTheDescendants(logs: seq<Log>, root: string, included: set<string>)
    requires root in included && Closed(logs, included) && AllDescend(logs, root, included)
    ensures forall id :: id in included <==> DescendsFrom(logs, root, id)
  {
    forall id | DescendsFrom(logs, root, id) ensures id in included {
      var path :| Descent(logs, path) && path[0] == root && path[|path| - 1] == id;
      ClosedContainsDescent(logs, included, path, |path| - 1);
    }
  }

  lemma RootDescends(logs: seq<Log>, root: string)
    ensures AllDescend(logs, root, {root})
  {
    assert Descent(logs, [root]) && [root][0] == root && [root][|[root]| - 1] == root;
  }

  /** The sweeps end with exactly the descendants of the root. */
  method Include(logs: seq<Log>, root: string) returns (included: set<string>)
    ensures forall id :: id in included <==> DescendsFrom(logs, root, id)
  {
    included := {root};
    RootDescends(logs, root);
    var changed := true;
    while changed
      invariant root in included && included <= Known(logs) + {root}
      invariant AllDescend(logs, root, included)
      invariant !changed ==> Closed(logs, included)
      decreases |Known(logs) + {root} - included|, changed
    {
      ghost var before := included;
      included, changed := Sweep(logs, root, included);
      if changed { Shrinks(Known(logs) + {root}, before, included); }
    }
    ExactlyTheDescendants(logs, root, included);
  }

  predicate Settled(log: Log, included: set<string>) {
    log.parent.Some? && log.parent.value in included ==> log.id in included
  }

  lemma Shrinks(all: set<string>, before: set<string>, included: set<string>)
    requires before <= included <= all && before != included
    ensures |all - included| < |all - before|
  {
    var id :| id in included && id !in before;
    SubsetCardinality((all - included) + {id}, all - before);
    assert id !in all - included;
  }
}
