/**
 One repository scan as the controller runs it (src/runtime/controller.ts:297-335): the paging loop that collects tickets,
 the active tickets added to them, and the cursor that moves only behind reconciles that all succeeded.
 */
module ControllerScan {
  import opened Basics

  /** Each element once, in the order of first appearance. */
  function Once(xs: seq<string>): (ys: seq<string>)
    ensures Distinct(ys) && forall x :: x in ys <==> x in xs
  {
    if xs == [] then []
    else
      var ys := Once(xs[..|xs| - 1]);
      var x := xs[|xs| - 1];
      assert xs == xs[..|xs| - 1] + [x];
      if x in ys then ys else ys + [x]
  }

  lemma OnceMore(xs: seq<string>, x: string)
    ensures Once(xs + [x]) == if x in Once(xs) then Once(xs) else Once(xs) + [x]
  {
    assert (xs + [x])[..|xs|] == xs;
  }

  function Flatten(pages: seq<seq<string>>): seq<string> {
    if pages == [] then [] else Flatten(pages[..|pages| - 1]) + pages[|pages| - 1]
  }

  datatype Ticket = Ticket(key: string, repository: string)

  function ActiveIn(active: seq<Ticket>, repository: string): seq<string> {
    Map((t: Ticket) => t.key, Filter((t: Ticket) => t.repository == repository, active))
  }

  /** The `do`/`while` over pages; `stopAt` is the page behind which the controller is found stopping. */
  method DiscoverRepository(pages: seq<seq<string>>, stopAt: Option<nat>) returns (tickets: seq<string>, complete: bool)
    requires pages != []
    ensures complete <==> (stopAt.Some? ==> stopAt.value >= |pages|)
    ensures tickets == Once(Flatten(if complete then pages else pages[..stopAt.value]))
  {
    tickets := [];
    var i := 0;
    while i < |pages|
      invariant i <= |pages| && tickets == Once(Flatten(pages[..i]))
      invariant stopAt.Some? ==> i <= stopAt.value
    {
      if stopAt == Some(i) { return tickets, false; }
      tickets := AddPage(tickets, Flatten(pages[..i]), pages[i]);
      assert pages[..i + 1][..i] == pages[..i];
      i := i + 1;
    }
    assert pages[..i] == pages;
    return tickets, true;
  }

  method AddPage(seen: seq<string>, ghost before: seq<string>, page: seq<string>) returns (tickets: seq<string>)
    requires seen == Once(before)
    ensures tickets == Once(before + page)
  {
    tickets := seen;
    ghost var all := before;
    for j := 0 to |page|
      invariant all == before + page[..j]
      invariant tickets == Once(all)
    {
      OnceMore(all, page[j]);
      if page[j] !in tickets { tickets := tickets + [page[j]]; }
      all := all + [page[j]];
    }
    assert all == before + page;
  }

  class Controller {
    var cursors: map<string, int>
    var active: seq<Ticket>

    constructor (cursors: map<string, int>)
      ensures this.cursors == cursors && active == []
    {
      this.cursors, active := cursors, [];
    }

    /**
     One scan. `failing` are the tickets whose reconcile is rejected. What is scheduled is every discovered ticket once, in
     the order discovered, then the active ones of the repository; the cursor moves exactly when all of it succeeded.
     */
    method ReconcileRepository(repository: string, next: int, pages: seq<seq<string>>, stopAt: Option<nat>, failing: set<string>)
      returns (scheduled: seq<string>, ok: bool)
      requires pages != []
      modifies this`cursors
      ensures var complete := stopAt.Some? ==> stopAt.value >= |pages|;
              var known := repository in old(cursors);
              && scheduled == (if known && complete then Once(Flatten(pages) + ActiveIn(active, repository)) else [])
              && ok == (known && (complete ==> forall t :: t in scheduled ==> t !in failing))
              && cursors == if ok && complete then old(cursors)[repository := next] else old(cursors)
    {
      if repository !in cursors { return [], false; }
      var tickets, complete := DiscoverRepository(pages, stopAt);
      if !complete { return [], true; }
      scheduled := AddPage(tickets, Flatten(pages), ActiveIn(active, repository));
      ok := forall t :: t in scheduled ==> t !in failing;
      if ok { cursors := cursors[repository := next]; }
    }
  }
}
