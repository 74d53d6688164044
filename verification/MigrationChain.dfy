/**
 The walk over migration receipts (src/runtime/migration-recovery.ts:107-273). A row is a receipt comment; `early` and
 `late` are what the checks that concern the row alone answer, before and after its place in the chain is checked.
 */
module MigrationChain {
  import opened Basics

  datatype Row = Row(
    id: string, predecessor: Option<string>, workspace: string,
    source: string, target: string,          // configuration pins
    early: Option<string>, late: Option<string>)

  datatype ChainError =
    | BadRoot | Cycle | WorkspaceChanged | Conflict | Fork | Disconnected
    | Rejected(reason: string)

  function Ids(rows: seq<Row>): seq<string> {
    Map((r: Row) => r.id, rows)
  }

  function Roots(rows: seq<Row>): seq<Row> {
    Filter((r: Row) => r.predecessor.None?, rows)
  }

  function Successors(rows: seq<Row>, id: string): seq<Row> {
    Filter((r: Row) => r.predecessor == Some(id), rows)
  }

  /** The checks of one turn of the walk, in order. */
  function Check(row: Row, previous: Option<string>, pin: string, workspace: Option<string>): Option<ChainError> {
    if workspace.Some? && workspace.value != row.workspace then Some(WorkspaceChanged)
    else if row.early.Some? then Some(Rejected(row.early.value))
    else if row.source != pin || row.predecessor != previous then Some(Conflict)
    else if row.late.Some? then Some(Rejected(row.late.value))
    else None
  }

  /** The walk from `row` on, `path` being the rows behind it; answers the whole path. */
  function WalkFrom(rows: seq<Row>, row: Row, previous: Option<string>, pin: string, workspace: Option<string>, path: seq<Row>)
    : Result<seq<Row>, ChainError>
    requires row in rows && ToSet(Ids(path)) <= ToSet(Ids(rows))
    decreases ToSet(Ids(rows)) - ToSet(Ids(path))
  {
    if row.id in Ids(path) then Err(Cycle)
    else
      var problem := Check(row, previous, pin, workspace);
      if problem.Some? then Err(problem.value)
      else
        var longer := path + [row];
        IdsGrow(rows, path, row);
        var next := Successors(rows, row.id);
        if |next| > 1 then Err(Fork)
        else if next == [] then (if |longer| == |rows| then Ok(longer) else Err(Disconnected))
        else
          assert next[0] in next;
          WalkFrom(rows, next[0], Some(row.id), row.target, Some(row.workspace), longer)
  }

  lemma IdsGrow(rows: seq<Row>, path: seq<Row>, row: Row)
    requires row in rows && ToSet(Ids(path)) <= ToSet(Ids(rows)) && row.id !in Ids(path)
    ensures ToSet(Ids(path + [row])) == ToSet(Ids(path)) + {row.id}
    ensures ToSet(Ids(path + [row])) <= ToSet(Ids(rows))
    ensures ToSet(Ids(rows)) - ToSet(Ids(path + [row])) < ToSet(Ids(rows)) - ToSet(Ids(path))
  {
    assert Ids(path + [row]) == Ids(path) + [row.id];
    var i :| 0 <= i < |rows| && rows[i] == row;
    assert Ids(rows)[i] == row.id;
    assert row.id in ToSet(Ids(rows)) - ToSet(Ids(path));
  }

  /** `recoverMigration` over the receipt rows of a ticket, from the pin of the elected owner. */
  function WalkAll(rows: seq<Row>, pin: string): Result<seq<Row>, ChainError> {
    var roots := Roots(rows);
    if |roots| != 1 then Err(BadRoot)
    else
      assert roots[0] in roots;
      WalkFrom(rows, roots[0], None, pin, None, [])
  }

  /** The loop of the source. */
  method Walk(rows: seq<Row>, ownerPin: string) returns (r: Result<seq<Row>, ChainError>)
    ensures r == WalkAll(rows, ownerPin)
  {
    var first := Roots(rows);
    if |first| != 1 { return Err(BadRoot); }
    assert first[0] in first;
    var row, previous: Option<string>, pin, workspace: Option<string>, seen := first[0], None, ownerPin, None, [];
    while true
      invariant row in rows && ToSet(Ids(seen)) <= ToSet(Ids(rows))
      invariant WalkAll(rows, ownerPin) == WalkFrom(rows, row, previous, pin, workspace, seen)
      decreases ToSet(Ids(rows)) - ToSet(Ids(seen))
    {
      if row.id in Ids(seen) { return Err(Cycle); }
      if workspace.Some? && workspace.value != row.workspace { return Err(WorkspaceChanged); }
      if row.early.Some? { return Err(Rejected(row.early.value)); }
      if row.source != pin || row.predecessor != previous { return Err(Conflict); }
      if row.late.Some? { return Err(Rejected(row.late.value)); }
      IdsGrow(rows, seen, row);
      workspace := Some(row.workspace);
      seen := seen + [row];
      pin, previous := row.target, Some(row.id);
      var next := Successors(rows, row.id);
      if |next| > 1 { return Err(Fork); }
      if next == [] {
        return if |seen| == |rows| then Ok(seen) else Err(Disconnected);
      }
      assert next[0] in next;
      row := next[0];
    }
    assert false;
  }

  // ----- What acceptance means -----

  /** Link `i` hangs on link `i - 1`: predecessor, pin and workspace. The root hangs on the owner's pin. */
  ghost predicate Linked(order: seq<Row>, pin: string, i: nat)
    requires i < |order|
  {
    && order[i].early.None? && order[i].late.None?
    && order[i].predecessor == (if i == 0 then None else Some(order[i - 1].id))
    && order[i].source == (if i == 0 then pin else order[i - 1].target)
    && (i > 0 ==> order[i].workspace == order[i - 1].workspace)
  }

  ghost predicate LinearChain(order: seq<Row>, pin: string) {
    && Distinct(Ids(order))
    && forall i :: 0 <= i < |order| ==> Linked(order, pin, i)
  }

  function PreviousOf(path: seq<Row>): Option<string> {
    if path == [] then None else Some(path[|path| - 1].id)
  }

  function PinOf(path: seq<Row>, pin: string): string {
    if path == [] then pin else path[|path| - 1].target
  }

  function WorkspaceOf(path: seq<Row>): Option<string> {
    if path == [] then None else Some(path[|path| - 1].workspace)
  }

  lemma ExtendChain(path: seq<Row>, pin: string, row: Row)
    requires LinearChain(path, pin) && row.id !in Ids(path)
    requires Check(row, PreviousOf(path), PinOf(path, pin), WorkspaceOf(path)).None?
    ensures LinearChain(path + [row], pin)
  {
    var longer := path + [row];
    assert Ids(longer) == Ids(path) + [row.id];
    forall i | 0 <= i < |longer| ensures Linked(longer, pin, i) {
      if i < |path| { assert Linked(path, pin, i); }
    }
  }

  lemma DistinctRows(path: seq<Row>)
    requires Distinct(Ids(path))
    ensures Distinct(path)
  {
    forall i, j | 0 <= i < j < |path| ensures path[i] != path[j] {
      assert Ids(path)[i] != Ids(path)[j];
    }
  }

  lemma {:induction false} DistinctIsSubmultiset(path: seq<Row>, rows: seq<Row>)
    requires Distinct(path) && forall r :: r in path ==> r in rows
    ensures multiset(path) <= multiset(rows)
  {
    forall r ensures multiset(path)[r] <= multiset(rows)[r] {
      if r in path {
        assert r in multiset(rows);
        DistinctOnce(path, r);
      } else {
        assert r !in multiset(path);
      }
    }
  }

  lemma {:induction false} DistinctOnce(path: seq<Row>, r: Row)
    requires Distinct(path)
    ensures multiset(path)[r] <= 1
  {
    if path != [] {
      assert path == [path[0]] + path[1..];
      DistinctOnce(path[1..], r);
      assert path[0] !in path[1..];
      assert path[0] !in multiset(path[1..]);
    }
  }

  lemma FullPathIsPermutation(path: seq<Row>, rows: seq<Row>)
    requires Distinct(Ids(path)) && (forall r :: r in path ==> r in rows) && |path| == |rows|
    ensures multiset(path) == multiset(rows)
  {
    DistinctRows(path);
    DistinctIsSubmultiset(path, rows);
    var rest := multiset(rows) - multiset(path);
    assert multiset(rows) == multiset(path) + rest;
    assert |multiset(rows)| == |multiset(path)| + |rest|;
  }

  lemma {:induction false} WalkFromSound(rows: seq<Row>, row: Row, pin: string, path: seq<Row>)
    requires row in rows && ToSet(Ids(path)) <= ToSet(Ids(rows))
    requires LinearChain(path, pin) && forall r :: r in path ==> r in rows
    ensures var w := WalkFrom(rows, row, PreviousOf(path), PinOf(path, pin), WorkspaceOf(path), path);
            w.Ok? ==> LinearChain(w.value, pin) && w.value != [] && multiset(w.value) == multiset(rows)
    decreases ToSet(Ids(rows)) - ToSet(Ids(path))
  {
    if row.id !in Ids(path) && Check(row, PreviousOf(path), PinOf(path, pin), WorkspaceOf(path)).None? {
      var longer := path + [row];
      IdsGrow(rows, path, row);
      ExtendChain(path, pin, row);
      var next := Successors(rows, row.id);
      if |next| == 1 {
        assert next[0] in next;
        WalkFromSound(rows, next[0], pin, longer);
      } else if next == [] && |longer| == |rows| {
        FullPathIsPermutation(longer, rows);
      }
    }
  }

  // ----- A chain among rows is walked to its end -----

  lemma FilterPermutes(keep: Row -> bool, rows: seq<Row>, other: seq<Row>)
    requires multiset(rows) == multiset(other)
    ensures multiset(Filter(keep, rows)) == multiset(Filter(keep, other))
    ensures |Filter(keep, rows)| == |Filter(keep, other)|
    ensures |Filter(keep, rows)| == 1 ==> Filter(keep, rows) == Filter(keep, other)
  {
    forall r ensures multiset(Filter(keep, rows))[r] == multiset(Filter(keep, other))[r] {
      FilterCounts(keep, rows, r);
      FilterCounts(keep, other, r);
    }
    SingletonPermutes(Filter(keep, rows), Filter(keep, other));
  }

  lemma SingletonPermutes(xs: seq<Row>, ys: seq<Row>)
    requires multiset(xs) == multiset(ys)
    ensures |xs| == |ys| && (|xs| == 1 ==> xs == ys)
  {
    assert |multiset(xs)| == |multiset(ys)|;
    if |xs| == 1 {
      assert xs[0] in multiset(ys);
    }
  }

  /** Exactly one row of a duplicate-free list passes the filter. */
  lemma OneSurvivor(keep: Row -> bool, rows: seq<Row>, row: Row)
    requires Distinct(rows) && row in rows && keep(row) && forall r :: r in rows && keep(r) ==> r == row
    ensures Filter(keep, rows) == [row]
  {
    var kept := Filter(keep, rows);
    assert row in kept;
    KeepsDistinct(keep, rows);
    DistinctConstant(kept, row);
    assert kept[0] in kept;
  }

  lemma {:induction false} NoSurvivor(keep: Row -> bool, rows: seq<Row>)
    requires forall r :: r in rows ==> !keep(r)
    ensures Filter(keep, rows) == []
  {
    if rows != [] {
      NoSurvivor(keep, rows[1..]);
    }
  }

  lemma {:induction false} KeepsDistinct(keep: Row -> bool, rows: seq<Row>)
    requires Distinct(rows)
    ensures Distinct(Filter(keep, rows))
  {
    if rows != [] {
      KeepsDistinct(keep, rows[1..]);
      assert rows[0] !in rows[1..];
    }
  }

  /** Rows that hang on one another only: none is a root, none follows a row of the chain. */
  ghost predicate Detached(others: seq<Row>, chain: seq<Row>) {
    forall r :: r in others ==> r.predecessor.Some? && r.predecessor.value !in Ids(chain)
  }

  ghost predicate ChainAmong(rows: seq<Row>, chain: seq<Row>, others: seq<Row>, pin: string) {
    && LinearChain(chain, pin) && chain != [] && Detached(others, chain)
    && multiset(rows) == multiset(chain + others) && Distinct(Ids(rows))
  }

  lemma ChainMembers(rows: seq<Row>, chain: seq<Row>, others: seq<Row>, pin: string)
    requires ChainAmong(rows, chain, others, pin)
    ensures |rows| == |chain| + |others|
    ensures forall r :: r in rows <==> r in chain || r in others
    ensures forall i :: 0 <= i < |chain| ==> chain[i] in rows
  {
    SameElements(rows, chain + others);
  }

  lemma ChainSuccessor(rows: seq<Row>, chain: seq<Row>, others: seq<Row>, pin: string, k: nat)
    requires ChainAmong(rows, chain, others, pin) && k < |chain|
    ensures Successors(rows, chain[k].id) == if k + 1 < |chain| then [chain[k + 1]] else []
  {
    ChainMembers(rows, chain, others, pin);
    var id := chain[k].id;
    var keep := (r: Row) => r.predecessor == Some(id);
    assert Ids(chain)[k] == id;
    forall r | r in rows && keep(r) ensures k + 1 < |chain| && r == chain[k + 1] {
      assert r in chain;
      var i :| 0 <= i < |chain| && chain[i] == r;
      assert Linked(chain, pin, i);
      assert Ids(chain)[i - 1] == chain[i - 1].id;
      assert i - 1 == k;
    }
    if k + 1 < |chain| {
      assert Linked(chain, pin, k + 1);
      DistinctRows(rows);
      OneSurvivor(keep, rows, chain[k + 1]);
      assert Successors(rows, id) == Filter(keep, rows);
    } else {
      NoSurvivor(keep, rows);
      assert Successors(rows, id) == Filter(keep, rows);
    }
  }

  lemma ChainRoot(rows: seq<Row>, chain: seq<Row>, others: seq<Row>, pin: string)
    requires ChainAmong(rows, chain, others, pin)
    ensures Roots(rows) == [chain[0]]
  {
    ChainMembers(rows, chain, others, pin);
    var keep := (r: Row) => r.predecessor.None?;
    assert Linked(chain, pin, 0);
    forall r | r in rows && keep(r) ensures r == chain[0] {
      assert r in chain;
      var i :| 0 <= i < |chain| && chain[i] == r;
      assert Linked(chain, pin, i);
    }
    DistinctRows(rows);
    OneSurvivor(keep, rows, chain[0]);
    assert Roots(rows) == Filter(keep, rows);
  }

  lemma ChainTurn(chain: seq<Row>, pin: string, k: nat)
    requires LinearChain(chain, pin) && k < |chain|
    ensures var path := chain[..k];
            && chain[k].id !in Ids(path)
            && Check(chain[k], PreviousOf(path), PinOf(path, pin), WorkspaceOf(path)).None?
    ensures chain[..k] + [chain[k]] == chain[..k + 1]
    ensures PreviousOf(chain[..k + 1]) == Some(chain[k].id) && PinOf(chain[..k + 1], pin) == chain[k].target
            && WorkspaceOf(chain[..k + 1]) == Some(chain[k].workspace)
  {
    forall i | 0 <= i < k ensures Ids(chain[..k])[i] != chain[k].id {
      assert Ids(chain)[i] != Ids(chain)[k];
    }
    assert Linked(chain, pin, k);
  }

  lemma {:induction false} WalkFromFollows(rows: seq<Row>, chain: seq<Row>, others: seq<Row>, pin: string, k: nat)
    requires ChainAmong(rows, chain, others, pin) && k < |chain| && chain[k] in rows
    requires ToSet(Ids(chain[..k])) <= ToSet(Ids(rows))
    ensures WalkFrom(rows, chain[k], PreviousOf(chain[..k]), PinOf(chain[..k], pin), WorkspaceOf(chain[..k]), chain[..k])
         == if others == [] then Ok(chain) else Err(Disconnected)
    decreases |chain| - k
  {
    hide LinearChain, Detached, Distinct, Check, Successors;
    ChainTurn(chain, pin, k);
    IdsGrow(rows, chain[..k], chain[k]);
    ChainSuccessor(rows, chain, others, pin, k);
    ChainMembers(rows, chain, others, pin);
    if k + 1 < |chain| {
      WalkFromFollows(rows, chain, others, pin, k + 1);
      assert Successors(rows, chain[k].id)[0] == chain[k + 1];
    } else {
      assert chain[..k + 1] == chain;
    }
  }

  /** A chain that reaches every row is accepted; rows that only hang on one another leave it disconnected. */
  lemma ChainIsWalked(rows: seq<Row>, chain: seq<Row>, others: seq<Row>, pin: string)
    requires ChainAmong(rows, chain, others, pin)
    ensures WalkAll(rows, pin) == if others == [] then Ok(chain) else Err(Disconnected)
  {
    ChainRoot(rows, chain, others, pin);
    ChainMembers(rows, chain, others, pin);
    assert chain[..0] == [];
    assert ToSet(Ids(chain[..0])) <= ToSet(Ids(rows));
    WalkFromFollows(rows, chain, others, pin, 0);
  }

  lemma ChainIdsPermute(rows: seq<Row>, chain: seq<Row>)
    requires multiset(rows) == multiset(chain) && Distinct(Ids(chain))
    ensures Distinct(Ids(rows))
  {
    SameElements(rows, chain);
    var a, b := ToSet(Ids(rows)), ToSet(Ids(chain));
    forall id | id in b ensures id in a {
      var i :| 0 <= i < |chain| && Ids(chain)[i] == id;
      assert chain[i] in rows;
      var j :| 0 <= j < |rows| && rows[j] == chain[i];
      assert Ids(rows)[j] == id;
    }
    DistinctCardinality(Ids(chain));
    SubsetCardinality(b, a);
    CardinalityBound(Ids(rows));
  }

  /**
   The walk accepts exactly the receipt sets that are one linear chain from the owner's pin covering every receipt, and
   answers that chain.
   */
  lemma AcceptedIffOneLinearChain(rows: seq<Row>, pin: string, chain: seq<Row>)
    ensures WalkAll(rows, pin) == Ok(chain) <==>
              LinearChain(chain, pin) && chain != [] && multiset(rows) == multiset(chain)
  {
    var roots := Roots(rows);
    if |roots| == 1 {
      assert roots[0] in roots;
      WalkFromSound(rows, roots[0], pin, []);
    }
    if LinearChain(chain, pin) && chain != [] && multiset(rows) == multiset(chain) {
      ChainIdsPermute(rows, chain);
      assert chain + [] == chain;
      ChainIsWalked(rows, chain, [], pin);
    }
  }

  // ----- What each error means -----

  /** The one row that comes next: the root, or the one that names the last row of the path. */
  ghost predicate NextIs(rows: seq<Row>, path: seq<Row>, row: Row) {
    OnlyOne((r: Row) => r.predecessor == PreviousOf(path), rows, row)
  }

  /** The walk got as far as `path`, without a choice at any row. */
  ghost predicate Walked(rows: seq<Row>, pin: string, path: seq<Row>) {
    LinearChain(path, pin) && forall i :: 0 <= i < |path| ==> NextIs(rows, path[..i], path[i])
  }

  /** What is wrong with the row behind `path`, by the first check it fails. */
  predicate Fails(pin: string, path: seq<Row>, row: Row, error: ChainError) {
    if error.Cycle? then row.id in Ids(path)
    else
      && row.id !in Ids(path)
      && var moved := path != [] && path[|path| - 1].workspace != row.workspace;
      if error.WorkspaceChanged? then moved
      else
        && !moved
        && if error.Conflict? then row.early.None? && row.source != PinOf(path, pin)
           else error.Rejected? && (row.early == Some(error.reason)
                                    || (row.early.None? && row.source == PinOf(path, pin) && row.late == Some(error.reason)))
  }

  /** Several rows name `row` as their predecessor. */
  ghost predicate Forks(rows: seq<Row>, row: Row) {
    exists i, j :: 0 <= i < j < |rows| && rows[i].predecessor == Some(row.id) && rows[j].predecessor == Some(row.id)
  }

  ghost predicate Breaks(rows: seq<Row>, pin: string, path: seq<Row>, error: ChainError) {
    && Walked(rows, pin, path)
    && match error
       case BadRoot => false
       case Fork => path != [] && Forks(rows, path[|path| - 1])
       case Disconnected => path != [] && |path| != |rows| && forall r :: r in rows ==> r.predecessor != Some(path[|path| - 1].id)
       case _ => exists row :: NextIs(rows, path, row) && Fails(pin, path, row, error)
  }

  lemma {:induction false} SeveralKept(keep: Row -> bool, rows: seq<Row>)
    requires |Filter(keep, rows)| > 1
    ensures exists i, j :: 0 <= i < j < |rows| && keep(rows[i]) && keep(rows[j])
  {
    var rest := Filter(keep, rows[1..]);
    if keep(rows[0]) {
      assert rest[0] in rest;
      var j :| 0 <= j < |rows[1..]| && rows[1..][j] == rest[0];
      assert keep(rows[0]) && keep(rows[j + 1]);
    } else {
      SeveralKept(keep, rows[1..]);
      var i, j :| 0 <= i < j < |rows[1..]| && keep(rows[1..][i]) && keep(rows[1..][j]);
      assert keep(rows[i + 1]) && keep(rows[j + 1]);
    }
  }

  lemma WalkedOneMore(rows: seq<Row>, pin: string, path: seq<Row>, row: Row)
    requires Walked(rows, pin, path) && NextIs(rows, path, row) && LinearChain(path + [row], pin)
    ensures Walked(rows, pin, path + [row])
  {
    hide OnlyOne, LinearChain;
    var longer := path + [row];
    forall i | 0 <= i < |longer| ensures NextIs(rows, longer[..i], longer[i]) {
      assert longer[..i] == path[..i];
    }
  }

  lemma {:induction false} WalkFromErrs(rows: seq<Row>, row: Row, pin: string, path: seq<Row>) returns (stop: seq<Row>)
    requires row in rows && ToSet(Ids(path)) <= ToSet(Ids(rows))
    requires Walked(rows, pin, path) && NextIs(rows, path, row)
    ensures var w := WalkFrom(rows, row, PreviousOf(path), PinOf(path, pin), WorkspaceOf(path), path);
            w.Err? ==> Breaks(rows, pin, stop, w.error)
    decreases ToSet(Ids(rows)) - ToSet(Ids(path)), 0
  {
    hide LinearChain, OnlyOne, Walked;
    stop := path;
    NextNames(rows, path, row);
    if row.id !in Ids(path) && Check(row, PreviousOf(path), PinOf(path, pin), WorkspaceOf(path)).None? {
      stop := path + [row];
      IdsGrow(rows, path, row);
      WalkedIsLinear(rows, pin, path);
      ExtendChain(path, pin, row);
      WalkedOneMore(rows, pin, path, row);
      stop := WalkOn(rows, row, pin, stop);
    }
  }

  /** Behind the last row of the path. */
  lemma {:induction false} WalkOn(rows: seq<Row>, row: Row, pin: string, longer: seq<Row>) returns (stop: seq<Row>)
    requires longer != [] && longer[|longer| - 1] == row && ToSet(Ids(longer)) <= ToSet(Ids(rows)) && Walked(rows, pin, longer)
    ensures var next := Successors(rows, row.id);
            && (|next| > 1 ==> Breaks(rows, pin, stop, Fork))
            && (next == [] && |longer| != |rows| ==> Breaks(rows, pin, stop, Disconnected))
            && (|next| == 1 ==>
                  && next[0] in rows
                  && var w := WalkFrom(rows, next[0], Some(row.id), row.target, Some(row.workspace), longer);
                  w.Err? ==> Breaks(rows, pin, stop, w.error))
    decreases ToSet(Ids(rows)) - ToSet(Ids(longer)), 1
  {
    hide LinearChain, OnlyOne, Walked, WalkFrom;
    var keep := (r: Row) => r.predecessor == Some(row.id);
    var next := Successors(rows, row.id);
    stop := longer;
    if |next| > 1 {
      SeveralKept(keep, rows);
    } else if |next| == 1 {
      assert next == [next[0]] && next[0] in next;
      FilterSingle(keep, rows, next[0]);
      assert NextIs(rows, longer, next[0]);
      stop := WalkFromErrs(rows, next[0], pin, longer);
    } else {
      FilterNone(keep, rows);
    }
  }

  lemma NextNames(rows: seq<Row>, path: seq<Row>, row: Row)
    requires NextIs(rows, path, row)
    ensures row in rows && row.predecessor == PreviousOf(path)
  {
  }

  lemma WalkedIsLinear(rows: seq<Row>, pin: string, path: seq<Row>)
    requires Walked(rows, pin, path)
    ensures LinearChain(path, pin)
  {
  }

  /** Every error of the walk names what is wrong, at the place where the receipts stop being one linear chain. */
  lemma ErrorMeaning(rows: seq<Row>, pin: string)
    ensures var w := WalkAll(rows, pin);
            w.Err? ==> if w.error.BadRoot? then forall root :: !NextIs(rows, [], root) else exists path :: Breaks(rows, pin, path, w.error)
  {
    hide WalkFrom, OnlyOne, Walked;
    var keep := (r: Row) => r.predecessor.None?;
    var roots := Roots(rows);
    forall root ensures NextIs(rows, [], root) <==> roots == [root] {
      FilterSingle(keep, rows, root);
      SameOnlyOne(keep, (r: Row) => r.predecessor == PreviousOf([]), rows, root);
    }
    if |roots| == 1 {
      assert roots == [roots[0]] && roots[0] in roots;
      NothingWalked(rows, pin);
      var stop := WalkFromErrs(rows, roots[0], pin, []);
    }
  }

  lemma SameOnlyOne(keep: Row -> bool, same: Row -> bool, rows: seq<Row>, row: Row)
    requires forall r :: keep(r) == same(r)
    ensures OnlyOne(keep, rows, row) <==> OnlyOne(same, rows, row)
  {
  }

  lemma NothingWalked(rows: seq<Row>, pin: string)
    ensures Walked(rows, pin, [])
  {
  }

  // ----- The order of the comments does not matter -----

  lemma SuccessorsPermute(rows: seq<Row>, other: seq<Row>, id: string)
    requires multiset(rows) == multiset(other)
    ensures |Successors(rows, id)| == |Successors(other, id)|
    ensures |Successors(rows, id)| == 1 ==>
              var next := Successors(rows, id);
              Successors(other, id) == next && next[0] in rows && next[0] in other
  {
    FilterPermutes((r: Row) => r.predecessor == Some(id), rows, other);
    var next := Successors(rows, id);
    if |next| == 1 {
      assert Successors(other, id) == next;
      assert next[0] in next;
    }
  }

  lemma {:induction false} WalkFromPermutes(rows: seq<Row>, other: seq<Row>, row: Row, previous: Option<string>, pin: string,
                                            workspace: Option<string>, path: seq<Row>)
    requires multiset(rows) == multiset(other) && |rows| == |other| && row in rows && row in other
    requires ToSet(Ids(path)) <= ToSet(Ids(rows)) && ToSet(Ids(path)) <= ToSet(Ids(other))
    ensures WalkFrom(rows, row, previous, pin, workspace, path) == WalkFrom(other, row, previous, pin, workspace, path)
    decreases ToSet(Ids(rows)) - ToSet(Ids(path))
  {
    if row.id !in Ids(path) && Check(row, previous, pin, workspace).None? {
      IdsGrow(rows, path, row);
      IdsGrow(other, path, row);
      SuccessorsPermute(rows, other, row.id);
      if |Successors(rows, row.id)| == 1 {
        WalkFromPermutes(rows, other, Successors(rows, row.id)[0], Some(row.id), row.target, Some(row.workspace), path + [row]);
      }
    }
  }

  /** Accepted or not, and for whatever reason: the answer is the same for every order of the receipts. */
  lemma OrderDoesNotMatter(rows: seq<Row>, other: seq<Row>, pin: string)
    requires multiset(rows) == multiset(other)
    ensures WalkAll(rows, pin) == WalkAll(other, pin)
  {
    FilterPermutes((r: Row) => r.predecessor.None?, rows, other);
    SameElements(rows, other);
    var roots := Roots(rows);
    if |roots| == 1 {
      assert roots[0] in roots;
      assert Roots(other) == roots;
      WalkFromPermutes(rows, other, roots[0], None, pin, None, []);
    }
  }

  // ----- The cycle check never fires -----

  lemma DifferentIds(rows: seq<Row>, a: Row, b: Row)
    requires Distinct(Ids(rows)) && a in rows && b in rows && a != b
    ensures a.id != b.id
  {
    var i :| 0 <= i < |rows| && rows[i] == a;
    var j :| 0 <= j < |rows| && rows[j] == b;
    assert Ids(rows)[i] != Ids(rows)[j];
  }

  /** The row behind a chain's last link is none of its links: only one row hangs on each of them. */
  lemma NextIsNew(rows: seq<Row>, row: Row, pin: string, path: seq<Row>)
    requires Distinct(Ids(rows)) && row in rows && LinearChain(path, pin) && forall r :: r in path ==> r in rows
    requires row.predecessor == PreviousOf(path)
    ensures row.id !in Ids(path)
  {
    forall i | 0 <= i < |path| ensures Ids(path)[i] != row.id {
      assert Linked(path, pin, i);
      if i > 0 { assert Ids(path)[i - 1] != Ids(path)[|path| - 1]; }
      assert path[i].predecessor != row.predecessor;
      DifferentIds(rows, path[i], row);
    }
  }

  lemma {:induction false} NoCycleFrom(rows: seq<Row>, row: Row, pin: string, path: seq<Row>)
    requires Distinct(Ids(rows)) && row in rows && ToSet(Ids(path)) <= ToSet(Ids(rows))
    requires LinearChain(path, pin) && forall r :: r in path ==> r in rows
    requires row.predecessor == PreviousOf(path)
    ensures WalkFrom(rows, row, PreviousOf(path), PinOf(path, pin), WorkspaceOf(path), path) != Err(Cycle)
    decreases ToSet(Ids(rows)) - ToSet(Ids(path))
  {
    NextIsNew(rows, row, pin, path);
    if Check(row, PreviousOf(path), PinOf(path, pin), WorkspaceOf(path)).None? {
      var longer := path + [row];
      IdsGrow(rows, path, row);
      ExtendChain(path, pin, row);
      var next := Successors(rows, row.id);
      if |next| == 1 {
        assert next[0] in next;
        NoCycleFrom(rows, next[0], pin, longer);
      }
    }
  }

  /** Comment ids are unique, so a walk from a root never meets a receipt twice. */
  lemma CycleIsUnreachable(rows: seq<Row>, pin: string)
    requires Distinct(Ids(rows))
    ensures WalkAll(rows, pin) != Err(Cycle)
  {
    var roots := Roots(rows);
    if |roots| == 1 {
      assert roots[0] in roots;
      NoCycleFrom(rows, roots[0], pin, []);
    }
  }
}
