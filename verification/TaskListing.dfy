/** Task listing: filter, newest first, and pages linked by the id of the next task. */
module TaskListing {
  import opened Results
  import opened Tasks

  datatype Filter = Filter(context: Option<Name>, state: Option<TaskState>, after: Option<nat>)

  datatype Page = Page(tasks: seq<Task>, total: nat, next: Option<Name>)

  datatype ListError = InvalidToken | OutOfRange

  const DEFAULT_PAGE_SIZE := 50

  predicate Passes(t: Task, filter: Filter) {
    && (filter.context.Some? ==> t.contextId == filter.context.value)
    && (filter.state.Some? ==> t.state == filter.state.value)
    && (filter.after.Some? ==> filter.after.value <= t.timestamp)
  }

  function Filtered(rows: seq<Task>, filter: Filter): seq<Task> {
    if rows == [] then []
    else
      var last := rows[|rows| - 1];
      Filtered(rows[..|rows| - 1], filter) + if Passes(last, filter) then [last] else []
  }

  /** Later status first, and among equals the larger id first. */
  predicate Newer(a: Task, b: Task) {
    a.timestamp > b.timestamp || (a.timestamp == b.timestamp && a.id > b.id)
  }

  function Insert(sorted: seq<Task>, t: Task): seq<Task> {
    if sorted == [] || Newer(t, sorted[0]) then [t] + sorted else [sorted[0]] + Insert(sorted[1..], t)
  }

  function Sort(tasks: seq<Task>): seq<Task> {
    if tasks == [] then [] else Insert(Sort(tasks[1..]), tasks[0])
  }

  function Listing(rows: seq<Task>, filter: Filter): seq<Task> {
    Sort(Filtered(rows, filter))
  }

  function IndexOf(tasks: seq<Task>, id: Name): (i: nat)
    ensures i <= |tasks| && (i < |tasks| ==> tasks[i].id == id)
    ensures forall j :: 0 <= j < i ==> tasks[j].id != id
  {
    if tasks == [] || tasks[0].id == id then 0 else 1 + IndexOf(tasks[1..], id)
  }

  /** The page after a token; a negative size cuts from the end, as slicing does in the source's language. */
  function PageOf(tasks: seq<Task>, token: Option<Name>, pageSize: int): Result<Page, ListError> {
    var start := if token.Some? then IndexOf(tasks, token.value) else 0;
    if token.Some? && start == |tasks| then Failure(InvalidToken)
    else
      var rest := tasks[start..];
      var size := if pageSize == 0 then DEFAULT_PAGE_SIZE else pageSize;
      if size < 0 && |rest| < -size then Failure(OutOfRange)
      else
        var cut := if size < 0 then |rest| + size else if size < |rest| then size else |rest|;
        Success(Page(rest[..cut], |tasks|, if cut < |rest| then Some(rest[cut].id) else None))
  }

  ghost predicate Distinct(tasks: seq<Task>) {
    forall i, j :: 0 <= i < j < |tasks| ==> tasks[i].id != tasks[j].id
  }

  ghost predicate Ordered(tasks: seq<Task>) {
    forall i, j :: 0 <= i < j < |tasks| ==> Newer(tasks[i], tasks[j])
  }

  // ----- the listing is the sorted set of matching tasks -----

  lemma {:induction false} InsertMembers(sorted: seq<Task>, t: Task)
    ensures forall u :: u in Insert(sorted, t) <==> u == t || u in sorted
    ensures multiset(Insert(sorted, t)) == multiset(sorted) + multiset{t}
  {
    if sorted != [] && !Newer(t, sorted[0]) {
      InsertMembers(sorted[1..], t);
      assert sorted == [sorted[0]] + sorted[1..];
    }
  }

  lemma {:induction false} InsertSorts(sorted: seq<Task>, t: Task)
    requires Ordered(sorted) && Distinct(sorted) && forall u :: u in sorted ==> u.id != t.id
    ensures Ordered(Insert(sorted, t)) && Distinct(Insert(sorted, t))
  {
    if sorted != [] && !Newer(t, sorted[0]) {
      InsertSorts(sorted[1..], t);
      InsertMembers(sorted[1..], t);
      FirstStays(sorted[0], Insert(sorted[1..], t));
    }
  }

  lemma FirstStays(first: Task, rest: seq<Task>)
    requires Ordered(rest) && Distinct(rest) && forall u :: u in rest ==> Newer(first, u) && u.id != first.id
    ensures Ordered([first] + rest) && Distinct([first] + rest)
  {
  }

  lemma {:induction false} SortSorts(tasks: seq<Task>)
    requires Distinct(tasks)
    ensures Ordered(Sort(tasks)) && Distinct(Sort(tasks)) && multiset(Sort(tasks)) == multiset(tasks)
    ensures forall u :: u in Sort(tasks) <==> u in tasks
  {
    if tasks != [] {
      assert tasks == [tasks[0]] + tasks[1..];
      SortSorts(tasks[1..]);
      InsertMembers(Sort(tasks[1..]), tasks[0]);
      InsertSorts(Sort(tasks[1..]), tasks[0]);
    }
  }

  lemma {:induction false} FilteredMembers(rows: seq<Task>, filter: Filter)
    requires Distinct(rows)
    ensures Distinct(Filtered(rows, filter))
    ensures forall t :: t in Filtered(rows, filter) <==> t in rows && Passes(t, filter)
  {
    if rows != [] {
      var n := |rows| - 1;
      assert rows == rows[..n] + [rows[n]];
      FilteredMembers(rows[..n], filter);
      forall t | t in Filtered(rows[..n], filter) ensures t.id != rows[n].id {
      }
    }
  }

  /** The listing shows every matching task exactly once, newest first. */
  lemma ListingIsSortedMatches(rows: seq<Task>, filter: Filter)
    requires Distinct(rows)
    ensures Ordered(Listing(rows, filter)) && Distinct(Listing(rows, filter))
    ensures forall t :: t in Listing(rows, filter) <==> t in rows && Passes(t, filter)
  {
    FilteredMembers(rows, filter);
    SortSorts(Filtered(rows, filter));
  }

  // ----- following the tokens -----

  /** Where the page after a token starts. */
  function Start(tasks: seq<Task>, token: Option<Name>): (n: nat)
    ensures n <= |tasks|
  {
    if token.Some? then IndexOf(tasks, token.value) else 0
  }

  /** No token, or the id of a listed task. */
  predicate Valid(tasks: seq<Task>, token: Option<Name>) {
    token.Some? ==> Start(tasks, token) < |tasks|
  }

  /** All pages from a token on, one after the other. */
  function FollowPages(tasks: seq<Task>, token: Option<Name>, pageSize: nat): seq<Task>
    requires Distinct(tasks) && Valid(tasks, token)
    decreases |tasks| - Start(tasks, token), if token.Some? then 0 else 1
  {
    var page := PageOf(tasks, token, pageSize).value;
    if page.next.None? then page.tasks
    else
      NextTokenAdvances(tasks, token, pageSize);
      page.tasks + FollowPages(tasks, page.next, pageSize)
  }

  lemma {:induction false} IndexOfDistinct(tasks: seq<Task>, i: nat)
    requires Distinct(tasks) && i < |tasks|
    ensures IndexOf(tasks, tasks[i].id) == i
  {
    var n := IndexOf(tasks, tasks[i].id);
    assert n < |tasks| && tasks[n].id == tasks[i].id;
  }

  /** The next token points right behind the page, which is not empty. */
  lemma NextTokenAdvances(tasks: seq<Task>, token: Option<Name>, pageSize: nat)
    requires Distinct(tasks) && Valid(tasks, token)
    ensures PageOf(tasks, token, pageSize).Success?
    ensures var start, page := Start(tasks, token), PageOf(tasks, token, pageSize).value;
            && start + |page.tasks| <= |tasks| && page.tasks == tasks[start..start + |page.tasks|]
            && (page.next.None? <==> start + |page.tasks| == |tasks|)
            && (page.next.Some? ==> |page.tasks| > 0 && Valid(tasks, page.next)
                                    && Start(tasks, page.next) == start + |page.tasks|)
  {
    var start, page := Start(tasks, token), PageOf(tasks, token, pageSize).value;
    if start + |page.tasks| < |tasks| {
      IndexOfDistinct(tasks, start + |page.tasks|);
    }
  }

  lemma {:induction false} PagesFrom(tasks: seq<Task>, token: Option<Name>, pageSize: nat)
    requires Distinct(tasks) && Valid(tasks, token)
    ensures FollowPages(tasks, token, pageSize) == tasks[Start(tasks, token)..]
    decreases |tasks| - Start(tasks, token), if token.Some? then 0 else 1
  {
    NextTokenAdvances(tasks, token, pageSize);
    var page := PageOf(tasks, token, pageSize).value;
    if page.next.Some? {
      PagesFrom(tasks, page.next, pageSize);
      Cut(tasks, Start(tasks, token), Start(tasks, page.next));
    } else {
      assert tasks[Start(tasks, token)..] == page.tasks;
    }
  }

  lemma Cut(tasks: seq<Task>, i: nat, j: nat)
    requires i <= j <= |tasks|
    ensures tasks[i..] == tasks[i..j] + tasks[j..]
  {
  }

  /** Following the tokens from the start yields the whole sorted listing, for every page size and filter. */
  lemma PaginationIsComplete(rows: seq<Task>, filter: Filter, pageSize: nat)
    requires Distinct(rows)
    ensures Distinct(Listing(rows, filter)) && Ordered(Listing(rows, filter))
    ensures FollowPages(Listing(rows, filter), None, pageSize) == Listing(rows, filter)
    ensures forall t :: t in FollowPages(Listing(rows, filter), None, pageSize) <==> t in rows && Passes(t, filter)
  {
    ListingIsSortedMatches(rows, filter);
    PagesFrom(Listing(rows, filter), None, pageSize);
    assert Listing(rows, filter)[0..] == Listing(rows, filter);
  }

  /** A negative size either fails at once or leads to a token whose empty page points to itself forever. */
  lemma NegativeSizeNeverCompletes(tasks: seq<Task>, pageSize: int)
    requires Distinct(tasks) && pageSize < 0
    ensures PageOf(tasks, None, pageSize).Failure? <==> |tasks| < -pageSize
    ensures PageOf(tasks, None, pageSize).Success? ==>
              var next := PageOf(tasks, None, pageSize).value.next;
              next.Some? && PageOf(tasks, next, pageSize) == Success(Page([], |tasks|, next))
  {
    if -pageSize <= |tasks| {
      var cut := |tasks| + pageSize;
      assert tasks[0..] == tasks;
      assert IndexOf(tasks, tasks[cut].id) == cut;
    }
  }

  // ----- the rows of one owner -----

  ghost predicate Enumerates(keys: seq<Key>, rows: seq<Task>, tasks: map<Key, Task>, agent: Name, owner: Name) {
    && |keys| == |rows|
    && (forall i :: 0 <= i < |keys| ==> keys[i] in tasks && rows[i] == tasks[keys[i]]
                                        && keys[i].agent == agent && keys[i].owner == owner)
    && (forall i, j :: 0 <= i < j < |keys| ==> keys[i] != keys[j])
    && (forall k :: k in tasks && k.agent == agent && k.owner == owner ==> k in keys)
  }

  ghost predicate Lists(rows: seq<Task>, tasks: map<Key, Task>, agent: Name, owner: Name) {
    exists keys :: Enumerates(keys, rows, tasks, agent, owner)
  }

  /** Stored tasks sit under their own id. */
  ghost predicate WellKeyed(tasks: map<Key, Task>) {
    forall k :: k in tasks ==> tasks[k].id == k.id
  }

  ghost predicate StoredFor(tasks: map<Key, Task>, agent: Name, owner: Name, t: Task) {
    exists k :: k in tasks && k.agent == agent && k.owner == owner && tasks[k] == t
  }

  lemma RowsAreDistinct(rows: seq<Task>, tasks: map<Key, Task>, agent: Name, owner: Name)
    requires Lists(rows, tasks, agent, owner) && WellKeyed(tasks)
    ensures Distinct(rows) && forall t :: t in rows <==> StoredFor(tasks, agent, owner, t)
  {
    var keys :| Enumerates(keys, rows, tasks, agent, owner);
    forall i, j | 0 <= i < j < |rows| ensures rows[i].id != rows[j].id {
      assert keys[i] != keys[j];
    }
    forall t | t in rows ensures StoredFor(tasks, agent, owner, t) {
      var i :| 0 <= i < |rows| && rows[i] == t;
      assert tasks[keys[i]] == t;
    }
    forall t | StoredFor(tasks, agent, owner, t) ensures t in rows {
      var k :| k in tasks && k.agent == agent && k.owner == owner && tasks[k] == t;
      var i :| 0 <= i < |keys| && keys[i] == k;
      assert rows[i] == t;
    }
  }

  // ----- one listing of the stored tasks, whatever order the rows come in -----

  /** An ordered list is determined by its elements. */
  lemma {:induction false} OrderedIsUnique(a: seq<Task>, b: seq<Task>)
    requires Ordered(a) && Distinct(a) && Ordered(b) && Distinct(b)
    requires forall t :: t in a <==> t in b
    ensures a == b
  {
    FirstIsMember(a);
    FirstIsMember(b);
    if a != [] {
      SameFirst(a, b);
      forall t ensures t in a[1..] <==> t in b[1..] {
        TailMembers(a, t);
        TailMembers(b, t);
      }
      OrderedIsUnique(a[1..], b[1..]);
      assert a == [a[0]] + a[1..] && b == [b[0]] + b[1..];
    }
  }

  lemma FirstIsMember(a: seq<Task>)
    ensures a == [] || a[0] in a
  {
  }

  lemma SameFirst(a: seq<Task>, b: seq<Task>)
    requires Ordered(a) && Ordered(b) && a != [] && b != [] && a[0] in b && b[0] in a
    ensures a[0] == b[0]
  {
    var i :| 0 <= i < |b| && b[i] == a[0];
    var j :| 0 <= j < |a| && a[j] == b[0];
    assert i > 0 ==> Newer(b[0], b[i]);
    assert j > 0 ==> Newer(a[0], a[j]);
  }

  lemma TailMembers(a: seq<Task>, t: Task)
    requires Distinct(a) && a != []
    ensures t in a[1..] <==> t in a && t != a[0]
  {
    if t in a[1..] {
      var i :| 0 <= i < |a[1..]| && a[1..][i] == t;
      assert a[i + 1] == t && a[0].id != a[i + 1].id;
    }
  }

  /** Two readings of the same table, in whatever order, list the same tasks in the same order. */
  lemma ListingIsUnique(
    first: seq<Task>, second: seq<Task>, tasks: map<Key, Task>, agent: Name, owner: Name, filter: Filter)
    requires Lists(first, tasks, agent, owner) && Lists(second, tasks, agent, owner) && WellKeyed(tasks)
    ensures Listing(first, filter) == Listing(second, filter)
  {
    RowsAreDistinct(first, tasks, agent, owner);
    RowsAreDistinct(second, tasks, agent, owner);
    ListingIsSortedMatches(first, filter);
    ListingIsSortedMatches(second, filter);
    OrderedIsUnique(Listing(first, filter), Listing(second, filter));
  }

  /** What one call may answer: a page of the listing of some reading of the table. */
  ghost predicate Answers(
    tasks: map<Key, Task>, agent: Name, owner: Name, filter: Filter, token: Option<Name>, pageSize: int,
    r: Result<Page, ListError>)
  {
    exists rows :: Lists(rows, tasks, agent, owner) && r == PageOf(Listing(rows, filter), token, pageSize)
  }

  /** Pages that a client collects from a token on: each call reads the table again. */
  ghost predicate Collects(
    tasks: map<Key, Task>, agent: Name, owner: Name, filter: Filter, token: Option<Name>, pageSize: int, pages: seq<Page>)
    decreases |pages|
  {
    && pages != [] && Answers(tasks, agent, owner, filter, token, pageSize, Success(pages[0]))
    && if pages[0].next.None? then |pages| == 1
       else Collects(tasks, agent, owner, filter, pages[0].next, pageSize, pages[1..])
  }

  function Concat(pages: seq<Page>): seq<Task> {
    if pages == [] then [] else pages[0].tasks + Concat(pages[1..])
  }

  /** Pages cut one after the other from one listing. */
  ghost predicate Chained(all: seq<Task>, token: Option<Name>, pageSize: nat, pages: seq<Page>)
    decreases |pages|
  {
    && pages != [] && PageOf(all, token, pageSize) == Success(pages[0])
    && if pages[0].next.None? then |pages| == 1 else Chained(all, pages[0].next, pageSize, pages[1..])
  }

  lemma {:induction false} CollectsChain(
    tasks: map<Key, Task>, agent: Name, owner: Name, filter: Filter, token: Option<Name>, pageSize: nat, pages: seq<Page>,
    rows: seq<Task>)
    requires WellKeyed(tasks) && Lists(rows, tasks, agent, owner)
    requires Collects(tasks, agent, owner, filter, token, pageSize, pages)
    ensures Chained(Listing(rows, filter), token, pageSize, pages)
    decreases |pages|
  {
    var mine :| Lists(mine, tasks, agent, owner) && Success(pages[0]) == PageOf(Listing(mine, filter), token, pageSize);
    ListingIsUnique(mine, rows, tasks, agent, owner, filter);
    if pages[0].next.Some? {
      CollectsChain(tasks, agent, owner, filter, pages[0].next, pageSize, pages[1..], rows);
    }
  }

  lemma {:induction false} ChainCovers(all: seq<Task>, token: Option<Name>, pageSize: nat, pages: seq<Page>)
    requires Distinct(all) && Valid(all, token) && Chained(all, token, pageSize, pages)
    ensures Concat(pages) == all[Start(all, token)..] && |pages| <= |all| - Start(all, token) + 1
    decreases |pages|
  {
    NextTokenAdvances(all, token, pageSize);
    if pages[0].next.None? {
      assert pages[1..] == [];
      assert all[Start(all, token)..] == pages[0].tasks;
    } else {
      ChainCovers(all, pages[0].next, pageSize, pages[1..]);
      Cut(all, Start(all, token), Start(all, pages[0].next));
    }
  }

  /**
    Pagination is complete over the stored table: however each call enumerates it, the pages a client collects from
    the start are the matching stored tasks of the owner, each exactly once, newest first, and there are at most as
    many pages as tasks and one.
   */
  lemma StoredPaginationIsComplete(
    tasks: map<Key, Task>, agent: Name, owner: Name, filter: Filter, pageSize: nat, pages: seq<Page>, rows: seq<Task>)
    requires WellKeyed(tasks) && Lists(rows, tasks, agent, owner)
    requires Collects(tasks, agent, owner, filter, None, pageSize, pages)
    ensures Ordered(Concat(pages)) && Distinct(Concat(pages)) && |pages| <= |Concat(pages)| + 1
    ensures forall t :: t in Concat(pages) <==> StoredFor(tasks, agent, owner, t) && Passes(t, filter)
  {
    RowsAreDistinct(rows, tasks, agent, owner);
    ListingIsSortedMatches(rows, filter);
    CollectsChain(tasks, agent, owner, filter, None, pageSize, pages, rows);
    ChainCovers(Listing(rows, filter), None, pageSize, pages);
    assert Listing(rows, filter)[0..] == Listing(rows, filter);
  }
}
