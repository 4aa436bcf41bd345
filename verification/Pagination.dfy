/** Keyset pagination of cases (ListCases, and next_cursor of the List handler). */
module Pagination {
  import opened Timestamps
  import opened Domain
  import TextOrder

  type Cases = map<Id, EstateCase>

  /** An empty claimant, an absent status and an empty cursor filter nothing. */
  datatype CaseFilter = CaseFilter(claimant: Id, status: Option<CaseStatus>, limit: int)

  /** Service.List narrows a claimant's filter to the claimant's own cases. */
  function FilterFor(actor: Principal, f: CaseFilter): CaseFilter {
    if actor.role == Claimant then f.(claimant := actor.userId) else f
  }

  function Clamped(limit: int): (n: nat)
    ensures 1 <= n <= 100
  {
    if limit < 1 || limit > 100 then 25 else limit
  }

  predicate Matches(item: EstateCase, f: CaseFilter) {
    (f.claimant == "" || item.claimant == f.claimant) && (f.status == None || Some(item.status) == f.status)
  }

  function Matching(cases: Cases, f: CaseFilter): set<Id> {
    set id | id in cases && Matches(cases[id], f)
  }

  predicate Past(cursor: Id, id: Id) { cursor == "" || TextOrder.Less(cursor, id) }

  /** The rows the WHERE clause leaves. */
  function Candidates(cases: Cases, f: CaseFilter, cursor: Id): set<Id> {
    set id | id in Matching(cases, f) && Past(cursor, id)
  }

  function Page(cases: Cases, f: CaseFilter, cursor: Id): seq<Id> {
    var rows := TextOrder.Sorted(Candidates(cases, f, cursor));
    if |rows| <= Clamped(f.limit) then rows else rows[..Clamped(f.limit)]
  }

  function NextCursor(page: seq<Id>): Id { if page == [] then "" else page[|page| - 1] }

  /** What a client collects that follows next_cursor until an empty page; its
      i-th request finds the table in the state `tables[i]`. */
  function Traverse(tables: seq<Cases>, f: CaseFilter, cursor: Id): seq<Id>
    decreases |tables|
  {
    if tables == [] || Page(tables[0], f, cursor) == [] then []
    else
      var page := Page(tables[0], f, cursor);
      page + Traverse(tables[1..], f, NextCursor(page))
  }

  /** The client has seen its empty page. */
  predicate Finished(tables: seq<Cases>, f: CaseFilter, cursor: Id)
    decreases |tables|
  {
    tables != [] && (Page(tables[0], f, cursor) == [] || Finished(tables[1..], f, NextCursor(Page(tables[0], f, cursor))))
  }

  /** Generated ids are never empty. */
  ghost predicate IdsGenerated(tables: seq<Cases>) {
    forall i | 0 <= i < |tables| :: "" !in tables[i]
  }

  // ---------------------------------------------------------------- one page

  /** A page is ascending and past the cursor; a candidate it leaves out comes
      after all of it. */
  lemma PageIsPrefix(cases: Cases, f: CaseFilter, cursor: Id)
    ensures var page := Page(cases, f, cursor);
            && TextOrder.Ascending(page)
            && (forall id | id in page :: id in Candidates(cases, f, cursor))
            && (forall id | id in Candidates(cases, f, cursor) && id !in page ::
                  page != [] && TextOrder.Less(NextCursor(page), id))
  {
    var rows, page := TextOrder.Sorted(Candidates(cases, f, cursor)), Page(cases, f, cursor);
    TextOrder.SortedAscends(Candidates(cases, f, cursor));
    forall k | 0 <= k < |page| ensures rows[k] in page { assert page[k] == rows[k]; }
    forall id | id in Candidates(cases, f, cursor) && id !in page ensures page != [] && TextOrder.Less(NextCursor(page), id) {
      var i :| 0 <= i < |rows| && rows[i] == id;
      assert rows[|page| - 1] == NextCursor(page);
    }
  }

  /** What a caller may see: a claimant the own cases, anybody else those asked
      for by claimant and status, past the cursor. */
  predicate Wanted(id: Id, item: EstateCase, actor: Principal, f: CaseFilter, cursor: Id) {
    && (if actor.role == Claimant then item.claimant == actor.userId else f.claimant == "" || item.claimant == f.claimant)
    && (f.status.Some? ==> item.status == f.status.value)
    && (cursor == "" || TextOrder.Less(cursor, id))
  }

  lemma PageSize(cases: Cases, f: CaseFilter, cursor: Id)
    ensures var n := |Candidates(cases, f, cursor)|;
            |Page(cases, f, cursor)| == if n <= Clamped(f.limit) then n else Clamped(f.limit)
  {}

  lemma WantedAreCandidates(cases: Cases, actor: Principal, f: CaseFilter, cursor: Id)
    requires actor.userId != ""
    ensures Candidates(cases, FilterFor(actor, f), cursor) == set id | id in cases && Wanted(id, cases[id], actor, f, cursor)
  {}

  lemma LeftOutComesAfter(page: seq<Id>, id: Id)
    requires TextOrder.Ascending(page) && page != [] && TextOrder.Less(NextCursor(page), id)
    ensures forall x | x in page :: TextOrder.Less(x, id)
  {
    forall x | x in page ensures TextOrder.Less(x, id) {
      var i :| 0 <= i < |page| && page[i] == x;
      if i < |page| - 1 { TextOrder.Transitive(x, NextCursor(page), id); }
    }
  }

  /** A page is the least wanted ids in ascending order, as many as asked for if
      that is between 1 and 100, and else 25. */
  lemma PageAnswered(cases: Cases, actor: Principal, f: CaseFilter, cursor: Id)
    requires actor.userId != ""
    ensures var page := Page(cases, FilterFor(actor, f), cursor); var n := if 1 <= f.limit <= 100 then f.limit else 25;
            var wanted := set id | id in cases && Wanted(id, cases[id], actor, f, cursor);
            && |page| == (if |wanted| <= n then |wanted| else n)
            && (forall i, j | 0 <= i < j < |page| :: TextOrder.Less(page[i], page[j]))
            && (forall id | id in page :: id in wanted)
            && (forall id, x | id in wanted && id !in page && x in page :: TextOrder.Less(x, id))
  {
    hide Page, Candidates, Wanted;
    var g, page := FilterFor(actor, f), Page(cases, FilterFor(actor, f), cursor);
    WantedAreCandidates(cases, actor, f, cursor);
    PageIsPrefix(cases, g, cursor);
    PageSize(cases, g, cursor);
    forall id, x | id in Candidates(cases, g, cursor) && id !in page && x in page ensures TextOrder.Less(x, id) {
      LeftOutComesAfter(page, id);
    }
  }

  lemma PageCursor(tables: seq<Cases>, f: CaseFilter, cursor: Id)
    requires IdsGenerated(tables) && tables != [] && Page(tables[0], f, cursor) != []
    ensures NextCursor(Page(tables[0], f, cursor)) != "" && Past(cursor, NextCursor(Page(tables[0], f, cursor)))
    ensures IdsGenerated(tables[1..])
  {
    PageIsPrefix(tables[0], f, cursor);
    assert NextCursor(Page(tables[0], f, cursor)) in Candidates(tables[0], f, cursor);
  }

  // -------------------------------------------------------------- traversals

  lemma AscendingJoin(r: seq<string>, t: seq<string>, m: string)
    requires TextOrder.Ascending(r) && TextOrder.Ascending(t) && r != [] && m == r[|r| - 1]
    requires forall x | x in t :: TextOrder.Less(m, x)
    ensures TextOrder.Ascending(r + t)
  {
    var all := r + t;
    forall i, j | 0 <= i < j < |all| ensures TextOrder.Less(all[i], all[j]) {
      if i < |r| && j >= |r| {
        assert all[j] in t;
        if i < |r| - 1 { TextOrder.Transitive(r[i], m, all[j]); }
      }
    }
  }

  /** No id is returned twice, whatever happens between the requests, and only
      ids that matched when their page was read. */
  lemma {:induction false} NothingTwice(tables: seq<Cases>, f: CaseFilter, cursor: Id)
    requires IdsGenerated(tables)
    ensures TextOrder.Ascending(Traverse(tables, f, cursor))
    ensures forall id | id in Traverse(tables, f, cursor) ::
              Past(cursor, id) && exists i :: 0 <= i < |tables| && id in Matching(tables[i], f)
    decreases |tables|
  {
    hide Page, Matching;
    if tables != [] && Page(tables[0], f, cursor) != [] {
      var page := Page(tables[0], f, cursor);
      var rest := Traverse(tables[1..], f, NextCursor(page));
      PageIsPrefix(tables[0], f, cursor);
      PageCursor(tables, f, cursor);
      NothingTwice(tables[1..], f, NextCursor(page));
      AscendingJoin(page, rest, NextCursor(page));
      forall id | id in page + rest ensures Past(cursor, id) && exists i :: 0 <= i < |tables| && id in Matching(tables[i], f) {
        if id in page {
          assert id in Matching(tables[0], f);
        } else {
          var i :| 0 <= i < |tables[1..]| && id in Matching(tables[1..][i], f);
          assert tables[i + 1] == tables[1..][i];
          if cursor != "" { TextOrder.Transitive(cursor, NextCursor(page), id); }
        }
      }
    }
  }

  /** Nothing that matched throughout a finished traversal is missed. */
  lemma {:induction false} NothingMissed(tables: seq<Cases>, f: CaseFilter, cursor: Id, id: Id)
    requires IdsGenerated(tables) && Finished(tables, f, cursor) && Past(cursor, id)
    requires forall i | 0 <= i < |tables| :: id in Matching(tables[i], f)
    ensures id in Traverse(tables, f, cursor)
    decreases |tables|
  {
    hide Page, Matching;
    PageIsPrefix(tables[0], f, cursor);
    assert id in Candidates(tables[0], f, cursor);
    var page := Page(tables[0], f, cursor);
    if id !in page {
      PageCursor(tables, f, cursor);
      NothingMissed(tables[1..], f, NextCursor(page), id);
    }
  }

  /** Inserts and updates between the requests do not hurt: every case present
      and matching throughout a finished traversal is returned exactly once, and
      no case twice. */
  lemma ConcurrentTraversal(tables: seq<Cases>, f: CaseFilter)
    requires IdsGenerated(tables) && Finished(tables, f, "")
    ensures var r := Traverse(tables, f, "");
            && (forall i, j | 0 <= i < j < |r| :: r[i] != r[j])
            && (forall id | forall i | 0 <= i < |tables| :: id in Matching(tables[i], f) :: id in r)
            && (forall id | id in r :: exists i :: 0 <= i < |tables| && id in Matching(tables[i], f))
  {
    hide Traverse, Matching, Finished;
    var r := Traverse(tables, f, "");
    NothingTwice(tables, f, "");
    forall i, j | 0 <= i < j < |r| ensures r[i] != r[j] { TextOrder.Irreflexive(r[i]); }
    forall id | forall i | 0 <= i < |tables| :: id in Matching(tables[i], f) ensures id in r { NothingMissed(tables, f, "", id); }
  }

  /** A claimant's traversal never shows anybody else's case. */
  lemma ClaimantsSeeTheirOwn(tables: seq<Cases>, actor: Principal, f: CaseFilter)
    requires IdsGenerated(tables) && actor.role == Claimant && actor.userId != ""
    ensures forall id | id in Traverse(tables, FilterFor(actor, f), "") ::
              exists i :: 0 <= i < |tables| && id in tables[i] && tables[i][id].claimant == actor.userId
  {
    hide Traverse;
    NothingTwice(tables, FilterFor(actor, f), "");
    forall id | id in Traverse(tables, FilterFor(actor, f), "")
      ensures exists i :: 0 <= i < |tables| && id in tables[i] && tables[i][id].claimant == actor.userId
    {
      var i :| 0 <= i < |tables| && id in Matching(tables[i], FilterFor(actor, f));
      assert id in tables[i] && tables[i][id].claimant == actor.userId;
    }
  }

  // ------------------------------------------------------------ static store

  function Unchanging(cases: Cases, requests: nat): seq<Cases> { seq(requests, i => cases) }

  lemma NotPastLast(page: seq<Id>, id: Id)
    requires TextOrder.Ascending(page) && id in page
    ensures !TextOrder.Less(NextCursor(page), id)
  {
    var last := page[|page| - 1];
    if id == last { TextOrder.Irreflexive(id); } else { TextOrder.Asymmetric(id, last); }
  }

  lemma LaterIsUnseen(cases: Cases, f: CaseFilter, cursor: Id, page: seq<Id>, id: Id)
    requires TextOrder.Ascending(page) && page != [] && NextCursor(page) != "" && Past(cursor, NextCursor(page))
    requires id in Candidates(cases, f, cursor) && id !in page ==> TextOrder.Less(NextCursor(page), id)
    ensures id in Candidates(cases, f, NextCursor(page)) <==> id in Candidates(cases, f, cursor) && id !in page
  {
    hide Matching;
    if id in Candidates(cases, f, NextCursor(page)) {
      if cursor != "" { TextOrder.Transitive(cursor, NextCursor(page), id); }
      if id in page { NotPastLast(page, id); }
    }
  }

  /** The candidates are the page and what comes after it. */
  lemma PageSplits(cases: Cases, f: CaseFilter, cursor: Id)
    requires "" !in cases && Page(cases, f, cursor) != []
    ensures var page := Page(cases, f, cursor);
            var now, later, shown := Candidates(cases, f, cursor), Candidates(cases, f, NextCursor(page)), set id | id in page;
            now == later + shown && later !! shown && TextOrder.Ascending(page)
  {
    var page := Page(cases, f, cursor);
    PageIsPrefix(cases, f, cursor);
    PageCursor([cases], f, cursor);
    hide Page, Matching;
    forall id ensures id in Candidates(cases, f, NextCursor(page)) <==> id in Candidates(cases, f, cursor) && id !in page {
      LaterIsUnseen(cases, f, cursor, page, id);
    }
  }

  lemma {:induction false} AscendingCount(r: seq<string>)
    requires TextOrder.Ascending(r)
    ensures |set x | x in r| == |r|
    decreases |r|
  {
    if r != [] {
      var m, rest := r[|r| - 1], r[..|r| - 1];
      AscendingCount(rest);
      TextOrder.Irreflexive(m);
      assert (set x | x in r) == (set x | x in rest) + {m} by { assert r == rest + [m]; }
    }
  }

  lemma AfterPage(cases: Cases, f: CaseFilter, cursor: Id)
    requires "" !in cases && Page(cases, f, cursor) != []
    ensures var page := Page(cases, f, cursor);
            |Candidates(cases, f, NextCursor(page))| == |Candidates(cases, f, cursor)| - |page|
  {
    hide Page, Candidates;
    var page := Page(cases, f, cursor);
    PageSplits(cases, f, cursor);
    AscendingCount(page);
  }

  /** How many requests a static traversal takes: the pages, and the empty one. */
  function Requests(rows: nat, limit: nat): nat
    requires limit >= 1
  {
    if rows == 0 then 1 else 1 + Requests(if rows <= limit then 0 else rows - limit, limit)
  }

  lemma {:induction false} StaticFinish(cases: Cases, f: CaseFilter, cursor: Id, requests: nat)
    requires "" !in cases
    ensures Finished(Unchanging(cases, requests), f, cursor)
            <==> requests >= Requests(|Candidates(cases, f, cursor)|, Clamped(f.limit))
    decreases requests
  {
    hide Page, Candidates;
    var tables := Unchanging(cases, requests);
    if requests > 0 {
      PageSize(cases, f, cursor);
      var page := Page(cases, f, cursor);
      assert tables[1..] == Unchanging(cases, requests - 1);
      if page != [] {
        AfterPage(cases, f, cursor);
        StaticFinish(cases, f, NextCursor(page), requests - 1);
      }
    }
  }

  /** On a static store the traversal terminates, after exactly that many
      requests, with the sorted matching cases. */
  lemma StaticTraversal(cases: Cases, f: CaseFilter, requests: nat)
    requires "" !in cases
    ensures var tables := Unchanging(cases, requests);
            && (Finished(tables, f, "") <==> requests >= Requests(|Matching(cases, f)|, Clamped(f.limit)))
            && (Finished(tables, f, "") ==> Traverse(tables, f, "") == TextOrder.Sorted(Matching(cases, f)))
  {
    hide Traverse, Finished, Matching, Requests;
    var tables := Unchanging(cases, requests);
    assert Candidates(cases, f, "") == Matching(cases, f);
    StaticFinish(cases, f, "", requests);
    if Finished(tables, f, "") {
      var r, want := Traverse(tables, f, ""), TextOrder.Sorted(Matching(cases, f));
      NothingTwice(tables, f, "");
      TextOrder.SortedAscends(Matching(cases, f));
      forall x ensures x in r <==> x in want {
        if x in Matching(cases, f) { NothingMissed(tables, f, "", x); }
      }
      TextOrder.AscendingUnique(r, want);
    }
  }

  /** All pages but the last are full: one request fewer than the result is the
      least number of pages that hold the rows. */
  lemma {:induction false} RequestCount(rows: nat, limit: nat)
    requires limit >= 1
    ensures var pages := Requests(rows, limit) - 1;
            rows <= pages * limit && (rows > 0 ==> (pages - 1) * limit < rows)
    decreases rows
  {
    if rows > 0 {
      var rest := if rows <= limit then 0 else rows - limit;
      RequestCount(rest, limit);
      var pages := Requests(rest, limit) - 1;
      assert (pages + 1) * limit == pages * limit + limit;
      assert (pages - 1) * limit == pages * limit - limit;
    }
  }
}
