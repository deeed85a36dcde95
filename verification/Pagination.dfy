/** Listing enquiries (listEnquiries in src/services/enquiry.service.ts): the query in both
    paging modes, compared with the plain filtered list in descending id order. */
module Pagination {
  import opened Schema
  import opened Wrappers

  datatype EnquiryRow = EnquiryRow(propertyId: nat, status: Status, message: string)

  /** The two joined tables, keyed by primary key. */
  datatype Db = Db(rows: map<nat, EnquiryRow>, properties: map<nat, string>)

  /** fk_enquiries_property: every enquiry refers to a property. */
  predicate Valid(db: Db) {
    forall id :: id in db.rows ==> db.rows[id].propertyId in db.properties
  }

  /** listEnquiriesQuerySchema. */
  datatype Params = Params(page: nat, limit: nat, status: Option<Status>, cursor: Option<nat>)

  predicate Accepted(q: Params) {
    q.page >= 1 && 1 <= q.limit <= 100 && (q.cursor.Some? ==> q.cursor.value > 0)
  }

  datatype Clause = StatusIs(status: Status) | IdBelow(cursor: nat)

  datatype Listed = Listed(id: nat, row: EnquiryRow, propertyTitle: string)

  datatype PageInfo =
    | ByCursor(nextCursor: Option<nat>, limit: nat)
    | ByPage(page: nat, limit: nat, total: nat, totalPages: nat)

  // ----------------------------------------------------------------- descending ids

  ghost predicate IsGreatest(s: set<nat>, m: nat) {
    m in s && forall y :: y in s ==> y <= m
  }

  lemma {:induction false} GreatestExists(s: set<nat>) returns (m: nat)
    requires s != {}
    ensures IsGreatest(s, m)
  {
    m :| m in s;
    var t := s - {m};
    assert forall y :: y in s ==> y == m || y in t;
    if t != {} {
      var x := GreatestExists(t);
      assert x in t && x in s;
      if x > m { m := x; }
    }
  }

  function Greatest(s: set<nat>): (m: nat)
    requires s != {}
    ensures m in s && forall y :: y in s ==> y <= m
  {
    assert exists m :: IsGreatest(s, m) by {
      var m := GreatestExists(s);
      assert IsGreatest(s, m);
    }
    var x :| x in s && forall y :: y in s ==> y <= x;
    x
  }

  /** ORDER BY id DESC. */
  function Descending(s: set<nat>): seq<nat> {
    if s == {} then [] else [Greatest(s)] + Descending(s - {Greatest(s)})
  }

  predicate StrictlyDown(ids: seq<nat>) {
    forall i, j :: 0 <= i < j < |ids| ==> ids[i] > ids[j]
  }

  lemma {:induction false} DescendingSpec(s: set<nat>)
    ensures StrictlyDown(Descending(s)) && |Descending(s)| == |s|
    ensures forall x :: x in Descending(s) <==> x in s
  {
    if s != {} {
      var m := Greatest(s);
      var rest := Descending(s - {m});
      DescendingSpec(s - {m});
      assert Descending(s) == [m] + rest;
      forall j | 0 <= j < |rest| ensures rest[j] < m {
        assert rest[j] in rest;
      }
    }
  }

  /** A strictly descending list is known by its members. */
  lemma {:induction false} DescendingUnique(ids: seq<nat>, s: set<nat>)
    requires StrictlyDown(ids) && forall x :: x in ids <==> x in s
    ensures ids == Descending(s)
  {
    if ids == [] {
      assert forall x :: x in s ==> x in ids;
      assert s == {};
    } else {
      assert ids[0] in s;
      var m := Greatest(s);
      assert m in ids;
      assert ids[0] == m;
      forall x ensures x in ids[1..] <==> x in s - {m} {
        if x in ids[1..] { assert x in ids; }
        if x in s - {m} { assert x in ids && x != ids[0]; }
      }
      DescendingUnique(ids[1..], s - {m});
    }
  }

  function Window(ids: seq<nat>, offset: nat, limit: nat): seq<nat> {
    if offset >= |ids| then []
    else if offset + limit >= |ids| then ids[offset..]
    else ids[offset..offset + limit]
  }

  /** How many elements of s are greater than x. */
  function Greater(s: set<nat>, x: nat): set<nat> { set y | y in s && y > x }

  /** The i-th of a descending list has exactly i elements above it. */
  lemma {:induction false} DescendingRank(s: set<nat>, i: nat)
    requires i < |Descending(s)|
    ensures |Greater(s, Descending(s)[i])| == i
  {
    var m := Greatest(s);
    var rest := s - {m};
    assert Descending(s) == [m] + Descending(rest);
    if i == 0 {
      assert Greater(s, m) == {};
    } else {
      hide Descending;
      var x := Descending(rest)[i - 1];
      assert x in Descending(rest);
      DescendingSpec(rest);
      DescendingRank(rest, i - 1);
      GreaterThanLast(s, m, x);
    }
  }

  lemma GreaterThanLast(s: set<nat>, m: nat, x: nat)
    requires m in s && x in s - {m} && forall y :: y in s ==> y <= m
    ensures |Greater(s, x)| == |Greater(s - {m}, x)| + 1
  {
    assert Greater(s, x) == Greater(s - {m}, x) + {m};
  }

  /** A window of a descending list, told by ranks. */
  lemma WindowByRank(s: set<nat>, offset: nat, limit: nat, x: nat)
    ensures x in Window(Descending(s), offset, limit) <==>
              x in s && offset <= |Greater(s, x)| < offset + limit
  {
    var ids, page := Descending(s), Window(Descending(s), offset, limit);
    DescendingSpec(s);
    hide Descending, Greater;
    if x in page {
      var k :| 0 <= k < |page| && page[k] == x;
      assert ids[offset + k] == x && x in ids;
      DescendingRank(s, offset + k);
    }
    if x in s && offset <= |Greater(s, x)| < offset + limit {
      assert x in ids;
      var i :| 0 <= i < |ids| && ids[i] == x;
      DescendingRank(s, i);
      assert page[i - offset] == x;
    }
  }

  lemma WindowDown(s: set<nat>, offset: nat, limit: nat)
    ensures StrictlyDown(Window(Descending(s), offset, limit))
  {
    DescendingSpec(s);
  }

  // -------------------------------------------------------------------- the query

  predicate Meets(db: Db, id: nat, clauses: seq<Clause>)
    requires id in db.rows
  {
    forall i :: 0 <= i < |clauses| ==>
      match clauses[i]
      case StatusIs(st) => db.rows[id].status == st
      case IdBelow(c) => id < c
  }

  /** FROM enquiries e JOIN properties p ON p.id = e.property_id WHERE ... */
  function JoinedRows(db: Db, clauses: seq<Clause>): set<(nat, nat)> {
    set e, p | e in db.rows && p in db.properties && p == db.rows[e].propertyId && Meets(db, e, clauses) :: (e, p)
  }

  function JoinedIds(db: Db, clauses: seq<Clause>): set<nat> {
    set j | j in JoinedRows(db, clauses) :: j.0
  }

  /** The rows that come back, newest first, and the window count each carries. */
  function Query(db: Db, clauses: seq<Clause>, offset: nat, limit: nat): (r: (seq<nat>, nat)) {
    (Window(Descending(JoinedIds(db, clauses)), offset, limit), |JoinedRows(db, clauses)|)
  }

  /** The reference: ids with the wanted status, newest first. */
  function Wanted(db: Db, status: Option<Status>): set<nat> {
    set id | id in db.rows && (status.Some? ==> db.rows[id].status == status.value)
  }

  function FullList(db: Db, status: Option<Status>): seq<nat> { Descending(Wanted(db, status)) }

  function Below(db: Db, status: Option<Status>, cursor: nat): set<nat> {
    set id | id in Wanted(db, status) && id < cursor
  }

  function ClausesOf(status: Option<Status>, cursor: Option<nat>): seq<Clause> {
    (if status.Some? then [StatusIs(status.value)] else []) +
    (if cursor.Some? then [IdBelow(cursor.value)] else [])
  }

  function Selected(db: Db, q: Params): set<nat> {
    if q.cursor.Some? then Below(db, q.status, q.cursor.value) else Wanted(db, q.status)
  }

  /** Under the foreign key the join neither drops nor repeats a row. */
  lemma JoinLossless(db: Db, q: Params)
    requires Valid(db)
    ensures JoinedIds(db, ClausesOf(q.status, q.cursor)) == Selected(db, q)
    ensures |JoinedRows(db, ClausesOf(q.status, q.cursor))| == |Selected(db, q)|
  {
    var clauses := ClausesOf(q.status, q.cursor);
    var pairs, ids := JoinedRows(db, clauses), Selected(db, q);
    forall e | e in db.rows ensures Meets(db, e, clauses) <==> e in ids {
      MeetsClauses(db, e, q);
    }
    forall e | e in ids ensures e in JoinedIds(db, clauses) {
      assert (e, db.rows[e].propertyId) in pairs;
    }
    assert JoinedIds(db, clauses) == ids;
    OnePropertyEach(db, clauses, ids, pairs);
  }

  lemma MeetsClauses(db: Db, e: nat, q: Params)
    requires e in db.rows
    ensures Meets(db, e, ClausesOf(q.status, q.cursor)) <==> e in Selected(db, q)
  {
    var clauses := ClausesOf(q.status, q.cursor);
    if q.status.Some? { assert clauses[0] == StatusIs(q.status.value); }
    if q.cursor.Some? { assert clauses[|clauses| - 1] == IdBelow(q.cursor.value); }
  }

  lemma {:induction false} OnePropertyEach(db: Db, clauses: seq<Clause>, ids: set<nat>, pairs: set<(nat, nat)>)
    requires forall j :: j in pairs ==> j.0 in db.rows && j.1 == db.rows[j.0].propertyId
    requires forall j :: j in pairs ==> j.0 in ids
    requires forall e :: e in ids ==> e in db.rows && (e, db.rows[e].propertyId) in pairs
    ensures |pairs| == |ids|
    decreases ids
  {
    if ids == {} {
      assert pairs == {};
    } else {
      var e :| e in ids;
      var j := (e, db.rows[e].propertyId);
      OnePropertyEach(db, clauses, ids - {e}, pairs - {j});
    }
  }

  // ------------------------------------------------------------------ listEnquiries

  function CeilDiv(n: nat, d: nat): nat
    requires d > 0
  {
    (n + d - 1) / d
  }

  lemma CeilCovers(n: nat, d: nat)
    requires d > 0
    ensures CeilDiv(n, d) * d >= n && (n > 0 ==> (CeilDiv(n, d) - 1) * d < n)
    ensures n == 0 ==> CeilDiv(n, d) == 0
  {
    var c := CeilDiv(n, d);
    assert n + d - 1 == c * d + (n + d - 1) % d;
    assert (c - 1) * d == c * d - d;
  }

  function Title(db: Db, id: nat): string
    requires id in db.rows && db.rows[id].propertyId in db.properties
  {
    db.properties[db.rows[id].propertyId]
  }

  function Ids(data: seq<Listed>): seq<nat> {
    seq(|data|, i requires 0 <= i < |data| => data[i].id)
  }

  function Offset(q: Params): nat {
    if q.cursor.Some? || q.page == 0 then 0 else (q.page - 1) * q.limit
  }

  /** The ids that a request must answer. */
  function PageIds(db: Db, q: Params): seq<nat> {
    Window(Descending(Selected(db, q)), Offset(q), q.limit)
  }

  lemma PageIdsExist(db: Db, q: Params)
    ensures forall i :: 0 <= i < |PageIds(db, q)| ==> PageIds(db, q)[i] in db.rows
  {
    var ids := Descending(Selected(db, q));
    DescendingSpec(Selected(db, q));
    var page := PageIds(db, q);
    forall i | 0 <= i < |page| ensures page[i] in db.rows {
      assert page[i] in ids;
    }
  }

  lemma QueryAnswers(db: Db, q: Params)
    requires Valid(db)
    ensures Query(db, ClausesOf(q.status, q.cursor), Offset(q), q.limit) == (PageIds(db, q), |Selected(db, q)|)
  {
    JoinLossless(db, q);
  }

  /** The one query of the listing. */
  method RunQuery(db: Db, q: Params) returns (ids: seq<nat>, count: nat)
    requires Valid(db) && Accepted(q)
    ensures ids == PageIds(db, q) && count == |Selected(db, q)|
  {
    var clauses: seq<Clause> := [];
    if q.status.Some? { clauses := clauses + [StatusIs(q.status.value)]; }
    if q.cursor.Some? { clauses := clauses + [IdBelow(q.cursor.value)]; }
    assert clauses == ClausesOf(q.status, q.cursor);
    hide Query, Selected, PageIds, ClausesOf;
    QueryAnswers(db, q);
    var offset := if q.cursor.Some? then 0 else (q.page - 1) * q.limit;
    ids, count := Query(db, clauses, offset, q.limit).0, Query(db, clauses, offset, q.limit).1;
  }

  /** Builds the WHERE clauses by pushing, runs the one query, and splits the window count
      off the rows. A page past the end reports a total of 0, because the count rides on
      the rows. */
  method ListEnquiries(db: Db, q: Params) returns (data: seq<Listed>, info: PageInfo)
    requires Valid(db) && Accepted(q)
    ensures Ids(data) == PageIds(db, q)
    ensures StrictlyDown(Ids(data))
    ensures var fits := set y | y in db.rows && (q.status.Some? ==> db.rows[y].status == q.status.value)
                                && (q.cursor.Some? ==> y < q.cursor.value);
            var skip := if q.cursor.Some? then 0 else (q.page - 1) * q.limit;
            forall x :: x in Ids(data) <==> x in fits && skip <= |Greater(fits, x)| < skip + q.limit
    ensures forall d :: d in data ==>
              && d.id in db.rows && d.row == db.rows[d.id]
              && d.row.propertyId in db.properties && d.propertyTitle == db.properties[d.row.propertyId]
              && (d.id, d.row.propertyId) in JoinedRows(db, ClausesOf(q.status, q.cursor))
    ensures q.cursor.Some? ==>
              info == ByCursor(if data == [] then None else Some(data[|data| - 1].id), q.limit)
    ensures q.cursor.None? ==>
              && info.ByPage? && info.page == q.page && info.limit == q.limit
              && info.total == (if data == [] then 0
                                else |set y | y in db.rows && (q.status.Some? ==> db.rows[y].status == q.status.value)|)
              && info.totalPages == CeilDiv(info.total, q.limit) && info.totalPages * q.limit >= info.total
              && (info.totalPages > 0 ==> (info.totalPages - 1) * q.limit < info.total)
  {
    hide Selected, PageIds, CeilDiv, JoinedRows, Greater, ClausesOf, StrictlyDown, Title;
    var ids, count := RunQuery(db, q);
    PageByRank(db, q);
    SelectedPlain(db, q);
    PageJoined(db, q);
    data := WithTitles(db, ids);
    var total := if |data| > 0 then count else 0;
    if q.cursor.Some? {
      info := ByCursor(if |data| > 0 then Some(data[|data| - 1].id) else None, q.limit);
    } else {
      CeilCovers(total, q.limit);
      info := ByPage(q.page, q.limit, total, CeilDiv(total, q.limit));
    }
  }

  /** The joined columns of the rows on a page. */
  method WithTitles(db: Db, ids: seq<nat>) returns (data: seq<Listed>)
    requires Valid(db) && forall x :: x in ids ==> x in db.rows
    ensures Ids(data) == ids && |data| == |ids|
    ensures forall d :: d in data ==>
              && d.id in ids && d.row == db.rows[d.id]
              && d.row.propertyId in db.properties && d.propertyTitle == db.properties[d.row.propertyId]
  {
    data := seq(|ids|, i requires 0 <= i < |ids| => Listed(ids[i], db.rows[ids[i]], Title(db, ids[i])));
    assert Ids(data) == ids;
  }

  lemma SelectedPlain(db: Db, q: Params)
    ensures Selected(db, q) == set y | y in db.rows && (q.status.Some? ==> db.rows[y].status == q.status.value)
                                       && (q.cursor.Some? ==> y < q.cursor.value)
    ensures q.cursor.None? ==>
              Selected(db, q) == set y | y in db.rows && (q.status.Some? ==> db.rows[y].status == q.status.value)
  {}

  lemma PageByRank(db: Db, q: Params)
    ensures StrictlyDown(PageIds(db, q))
    ensures forall x :: x in PageIds(db, q) <==>
              x in Selected(db, q) && Offset(q) <= |Greater(Selected(db, q), x)| < Offset(q) + q.limit
  {
    hide Selected, Descending, Window;
    WindowDown(Selected(db, q), Offset(q), q.limit);
    forall x ensures x in PageIds(db, q) <==>
               x in Selected(db, q) && Offset(q) <= |Greater(Selected(db, q), x)| < Offset(q) + q.limit
    {
      WindowByRank(Selected(db, q), Offset(q), q.limit, x);
    }
  }

  /** Every listed id is joined with the property of its row. */
  lemma PageJoined(db: Db, q: Params)
    requires Valid(db)
    ensures forall x :: x in PageIds(db, q) ==>
              x in db.rows && (x, db.rows[x].propertyId) in JoinedRows(db, ClausesOf(q.status, q.cursor))
  {
    PageIdsExist(db, q);
    PageByRank(db, q);
    forall x | x in PageIds(db, q)
      ensures x in db.rows && (x, db.rows[x].propertyId) in JoinedRows(db, ClausesOf(q.status, q.cursor))
    {
      MeetsClauses(db, x, q);
    }
  }

  // ----------------------------------------------------------- a table that stays put

  function OffsetPage(db: Db, status: Option<Status>, limit: nat, page: nat): seq<nat> {
    PageIds(db, Params(page, limit, status, None))
  }

  function OffsetPages(db: Db, status: Option<Status>, limit: nat, n: nat): seq<nat> {
    if n == 0 then [] else OffsetPages(db, status, limit, n - 1) + OffsetPage(db, status, limit, n)
  }

  lemma {:induction false} OffsetPagesPrefix(db: Db, status: Option<Status>, limit: nat, n: nat)
    requires limit > 0
    ensures OffsetPages(db, status, limit, n) == Window(FullList(db, status), 0, n * limit)
  {
    var full := FullList(db, status);
    if n == 0 {
      assert Window(full, 0, 0) == [];
    } else {
      OffsetPagesPrefix(db, status, limit, n - 1);
      assert (n - 1) * limit + limit == n * limit;
      WindowsJoin(full, (n - 1) * limit, limit);
    }
  }

  lemma WindowsJoin(ids: seq<nat>, n: nat, limit: nat)
    ensures Window(ids, 0, n) + Window(ids, n, limit) == Window(ids, 0, n + limit)
  {}

  /** Pages 1 to totalPages, put together, are the full filtered list. */
  lemma OffsetPagesComplete(db: Db, status: Option<Status>, limit: nat)
    requires limit > 0
    ensures OffsetPages(db, status, limit, CeilDiv(|FullList(db, status)|, limit)) == FullList(db, status)
  {
    var n := |FullList(db, status)|;
    OffsetPagesPrefix(db, status, limit, CeilDiv(n, limit));
    CeilCovers(n, limit);
  }

  /** A page is empty exactly when it lies past totalPages. */
  lemma PageEmptyIff(db: Db, status: Option<Status>, limit: nat, page: nat)
    requires limit > 0 && page >= 1
    ensures OffsetPage(db, status, limit, page) == [] <==> page > CeilDiv(|FullList(db, status)|, limit)
  {
    var n := |FullList(db, status)|;
    var c := CeilDiv(n, limit);
    CeilCovers(n, limit);
    if page > c {
      TimesMonotone(c, page - 1, limit);
    } else {
      TimesMonotone(page - 1, c - 1, limit);
    }
  }

  lemma TimesMonotone(a: nat, b: nat, d: nat)
    requires a <= b
    ensures a * d <= b * d
  {}

  // ------------------------------------------------------------------- cursor walks

  /** One request with a cursor. */
  function CursorPage(db: Db, status: Option<Status>, limit: nat, cursor: nat): seq<nat> {
    PageIds(db, Params(1, limit, status, Some(cursor)))
  }

  lemma CursorPageSpec(db: Db, status: Option<Status>, limit: nat, cursor: nat)
    requires limit > 0
    ensures var page := CursorPage(db, status, limit, cursor);
            && StrictlyDown(page)
            && (forall x :: x in page ==> x in Below(db, status, cursor))
            && (page == [] <==> Below(db, status, cursor) == {})
            && (page != [] ==> forall x :: x in Below(db, status, cursor) && x >= page[|page| - 1] ==> x in page)
            && (forall x :: x in Below(db, status, cursor) && x !in page ==> page != [] && x < page[|page| - 1])
  {
    hide Below, Descending, Window;
    TopSpec(Below(db, status, cursor), limit);
  }

  /** The first `limit` elements of a descending list. */
  lemma TopSpec(s: set<nat>, limit: nat)
    requires limit > 0
    ensures var page := Window(Descending(s), 0, limit);
            && StrictlyDown(page)
            && (forall x :: x in page ==> x in s)
            && (page == [] <==> s == {})
            && (forall x :: x in s && x !in page ==> page != [] && x < page[|page| - 1])
  {
    var ids, page := Descending(s), Window(Descending(s), 0, limit);
    DescendingSpec(s);
    hide Descending;
    assert page == if limit >= |ids| then ids else ids[..limit];
    forall x | x in s && x !in page ensures page != [] && x < page[|page| - 1] {
      assert x in ids;
      var i :| 0 <= i < |ids| && ids[i] == x;
      assert i >= |page|;
    }
  }

  /** A client that follows nextCursor until a page comes back empty, while the table may
      change between requests: request i sees snapshot db(i). */
  function Walk(db: nat -> Db, status: Option<Status>, limit: nat, i: nat, cursor: nat): seq<nat>
    requires limit > 0
    decreases cursor
  {
    var page := CursorPage(db(i), status, limit, cursor);
    if page == [] then []
    else
      CursorPageSpec(db(i), status, limit, cursor);
      assert page[|page| - 1] in page;
      page + Walk(db, status, limit, i + 1, page[|page| - 1])
  }

  /** How many requests the walk makes, the empty last one included. */
  function Requests(db: nat -> Db, status: Option<Status>, limit: nat, i: nat, cursor: nat): nat
    requires limit > 0
    decreases cursor
  {
    var page := CursorPage(db(i), status, limit, cursor);
    if page == [] then 1
    else
      CursorPageSpec(db(i), status, limit, cursor);
      assert page[|page| - 1] in page;
      1 + Requests(db, status, limit, i + 1, page[|page| - 1])
  }

  /** The cursor strictly decreases, so a walk ends within cursor + 1 requests. */
  lemma {:induction false} WalkTerminates(db: nat -> Db, status: Option<Status>, limit: nat, i: nat, cursor: nat)
    requires limit > 0
    ensures Requests(db, status, limit, i, cursor) <= cursor + 1
    decreases cursor
  {
    var page := CursorPage(db(i), status, limit, cursor);
    if page != [] {
      CursorPageSpec(db(i), status, limit, cursor);
      assert page[|page| - 1] in page;
      WalkTerminates(db, status, limit, i + 1, page[|page| - 1]);
    }
  }

  /** No id comes twice, whatever is inserted, committed late or changed meanwhile. */
  lemma {:induction false} WalkNoRepeats(db: nat -> Db, status: Option<Status>, limit: nat, i: nat, cursor: nat)
    requires limit > 0
    ensures StrictlyDown(Walk(db, status, limit, i, cursor))
    ensures forall x :: x in Walk(db, status, limit, i, cursor) ==> x < cursor
    decreases cursor
  {
    var page := CursorPage(db(i), status, limit, cursor);
    if page != [] {
      CursorPageSpec(db(i), status, limit, cursor);
      var last := page[|page| - 1];
      assert last in page;
      var rest := Walk(db, status, limit, i + 1, last);
      WalkNoRepeats(db, status, limit, i + 1, last);
      assert Walk(db, status, limit, i, cursor) == page + rest;
      forall a, b | 0 <= a < b < |page + rest| ensures (page + rest)[a] > (page + rest)[b] {
        if b >= |page| { assert rest[b - |page|] in rest; }
      }
    }
  }

  /** The row is there and matches in every snapshot the walk sees. */
  ghost predicate Throughout(db: nat -> Db, status: Option<Status>, x: nat, i: nat, n: nat) {
    forall j :: i <= j < i + n ==> x in Wanted(db(j), status)
  }

  /** Every row below the starting cursor that is visible and matches throughout is
      returned. */
  lemma {:induction false} WalkComplete(db: nat -> Db, status: Option<Status>, limit: nat, i: nat, cursor: nat, x: nat)
    requires limit > 0 && x < cursor
    requires Throughout(db, status, x, i, Requests(db, status, limit, i, cursor))
    ensures x in Walk(db, status, limit, i, cursor)
    decreases cursor
  {
    var page := CursorPage(db(i), status, limit, cursor);
    CursorPageSpec(db(i), status, limit, cursor);
    assert x in Wanted(db(i), status);
    assert x in Below(db(i), status, cursor);
    if x !in page {
      var last := page[|page| - 1];
      assert last in page;
      var n := Requests(db, status, limit, i + 1, last);
      assert Throughout(db, status, x, i + 1, n);
      WalkComplete(db, status, limit, i + 1, last, x);
    }
  }

  /** Every returned row was visible and matched in the snapshot of its request. */
  lemma {:induction false} WalkSound(db: nat -> Db, status: Option<Status>, limit: nat, i: nat, cursor: nat, x: nat)
    requires limit > 0 && x in Walk(db, status, limit, i, cursor)
    ensures exists j :: i <= j < i + Requests(db, status, limit, i, cursor) && x in Wanted(db(j), status)
    decreases cursor
  {
    var page := CursorPage(db(i), status, limit, cursor);
    CursorPageSpec(db(i), status, limit, cursor);
    if x in page {
      assert x in Below(db(i), status, cursor);
      assert x in Wanted(db(i), status);
    } else {
      var last := page[|page| - 1];
      assert last in page;
      WalkSound(db, status, limit, i + 1, last, x);
    }
  }

  /** On a table that stays put, the walk is the rest of the list in order. */
  lemma WalkFixed(db: Db, status: Option<Status>, limit: nat, cursor: nat)
    requires limit > 0
    ensures Walk((i: nat) => db, status, limit, 0, cursor) == Descending(Below(db, status, cursor))
  {
    var still := (i: nat) => db;
    var w := Walk(still, status, limit, 0, cursor);
    WalkNoRepeats(still, status, limit, 0, cursor);
    forall x ensures x in w <==> x in Below(db, status, cursor) {
      if x in w { WalkSound(still, status, limit, 0, cursor, x); }
      if x in Below(db, status, cursor) { WalkComplete(still, status, limit, 0, cursor, x); }
    }
    DescendingUnique(w, Below(db, status, cursor));
  }

  /** The first offset page followed by the cursor walk from its last id, the offset pages
      put together, and the full filtered list are one and the same. */
  lemma ModesAgree(db: Db, status: Option<Status>, limit: nat)
    requires limit > 0
    ensures var first := OffsetPage(db, status, limit, 1);
            && OffsetPages(db, status, limit, CeilDiv(|FullList(db, status)|, limit)) == FullList(db, status)
            && (first == [] ==> FullList(db, status) == [])
            && (first != [] ==>
                  first + Walk((i: nat) => db, status, limit, 0, first[|first| - 1]) == FullList(db, status))
  {
    OffsetPagesComplete(db, status, limit);
    hide Walk, Below, OffsetPages, FullList, OffsetPage, CeilDiv, Descending;
    var full := FullList(db, status);
    var first := OffsetPage(db, status, limit, 1);
    FirstPage(db, status, limit);
    if first != [] {
      var n := |first|;
      assert full[n - 1] == first[n - 1];
      WalkFixed(db, status, limit, first[n - 1]);
      RestOfList(db, status, n);
      PrefixJoin(first, full);
    }
  }

  lemma PrefixJoin(a: seq<nat>, b: seq<nat>)
    requires a <= b
    ensures a + b[|a|..] == b
  {}

  lemma RestOfList(db: Db, status: Option<Status>, n: nat)
    requires 0 < n <= |FullList(db, status)|
    ensures FullList(db, status)[n..] == Descending(Below(db, status, FullList(db, status)[n - 1]))
  {
    RestIsBelow(Wanted(db, status), n);
    hide Descending;
    var last := FullList(db, status)[n - 1];
    assert (set x | x in Wanted(db, status) && x < last) == Below(db, status, last);
  }

  lemma FirstPage(db: Db, status: Option<Status>, limit: nat)
    requires limit > 0
    ensures OffsetPage(db, status, limit, 1) <= FullList(db, status)
    ensures OffsetPage(db, status, limit, 1) == [] ==> FullList(db, status) == []
  {
    assert 0 * limit == 0;
    assert OffsetPage(db, status, limit, 1) == Window(FullList(db, status), 0, limit);
  }

  /** Behind its first n elements a descending list holds what is below the n-th. */
  lemma RestIsBelow(s: set<nat>, n: nat)
    requires 0 < n <= |Descending(s)|
    ensures Descending(s)[n..] == Descending(set x | x in s && x < Descending(s)[n - 1])
  {
    DescendingSpec(s);
    var full := Descending(s);
    var last, rest := full[n - 1], full[n..];
    hide Descending;
    assert StrictlyDown(rest);
    var below := set x | x in s && x < last;
    forall x ensures x in rest <==> x in below {
      BehindLast(full, n, x);
      assert x in full <==> x in s;
    }
    DescendingUnique(rest, below);
  }

  lemma BehindLast(ids: seq<nat>, n: nat, x: nat)
    requires StrictlyDown(ids) && 0 < n <= |ids|
    ensures x in ids[n..] <==> x in ids && x < ids[n - 1]
  {
    if x in ids[n..] {
      var i :| 0 <= i < |ids[n..]| && ids[n..][i] == x;
      assert ids[n + i] == x;
    }
    if x in ids && x < ids[n - 1] {
      var i :| 0 <= i < |ids| && ids[i] == x;
      assert ids[n..][i - n] == x;
    }
  }

  // --------------------------------------------------- what writers do to the table

  /** A commit of a row with any unused id, or a status update. Rows are never deleted. */
  datatype Change = CommitRow(id: nat, row: EnquiryRow) | SetStatus(id: nat, status: Status)

  function Changed(db: Db, c: Change): Db {
    match c
    case CommitRow(id, row) => if id in db.rows then db else db.(rows := db.rows[id := row])
    case SetStatus(id, st) =>
      if id in db.rows then db.(rows := db.rows[id := db.rows[id].(status := st)]) else db
  }

  function ChangedAll(db: Db, cs: seq<Change>): Db
    decreases |cs|
  {
    if cs == [] then db else ChangedAll(Changed(db, cs[0]), cs[1..])
  }

  /** A row committed before the walk, whose status nobody updates meanwhile, is returned
      exactly once, whatever else is committed or updated between the requests. */
  lemma {:induction false} UntouchedRowListedOnce(db: nat -> Db, changes: nat -> seq<Change>, status: Option<Status>,
                                                  limit: nat, cursor: nat, x: nat)
    requires limit > 0 && x < cursor && x in Wanted(db(0), status)
    requires forall i: nat :: db(i + 1) == ChangedAll(db(i), changes(i))
    requires forall i: nat, c :: c in changes(i) && c.SetStatus? ==> c.id != x
    ensures var w := Walk(db, status, limit, 0, cursor);
            exists i :: 0 <= i < |w| && w[i] == x && forall j :: 0 <= j < |w| && w[j] == x ==> j == i
  {
    var n := Requests(db, status, limit, 0, cursor);
    forall j | 0 <= j < n ensures x in Wanted(db(j), status) { StaysWanted(db, changes, status, x, j); }
    WalkComplete(db, status, limit, 0, cursor, x);
    WalkNoRepeats(db, status, limit, 0, cursor);
  }

  lemma {:induction false} StaysWanted(db: nat -> Db, changes: nat -> seq<Change>, status: Option<Status>,
                                       x: nat, j: nat)
    requires x in Wanted(db(0), status)
    requires forall i: nat :: db(i + 1) == ChangedAll(db(i), changes(i))
    requires forall i: nat, c :: c in changes(i) && c.SetStatus? ==> c.id != x
    ensures x in Wanted(db(j), status)
  {
    if j > 0 {
      StaysWanted(db, changes, status, x, j - 1);
      ChangesKeep(db(j - 1), changes(j - 1), status, x);
      assert db(j - 1 + 1) == ChangedAll(db(j - 1), changes(j - 1));
    }
  }

  lemma {:induction false} ChangesKeep(db: Db, cs: seq<Change>, status: Option<Status>, x: nat)
    requires x in Wanted(db, status) && forall c :: c in cs && c.SetStatus? ==> c.id != x
    ensures x in Wanted(ChangedAll(db, cs), status)
    decreases |cs|
  {
    if cs != [] {
      assert cs[0] in cs;
      ChangesKeep(Changed(db, cs[0]), cs[1..], status, x);
    }
  }
}
