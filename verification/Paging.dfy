/** Listing records, at once or page by page along `next_cursor`. */
module Paging {
  import opened Common
  import opened Ordering
  import opened Records

  /** A stored record of any kind: the two fields that a list can filter on, empty when absent, and its text. */
  datatype Record = Record(sessionId: string, taskId: string, value: string)

  type Table = map<Id, Record>

  datatype Filter = Filter(session: Option<string>, task: Option<string>)

  const Everything := Filter(None, None)

  datatype Entry = Entry(id: Id, record: Record)

  datatype ListRequest = ListRequest(filter: Filter, after: Option<Id>, limit: Option<int>)

  datatype Listing = Items(items: seq<Entry>, next: Option<Id>) | Rejected

  predicate Matches(record: Record, f: Filter) {
    && (f.session.Some? ==> record.sessionId == f.session.value)
    && (f.task.Some? ==> record.taskId == f.task.value)
  }

  predicate Selected(table: Table, f: Filter, after: Option<Id>, id: Id) {
    id in table && Matches(table[id], f) && (after.Some? ==> Less(after.value, id))
  }

  /** The ids of the matching records behind the cursor, in the order of the query. */
  ghost function Above(table: Table, f: Filter, after: Option<Id>): (ids: seq<Id>)
    ensures Increasing(ids)
    ensures forall id :: id in ids <==> Selected(table, f, after, id)
  {
    Ascending(set id | id in table && Selected(table, f, after, id))
  }

  predicate Stored(table: Table, ids: seq<Id>) {
    forall id | id in ids :: id in table
  }

  function Entries(table: Table, ids: seq<Id>): (entries: seq<Entry>)
    requires Stored(table, ids)
    ensures |entries| == |ids|
    ensures forall i | 0 <= i < |ids| :: entries[i] == Entry(ids[i], table[ids[i]])
  {
    seq(|ids|, i requires 0 <= i < |ids| => Entry(ids[i], table[ids[i]]))
  }

  lemma StoredParts(table: Table, ids: seq<Id>, k: nat)
    requires Stored(table, ids) && k <= |ids|
    ensures Stored(table, ids[..k]) && Stored(table, ids[k..])
    ensures Entries(table, ids[..k]) == Entries(table, ids)[..k]
    ensures Entries(table, ids) == Entries(table, ids[..k]) + Entries(table, ids[k..])
  {
    StoredSlices(table, ids, k);
    assert ids == ids[..k] + ids[k..];
  }

  lemma StoredSlices(table: Table, ids: seq<Id>, k: nat)
    requires Stored(table, ids) && k <= |ids|
    ensures Stored(table, ids[..k]) && Stored(table, ids[k..])
  {
    assert forall id | id in ids[..k] :: id in ids;
    assert forall id | id in ids[k..] :: id in ids;
  }

  lemma StoredExtend(table: Table, ids: seq<Id>, id: Id)
    requires Stored(table, ids) && id in table
    ensures Stored(table, ids + [id])
    ensures Entries(table, ids + [id]) == Entries(table, ids) + [Entry(id, table[id])]
  {
  }

  ghost function PageOf(table: Table, f: Filter, after: Id, limit: nat): Listing
    requires limit > 0
  {
    var ids := Above(table, f, Some(after));
    if |ids| <= limit then Items(Entries(table, ids), None)
    else
      StoredParts(table, ids, limit);
      Items(Entries(table, ids[..limit]), Some(ids[limit - 1]))
  }

  /** Without a cursor and a limit only executions are filtered; a page is filtered for every kind. */
  ghost function PlainList(table: Table, execution: bool, f: Filter): seq<Entry> {
    Entries(table, Above(table, if execution then f else Everything, None))
  }

  ghost function Listed(table: Table, execution: bool, req: ListRequest): Listing {
    if req.after.None? && req.limit.None? then Items(PlainList(table, execution, req.filter), None)
    else if !(1 <= req.limit.GetOr(100) <= 500) then Rejected
    else PageOf(table, req.filter, req.after.GetOr(""), req.limit.GetOr(100))
  }

  // ---- The loops that build a list

  /** What is left of a list of ids when only the selected ones are kept. */
  function Kept(table: Table, ids: seq<Id>, f: Filter, after: Option<Id>): seq<Id> {
    if ids == [] then []
    else
      var n := |ids| - 1;
      Kept(table, ids[..n], f, after) + if Selected(table, f, after, ids[n]) then [ids[n]] else []
  }

  lemma {:induction false} KeptMembers(table: Table, ids: seq<Id>, f: Filter, after: Option<Id>)
    ensures forall id :: id in Kept(table, ids, f, after) <==> id in ids && Selected(table, f, after, id)
  {
    if ids != [] {
      var n := |ids| - 1;
      KeptMembers(table, ids[..n], f, after);
      assert ids == ids[..n] + [ids[n]];
    }
  }

  lemma {:induction false} IncreasingUnique(a: seq<Id>, b: seq<Id>)
    requires Increasing(a) && Increasing(b)
    requires forall id :: id in a <==> id in b
    ensures a == b
  {
    if a == [] || b == [] {
      NoMembers(a);
      NoMembers(b);
    } else {
      assert a[0] in b && b[0] in a;
      LessTotal(a[0], b[0]);
      forall id ensures id in a[1..] <==> id in b[1..] {
        TailMembers(a, id);
        TailMembers(b, id);
      }
      IncreasingUnique(a[1..], b[1..]);
      assert a == [a[0]] + a[1..] && b == [b[0]] + b[1..];
    }
  }

  lemma NoMembers(a: seq<Id>)
    ensures (forall id :: id !in a) <==> a == []
  {
    if a != [] {
      assert a[0] in a;
    }
  }

  lemma TailMembers(a: seq<Id>, id: Id)
    requires Increasing(a) && a != []
    ensures id in a[1..] <==> id in a && id != a[0]
  {
    assert a == [a[0]] + a[1..];
    if id in a[1..] {
      var k :| 0 <= k < |a[1..]| && a[1..][k] == id;
      assert Less(a[0], a[k + 1]);
      LessTotal(a[0], id);
    }
  }

  lemma {:induction false} KeptIncreases(table: Table, ids: seq<Id>, f: Filter, after: Option<Id>)
    requires Increasing(ids)
    ensures Increasing(Kept(table, ids, f, after))
  {
    if ids != [] {
      var n := |ids| - 1;
      KeptIncreases(table, ids[..n], f, after);
      KeptMembers(table, ids[..n], f, after);
      var kept := Kept(table, ids[..n], f, after);
      forall i | 0 <= i < |kept| ensures Less(kept[i], ids[n]) {
        assert kept[i] in ids[..n];
        var k :| 0 <= k < n && ids[..n][k] == kept[i];
      }
    }
  }

  /** Filtering the ordered list is the same as ordering the filtered records. */
  lemma KeptIsAbove(table: Table, listed: seq<Id>, f: Filter, after: Option<Id>)
    requires listed == Ascending(table.Keys)
    ensures Kept(table, listed, f, after) == Above(table, f, after)
  {
    KeptMembers(table, listed, f, after);
    KeptIncreases(table, listed, f, after);
    IncreasingUnique(Kept(table, listed, f, after), Above(table, f, after));
  }

  lemma KeptNext(table: Table, ids: seq<Id>, i: nat, f: Filter, after: Option<Id>)
    requires i < |ids|
    ensures Kept(table, ids[..i + 1], f, after)
         == Kept(table, ids[..i], f, after) + if Selected(table, f, after, ids[i]) then [ids[i]] else []
  {
    assert ids[..i + 1][..i] == ids[..i];
  }

  lemma RowsEnough(table: Table, listed: seq<Id>, i: nat, f: Filter, after: Option<Id>, count: nat)
    requires i <= |listed| && |Kept(table, listed[..i], f, after)| <= count
    requires i == |listed| || |Kept(table, listed[..i], f, after)| == count
    ensures var all := Kept(table, listed, f, after); Kept(table, listed[..i], f, after) == all[..Min(count, |all|)]
  {
    KeptPrefix(table, listed, i, f, after);
    assert i == |listed| ==> listed[..i] == listed;
  }

  /** The query of a page: the first `count` selected records of the ordered list. */
  method SelectRows(table: Table, listed: seq<Id>, f: Filter, after: Id, count: nat) returns (rows: seq<Id>)
    ensures var all := Kept(table, listed, f, Some(after)); rows == all[..Min(count, |all|)]
  {
    rows := [];
    var i := 0;
    while i < |listed| && |rows| < count
      invariant i <= |listed| && |rows| <= count
      invariant rows == Kept(table, listed[..i], f, Some(after))
    {
      KeptNext(table, listed, i, f, Some(after));
      if Selected(table, f, Some(after), listed[i]) {
        rows := rows + [listed[i]];
      }
      i := i + 1;
    }
    RowsEnough(table, listed, i, f, Some(after), count);
  }

  lemma {:induction false} KeptPrefix(table: Table, ids: seq<Id>, i: nat, f: Filter, after: Option<Id>)
    requires i <= |ids|
    ensures Kept(table, ids[..i], f, after) <= Kept(table, ids, f, after)
    decreases |ids|
  {
    if i == |ids| {
      assert ids[..i] == ids;
    } else {
      var n := |ids| - 1;
      KeptPrefix(table, ids[..n], i, f, after);
      assert ids[..n][..i] == ids[..i];
    }
  }

  function AllKept(table: Table, ids: seq<Id>, execution: bool, f: Filter): seq<Id> {
    Kept(table, ids, if execution then f else Everything, None)
  }

  lemma ListNext(table: Table, listed: seq<Id>, execution: bool, f: Filter, i: nat)
    requires i < |listed| && listed[i] in table && Stored(table, AllKept(table, listed[..i], execution, f))
    ensures Stored(table, AllKept(table, listed[..i + 1], execution, f))
    ensures Entries(table, AllKept(table, listed[..i + 1], execution, f))
         == Entries(table, AllKept(table, listed[..i], execution, f))
            + if execution && !Matches(table[listed[i]], f) then [] else [Entry(listed[i], table[listed[i]])]
  {
    KeptNext(table, listed, i, if execution then f else Everything, None);
    StoredExtend(table, AllKept(table, listed[..i], execution, f), listed[i]);
  }

  method ListAll(table: Table, listed: seq<Id>, execution: bool, f: Filter) returns (items: seq<Entry>)
    requires listed == Ascending(table.Keys)
    ensures items == PlainList(table, execution, f)
  {
    items := [];
    for i := 0 to |listed|
      invariant Stored(table, AllKept(table, listed[..i], execution, f))
      invariant items == Entries(table, AllKept(table, listed[..i], execution, f))
    {
      var id := listed[i];
      assert id in listed;
      ListNext(table, listed, execution, f, i);
      if execution && !Matches(table[id], f) {
        continue;
      }
      items := items + [Entry(id, table[id])];
    }
    assert listed[..|listed|] == listed;
    KeptIsAbove(table, listed, if execution then f else Everything, None);
  }

  /** The loop over the rows of the query stops one row after a full page; every row passes the second filter. */
  method TakePage(table: Table, rows: seq<Id>, execution: bool, f: Filter, limit: nat)
    returns (items: seq<Entry>, next: Id, more: bool)
    requires Stored(table, rows) && forall id | id in rows :: Matches(table[id], f)
    ensures Entries(table, rows)[..Min(limit, |rows|)] == items
    ensures more <==> |rows| > limit
    ensures items != [] ==> next == rows[|items| - 1]
  {
    items, next, more := [], "", false;
    var i := 0;
    while i < |rows|
      invariant i <= |rows| && i <= limit && !more
      invariant items == Entries(table, rows)[..i]
      invariant items != [] ==> next == rows[|items| - 1]
    {
      var id := rows[i];
      if |items| == limit {
        more := true;
        break;
      }
      assert id in rows;
      if !execution || Matches(table[id], f) {
        items := items + [Entry(id, table[id])];
        next := id;
      }
      i := i + 1;
    }
  }

  lemma PageFromRows(table: Table, f: Filter, after: Id, limit: nat, rows: seq<Id>)
    requires limit > 0
    requires var ids := Above(table, f, Some(after)); rows == ids[..Min(limit + 1, |ids|)]
    ensures Stored(table, rows) && forall id | id in rows :: Matches(table[id], f)
    ensures PageOf(table, f, after, limit)
         == Items(Entries(table, rows)[..Min(limit, |rows|)], if |rows| > limit then Some(rows[limit - 1]) else None)
  {
    var ids := Above(table, f, Some(after));
    assert forall id | id in rows :: id in ids;
    if |ids| <= limit {
      assert rows == ids;
    } else {
      StoredParts(table, rows, limit);
      assert rows[..limit] == ids[..limit];
    }
  }

  lemma RowsArePage(table: Table, listed: seq<Id>, f: Filter, after: Id, limit: nat, rows: seq<Id>)
    requires listed == Ascending(table.Keys) && limit > 0
    requires var all := Kept(table, listed, f, Some(after)); rows == all[..Min(limit + 1, |all|)]
    ensures Stored(table, rows) && forall id | id in rows :: Matches(table[id], f)
    ensures PageOf(table, f, after, limit)
         == Items(Entries(table, rows)[..Min(limit, |rows|)], if |rows| > limit then Some(rows[limit - 1]) else None)
  {
    KeptIsAbove(table, listed, f, Some(after));
    PageFromRows(table, f, after, limit, rows);
  }

  method ListPage(table: Table, listed: seq<Id>, execution: bool, f: Filter, after: Id, limit: nat)
    returns (page: Listing)
    requires listed == Ascending(table.Keys) && limit > 0
    ensures page == PageOf(table, f, after, limit)
  {
    var rows := SelectRows(table, listed, f, after, limit + 1);
    RowsArePage(table, listed, f, after, limit, rows);
    var items, next, more := TakePage(table, rows, execution, f, limit);
    return Items(items, if more then Some(next) else None);
  }

  method List(table: Table, listed: seq<Id>, execution: bool, req: ListRequest) returns (reply: Listing)
    requires listed == Ascending(table.Keys)
    ensures reply == Listed(table, execution, req)
  {
    if req.limit.None? && req.after.None? {
      var items := ListAll(table, listed, execution, req.filter);
      return Items(items, None);
    }
    var limit := req.limit.GetOr(100);
    if limit < 1 || limit > 500 {
      return Rejected;
    }
    reply := ListPage(table, listed, execution, req.filter, req.after.GetOr(""), limit);
  }

  // ---- Following the cursor

  /** The cursor of a full page leaves exactly the records behind it. */
  lemma AboveNext(table: Table, f: Filter, after: Id, k: nat)
    requires 0 < k <= |Above(table, f, Some(after))|
    ensures var ids := Above(table, f, Some(after)); Above(table, f, Some(ids[k - 1])) == ids[k..]
  {
    var ids := Above(table, f, Some(after));
    var rest := Above(table, f, Some(ids[k - 1]));
    forall id ensures id in rest <==> id in ids[k..] {
      if id in rest {
        assert ids[k - 1] in ids;
        LessTransitive(after, ids[k - 1], id);
        assert id in ids;
        var i :| 0 <= i < |ids| && ids[i] == id;
        LessTotal(ids[k - 1], id);
        assert i >= k;
        assert ids[k..][i - k] == id;
      }
      if id in ids[k..] {
        var i :| 0 <= i < |ids[k..]| && ids[k..][i] == id;
        assert ids[k + i] == id && id in ids;
        assert Less(ids[k - 1], ids[k + i]);
      }
    }
    IncreasingUnique(rest, ids[k..]);
  }

  /** All pages of a table that does not change. */
  ghost function Pages(table: Table, f: Filter, after: Id, limit: nat): seq<Entry>
    requires limit > 0
    decreases |Above(table, f, Some(after))|
  {
    var page := PageOf(table, f, after, limit);
    match page.next
    case None => page.items
    case Some(next) =>
      AboveNext(table, f, after, limit);
      page.items + Pages(table, f, next, limit)
  }

  lemma PagesStep(table: Table, f: Filter, after: Id, limit: nat)
    requires limit > 0 && |Above(table, f, Some(after))| > limit
    ensures var ids := Above(table, f, Some(after));
            && Above(table, f, Some(ids[limit - 1])) == ids[limit..]
            && Entries(table, ids) == PageOf(table, f, after, limit).items + Entries(table, ids[limit..])
            && Pages(table, f, after, limit)
               == PageOf(table, f, after, limit).items + Pages(table, f, ids[limit - 1], limit)
  {
    AboveNext(table, f, after, limit);
    StoredParts(table, Above(table, f, Some(after)), limit);
  }

  lemma {:induction false} PagesConcatenate(table: Table, f: Filter, after: Id, limit: nat)
    requires limit > 0
    ensures Pages(table, f, after, limit) == Entries(table, Above(table, f, Some(after)))
    decreases |Above(table, f, Some(after))|
  {
    var ids := Above(table, f, Some(after));
    if |ids| > limit {
      PagesStep(table, f, after, limit);
      PagesConcatenate(table, f, ids[limit - 1], limit);
    }
  }

  /** The one id that no page can return is the empty one, because pages start behind it. */
  predicate PagesMissNothing(table: Table, execution: bool, f: Filter) {
    if execution then "" in table ==> !Matches(table[""], f)
    else "" !in table && forall id | id in table :: Matches(table[id], f)
  }

  lemma BehindEmpty(id: Id)
    ensures Less("", id) <==> id != ""
  {
  }

  /** The pages give the plain list exactly when the filter means the same to both and no matching id is empty. */
  lemma PagesArePlainListExactly(table: Table, execution: bool, f: Filter, limit: nat)
    requires limit > 0
    ensures Pages(table, f, "", limit) == PlainList(table, execution, f) <==> PagesMissNothing(table, execution, f)
  {
    PagesConcatenate(table, f, "", limit);
    var paged := Above(table, f, Some(""));
    var plain := Above(table, if execution then f else Everything, None);
    if PagesMissNothing(table, execution, f) {
      forall id ensures id in paged <==> id in plain {
        BehindEmpty(id);
      }
      IncreasingUnique(paged, plain);
    } else {
      var id := MissedId(table, execution, f);
      if Entries(table, paged) == Entries(table, plain) {
        SameIds(table, paged, plain);
        assert false;
      }
    }
  }

  lemma MissedId(table: Table, execution: bool, f: Filter) returns (id: Id)
    requires !PagesMissNothing(table, execution, f)
    ensures id !in Above(table, f, Some("")) && id in Above(table, if execution then f else Everything, None)
  {
    BehindEmpty("");
    if "" in table && (!execution || Matches(table[""], f)) {
      id := "";
    } else {
      id :| id in table && !Matches(table[id], f);
    }
  }

  const OneRecord: Table := map["r" := Record("", "t", "")]

  /** For other kinds than executions a filter hides from the pages what the plain list shows. */
  lemma PagesCanMissRecords(limit: nat)
    requires limit > 0
    ensures Pages(OneRecord, Filter(Some("s"), None), "", limit) == []
    ensures PlainList(OneRecord, false, Filter(Some("s"), None)) == [Entry("r", Record("", "t", ""))]
  {
    var f := Filter(Some("s"), None);
    PagesConcatenate(OneRecord, f, "", limit);
    NoMembers(Above(OneRecord, f, Some("")));
    var plain := Above(OneRecord, Everything, None);
    assert Selected(OneRecord, Everything, None, "r");
    assert Increasing(["r"]);
    IncreasingUnique(plain, ["r"]);
  }

  lemma SameIds(table: Table, a: seq<Id>, b: seq<Id>)
    requires (forall id | id in a :: id in table) && (forall id | id in b :: id in table)
    requires Entries(table, a) == Entries(table, b)
    ensures a == b
  {
    assert |a| == |b|;
    forall i | 0 <= i < |a| ensures a[i] == b[i] {
      assert Entries(table, a)[i] == Entries(table, b)[i];
    }
  }

  /** What a filter shows: the records that are of the session and of the task that it names, if it names them. */
  predicate Asked(record: Record, session: Option<string>, task: Option<string>) {
    (session.None? || record.sessionId == session.value) && (task.None? || record.taskId == task.value)
  }

  /** The pages hold exactly the records of the session and task asked for; of executions so does the plain list. */
  lemma FiltersShowExactly(table: Table, session: Option<string>, task: Option<string>, limit: nat, e: Entry)
    requires limit > 0
    ensures e in PlainList(table, true, Filter(session, task)) <==>
              e.id in table && e.record == table[e.id] && Asked(e.record, session, task)
    ensures e in Pages(table, Filter(session, task), "", limit) <==>
              e.id in table && e.record == table[e.id] && Asked(e.record, session, task) && e.id != ""
  {
    var f := Filter(session, task);
    PagesConcatenate(table, f, "", limit);
    BehindEmpty(e.id);
    EntriesHold(table, Above(table, f, None), e);
    EntriesHold(table, Above(table, f, Some("")), e);
  }

  lemma EntriesHold(table: Table, ids: seq<Id>, e: Entry)
    requires Stored(table, ids)
    ensures e in Entries(table, ids) <==> e.id in ids && e.record == table[e.id]
  {
    if e.id in ids && e.record == table[e.id] {
      var i :| 0 <= i < |ids| && ids[i] == e.id;
      assert Entries(table, ids)[i] == e;
    }
  }

  /** A list is refused exactly for a limit out of bounds; a page without a limit has at most a hundred records. */
  lemma LimitsExactly(table: Table, execution: bool, req: ListRequest)
    ensures var listing := Listed(table, execution, req);
            && (listing.Rejected? <==> req.limit.Some? && (req.limit.value < 1 || 500 < req.limit.value))
            && (listing.Items? && req.limit.Some? ==> |listing.items| <= req.limit.value)
            && (req.limit.None? && req.after.Some? ==>
                  && |listing.items| <= 100
                  && (listing.next.Some? ==> |listing.items| == 100))
            && (req.limit.None? && req.after.None? ==> listing.next.None?)
  {
  }

  // ---- Records change between pages

  /** What a reader collects when page `k` is read from `tables[k]`; it may stop before the last page. */
  datatype Crawled = Crawled(items: seq<Entry>, cursor: Id, finished: bool)

  ghost function Crawl(tables: seq<Table>, f: Filter, after: Id, limit: nat): Crawled
    requires limit > 0
  {
    if tables == [] then Crawled([], after, false)
    else
      var page := PageOf(tables[0], f, after, limit);
      match page.next
      case None => Crawled(page.items, after, true)
      case Some(next) =>
        var rest := Crawl(tables[1..], f, next, limit);
        rest.(items := page.items + rest.items)
  }

  ghost predicate Throughout(tables: seq<Table>, f: Filter, id: Id) {
    forall k | 0 <= k < |tables| :: id in tables[k] && Matches(tables[k][id], f)
  }

  /** The reader has passed the id. */
  ghost predicate Passed(crawled: Crawled, id: Id) {
    crawled.finished || !Less(crawled.cursor, id)
  }

  predicate HasId(items: seq<Entry>, id: Id) {
    exists e | e in items :: e.id == id
  }

  ghost predicate IdsIncrease(items: seq<Entry>) {
    forall i, j | 0 <= i < j < |items| :: Less(items[i].id, items[j].id)
  }

  /** The ids lie behind `after` and, if there is a cursor, not behind that. */
  ghost predicate Within(items: seq<Entry>, after: Id, next: Option<Id>) {
    forall e | e in items :: Less(after, e.id) && (next.Some? ==> e.id == next.value || Less(e.id, next.value))
  }

  ghost predicate ReadFrom(tables: seq<Table>, f: Filter, e: Entry) {
    exists k | 0 <= k < |tables| :: IsRow(tables[k], f, e)
  }

  predicate IsRow(table: Table, f: Filter, e: Entry) {
    e.id in table && table[e.id] == e.record && Matches(e.record, f)
  }

  lemma PageRow(table: Table, f: Filter, after: Id, limit: nat, i: nat)
    requires limit > 0 && i < |PageOf(table, f, after, limit).items|
    ensures var ids, e := Above(table, f, Some(after)), PageOf(table, f, after, limit).items[i];
            i < |ids| && e.id == ids[i] && IsRow(table, f, e) && Less(after, e.id)
  {
    var ids := Above(table, f, Some(after));
    assert ids[i] in ids;
  }

  lemma PageIncreases(table: Table, f: Filter, after: Id, limit: nat)
    requires limit > 0
    ensures var page := PageOf(table, f, after, limit);
            && IdsIncrease(page.items) && Within(page.items, after, page.next)
            && (page.next.Some? ==> Less(after, page.next.value))
            && forall e | e in page.items :: IsRow(table, f, e)
  {
    var ids := Above(table, f, Some(after));
    var page := PageOf(table, f, after, limit);
    forall i | 0 <= i < |page.items|
      ensures i < |ids| && page.items[i].id == ids[i] && IsRow(table, f, page.items[i]) && Less(after, ids[i])
    {
      PageRow(table, f, after, limit, i);
    }
    if page.next.Some? {
      assert ids[limit - 1] in ids;
    }
  }

  lemma PageCovers(table: Table, f: Filter, after: Id, limit: nat, id: Id)
    requires limit > 0 && Selected(table, f, Some(after), id)
    ensures var page := PageOf(table, f, after, limit);
            HasId(page.items, id) || (page.next.Some? && Less(page.next.value, id))
  {
    var ids := Above(table, f, Some(after));
    var page := PageOf(table, f, after, limit);
    assert id in ids;
    var i :| 0 <= i < |ids| && ids[i] == id;
    if i < |page.items| {
      assert page.items[i].id == id && page.items[i] in page.items;
    } else {
      assert Less(ids[limit - 1], ids[i]);
    }
  }

  lemma JoinIncreasing(a: seq<Entry>, b: seq<Entry>, after: Id, next: Id)
    requires IdsIncrease(a) && IdsIncrease(b)
    requires Within(a, after, Some(next)) && Within(b, next, None) && Less(after, next)
    ensures IdsIncrease(a + b) && Within(a + b, after, None)
  {
    forall e | e in b ensures Less(after, e.id) {
      LessTransitive(after, next, e.id);
    }
    forall i, j | 0 <= i < |a| <= j < |a + b| ensures Less((a + b)[i].id, (a + b)[j].id) {
      assert a[i] in a && b[j - |a|] in b;
      if a[i].id != next {
        LessTransitive(a[i].id, next, b[j - |a|].id);
      }
    }
  }

  /** Whatever happens to the records between pages, ids come in increasing order, so none comes twice. */
  lemma {:induction false} CrawlNeverRepeats(tables: seq<Table>, f: Filter, after: Id, limit: nat)
    requires limit > 0
    ensures var crawled := Crawl(tables, f, after, limit);
            IdsIncrease(crawled.items) && Within(crawled.items, after, None)
  {
    if tables != [] {
      var page := PageOf(tables[0], f, after, limit);
      PageIncreases(tables[0], f, after, limit);
      if page.next.Some? {
        CrawlNeverRepeats(tables[1..], f, page.next.value, limit);
        JoinIncreasing(page.items, Crawl(tables[1..], f, page.next.value, limit).items, after, page.next.value);
      }
    }
  }

  /** What is returned was stored and matched when its page was read. */
  lemma {:induction false} CrawlReturnsStored(tables: seq<Table>, f: Filter, after: Id, limit: nat, e: Entry)
    requires limit > 0 && e in Crawl(tables, f, after, limit).items
    ensures ReadFrom(tables, f, e)
  {
    var page := PageOf(tables[0], f, after, limit);
    PageIncreases(tables[0], f, after, limit);
    if e in page.items {
      assert IsRow(tables[0], f, e);
    } else {
      CrawlReturnsStored(tables[1..], f, page.next.value, limit, e);
      var k :| 0 <= k < |tables[1..]| && IsRow(tables[1..][k], f, e);
      assert IsRow(tables[k + 1], f, e);
    }
  }

  /** A record that is stored and matches throughout is returned, once the reader has passed its id. */
  lemma {:induction false} CrawlMissesNothing(tables: seq<Table>, f: Filter, after: Id, limit: nat, id: Id)
    requires limit > 0 && Less(after, id) && Throughout(tables, f, id)
    requires Passed(Crawl(tables, f, after, limit), id)
    ensures HasId(Crawl(tables, f, after, limit).items, id)
  {
    if tables != [] {
      var page := PageOf(tables[0], f, after, limit);
      PageCovers(tables[0], f, after, limit, id);
      if HasId(page.items, id) {
        var e :| e in page.items && e.id == id;
        assert e in Crawl(tables, f, after, limit).items;
      } else {
        CrawlMissesNothing(tables[1..], f, page.next.value, limit, id);
        var e :| e in Crawl(tables[1..], f, page.next.value, limit).items && e.id == id;
        assert e in Crawl(tables, f, after, limit).items;
      }
    }
  }
}
