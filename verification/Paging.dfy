/** Listing messages a page at a time (wa-shared/store/messages.go, wa-consumer-api/internal/api/reads.go). */
module Paging {
  import opened Options
  import opened Cursors
  import Jobs

  const DEFAULT_PAGE_LIMIT := 50
  const MAX_PAGE_LIMIT := 200

  /** Row ids are a BIGSERIAL, so they start at 1. */
  type RowId = x: int | 0 < x < 0x8000_0000_0000_0000 witness 1

  /** A stored row with its row id and creation time in nanoseconds. */
  datatype Listed = Listed(id: RowId, createdAt: Int64, row: Jobs.Row)

  /** "" and [] leave a column unconstrained; senders wins over sender. */
  datatype Filter = Filter(
    apiKeyId: string, reference: string, sender: string, senders: seq<string>, to: string,
    statuses: seq<Jobs.Status>, after: Option<Int64>, before: Option<Int64>, limit: int, cursor: Cursor)

  datatype ListError = CrossTenant

  datatype Page = Page(data: seq<Listed>, hasMore: bool, nextCursor: string)

  /** The primary key holds: no two rows share an id. */
  predicate Distinct(table: seq<Listed>) {
    forall i, j | 0 <= i < j < |table| :: table[i].id != table[j].id
  }

  // ---------------------------------------------------------------- the query

  function Key(r: Listed): Cursor {
    Cursor(r.createdAt, r.id)
  }

  /** a is listed before b: newest first, the higher id first within one instant. */
  predicate Before(a: Cursor, b: Cursor) {
    a.createdAt > b.createdAt || (a.createdAt == b.createdAt && a.id > b.id)
  }

  predicate Matches(r: Listed, f: Filter) {
    && r.row.apiKeyId == Some(f.apiKeyId)
    && (f.reference != "" ==> r.row.sourceRef == Some(f.reference) || f.reference in r.row.coalescedRefs)
    && (f.senders != [] ==> r.row.sender.Some? && r.row.sender.value in f.senders)
    && (f.senders == [] && f.sender != "" ==> r.row.sender == Some(f.sender))
    && (f.to != "" ==> r.row.to == f.to)
    && (f.statuses != [] ==> r.row.status in f.statuses)
    && (f.after.Some? ==> r.createdAt >= f.after.value)
    && (f.before.Some? ==> r.createdAt < f.before.value)
  }

  predicate Past(r: Listed, c: Cursor) {
    IsZero(c) || Before(c, Key(r))
  }

  function Where(table: seq<Listed>, f: Filter): seq<Listed> {
    if table == [] then []
    else (if Matches(table[0], f) && Past(table[0], f.cursor) then [table[0]] else []) + Where(table[1..], f)
  }

  function Insert(r: Listed, s: seq<Listed>): seq<Listed> {
    if s == [] || Before(Key(r), Key(s[0])) then [r] + s else [s[0]] + Insert(r, s[1..])
  }

  function OrderBy(rows: seq<Listed>): seq<Listed> {
    if rows == [] then [] else Insert(rows[0], OrderBy(rows[1..]))
  }

  /** Every row the filter selects, newest first, before LIMIT. */
  function Selected(table: seq<Listed>, f: Filter): seq<Listed> {
    OrderBy(Where(table, f))
  }

  function LimitOf(f: Filter): (n: nat)
    ensures 1 <= n <= MAX_PAGE_LIMIT && (1 <= f.limit <= MAX_PAGE_LIMIT ==> n == f.limit)
  {
    if f.limit <= 0 then DEFAULT_PAGE_LIMIT else if f.limit > MAX_PAGE_LIMIT then MAX_PAGE_LIMIT else f.limit
  }

  function Query(table: seq<Listed>, f: Filter, limit: nat): seq<Listed> {
    var rows := Selected(table, f);
    if |rows| <= limit then rows else rows[..limit]
  }

  /** One page, and whether the filter selects more rows than it holds: the query is asked for one
      row more than the page. */
  method ListMessages(table: seq<Listed>, f: Filter) returns (r: Result<(seq<Listed>, bool), ListError>)
    ensures r.Err? <==> f.apiKeyId == ""
    ensures r.Err? ==> r == Err(CrossTenant)
    ensures r.Ok? ==> r.value.0 <= Selected(table, f) && (r.value.1 <==> r.value.0 < Selected(table, f))
    ensures r.Ok? ==> |r.value.0| <= LimitOf(f) && (r.value.1 ==> |r.value.0| == LimitOf(f))
  {
    if f.apiKeyId == "" {
      return Err(CrossTenant);
    }
    var limit := LimitOf(f);
    var result := Query(table, f, limit + 1);
    var out: seq<Listed> := [];
    for i := 0 to |result|
      invariant out == result[..i]
    {
      out := out + [result[i]];
    }
    assert out == result;
    if |out| > limit {
      return Ok((out[..limit], true));
    }
    return Ok((out, false));
  }

  /** What the list endpoint answers. */
  function Served(table: seq<Listed>, f: Filter): Page {
    var rows := Selected(table, f);
    var n := LimitOf(f);
    if |rows| <= n then Page(rows, false, "") else Page(rows[..n], true, EncodeCursor(Key(rows[n - 1])))
  }

  method HandleListMessages(table: seq<Listed>, f: Filter) returns (r: Result<Page, ListError>)
    ensures r == if f.apiKeyId == "" then Err(CrossTenant) else Ok(Served(table, f))
  {
    var listed := ListMessages(table, f);
    if listed.Err? {
      return Err(listed.error);
    }
    var (rows, hasMore) := listed.value;
    assert hasMore ==> |Selected(table, f)| > LimitOf(f) && rows == Selected(table, f)[..LimitOf(f)];
    assert !hasMore ==> rows == Selected(table, f);
    var data: seq<Listed> := [];
    for i := 0 to |rows|
      invariant data == rows[..i]
    {
      data := data + [rows[i]];
    }
    assert data == rows;
    var nextCursor := "";
    if hasMore && |rows| > 0 {
      nextCursor := EncodeCursor(Key(rows[|rows| - 1]));
    }
    return Ok(Page(data, hasMore, nextCursor));
  }

  // ---------------------------------------------------------------- what a query selects

  ghost predicate Descending(s: seq<Listed>) {
    forall i, j | 0 <= i < j < |s| :: Before(Key(s[i]), Key(s[j]))
  }

  lemma {:induction false} WhereIn(table: seq<Listed>, f: Filter, r: Listed)
    ensures r in Where(table, f) <==> r in table && Matches(r, f) && Past(r, f.cursor)
  {
    if table != [] {
      WhereIn(table[1..], f, r);
      assert table == [table[0]] + table[1..];
    }
  }

  lemma {:induction false} WhereDistinct(table: seq<Listed>, f: Filter)
    requires Distinct(table)
    ensures Distinct(Where(table, f))
  {
    if table != [] {
      WhereDistinct(table[1..], f);
      var rest := Where(table[1..], f);
      forall i | 0 <= i < |rest| ensures rest[i].id != table[0].id {
        WhereIn(table[1..], f, rest[i]);
      }
    }
  }

  lemma {:induction false} InsertKeeps(r: Listed, s: seq<Listed>)
    requires Descending(s) && forall i | 0 <= i < |s| :: s[i].id != r.id
    ensures Descending(Insert(r, s)) && multiset(Insert(r, s)) == multiset(s) + multiset{r}
  {
    if s == [] || Before(Key(r), Key(s[0])) {
    } else {
      InsertKeeps(r, s[1..]);
      var rest := Insert(r, s[1..]);
      assert s == [s[0]] + s[1..];
      forall i | 0 <= i < |rest| ensures Before(Key(s[0]), Key(rest[i])) {
        assert rest[i] in multiset(rest);
        assert rest[i] == r || rest[i] in s[1..];
      }
    }
  }

  lemma {:induction false} OrderBySorts(rows: seq<Listed>)
    requires Distinct(rows)
    ensures Descending(OrderBy(rows)) && multiset(OrderBy(rows)) == multiset(rows)
  {
    if rows != [] {
      OrderBySorts(rows[1..]);
      var rest := OrderBy(rows[1..]);
      assert rows == [rows[0]] + rows[1..];
      forall i | 0 <= i < |rest| ensures rest[i].id != rows[0].id {
        assert rest[i] in multiset(rest);
        assert rest[i] in rows[1..];
      }
      InsertKeeps(rows[0], rest);
    }
  }

  /** The rows of the key that match every constraint, each once, newest first. */
  lemma SelectedIsTheMatches(table: seq<Listed>, f: Filter)
    requires Distinct(table)
    ensures Descending(Selected(table, f))
    ensures forall r :: r in Selected(table, f) <==> r in table && Matches(r, f) && Past(r, f.cursor)
  {
    WhereDistinct(table, f);
    OrderBySorts(Where(table, f));
    forall r ensures r in Selected(table, f) <==> r in table && Matches(r, f) && Past(r, f.cursor) {
      WhereIn(table, f, r);
      assert r in Selected(table, f) <==> r in multiset(Selected(table, f));
    }
  }

  /** Which rows are listed, on the rows themselves: the key's own; under the reference, as the message's or as
      one folded into it; from one of the senders, or else from the sender; to the recipient; in one of the
      statuses; created from after up to, but not at, before; and listed later than the cursor, if there is
      one. An empty constraint leaves its column alone. */
  lemma ListedIff(table: seq<Listed>, f: Filter, r: Listed)
    requires Distinct(table)
    ensures r in Selected(table, f) <==>
      r in table && r.row.apiKeyId == Some(f.apiKeyId) &&
      (f.reference == "" || r.row.sourceRef == Some(f.reference) || f.reference in r.row.coalescedRefs) &&
      (if f.senders != [] then exists i :: 0 <= i < |f.senders| && r.row.sender == Some(f.senders[i])
       else f.sender == "" || r.row.sender == Some(f.sender)) &&
      (f.to == "" || r.row.to == f.to) &&
      (f.statuses == [] || exists i :: 0 <= i < |f.statuses| && r.row.status == f.statuses[i]) &&
      (f.after.None? || f.after.value <= r.createdAt) && (f.before.None? || r.createdAt < f.before.value) &&
      (f.cursor.id == 0 || r.createdAt < f.cursor.createdAt ||
       (r.createdAt == f.cursor.createdAt && r.id < f.cursor.id))
  {
    SelectedIsTheMatches(table, f);
  }

  /** The rows of one API key. */
  function OwnRows(table: seq<Listed>, apiKeyId: string): seq<Listed> {
    if table == [] then []
    else (if table[0].row.apiKeyId == Some(apiKeyId) then [table[0]] else []) + OwnRows(table[1..], apiKeyId)
  }

  lemma {:induction false} OwnRowsIn(table: seq<Listed>, apiKeyId: string, r: Listed)
    ensures r in OwnRows(table, apiKeyId) <==> r in table && r.row.apiKeyId == Some(apiKeyId)
  {
    if table != [] {
      OwnRowsIn(table[1..], apiKeyId, r);
      assert table == [table[0]] + table[1..];
    }
  }

  lemma {:induction false} OwnRowsDistinct(table: seq<Listed>, apiKeyId: string)
    requires Distinct(table)
    ensures Distinct(OwnRows(table, apiKeyId))
  {
    if table != [] {
      OwnRowsDistinct(table[1..], apiKeyId);
      var rest := OwnRows(table[1..], apiKeyId);
      forall i | 0 <= i < |rest| ensures rest[i].id != table[0].id {
        OwnRowsIn(table[1..], apiKeyId, rest[i]);
      }
    }
  }

  /** A key sees its own rows and nothing else: what is listed is the same whatever other keys' rows there are. */
  lemma OtherKeysDoNotShow(table: seq<Listed>, f: Filter)
    requires Distinct(table)
    ensures Distinct(OwnRows(table, f.apiKeyId)) && Served(table, f) == Served(OwnRows(table, f.apiKeyId), f)
    ensures forall r | r in Served(table, f).data :: r.row.apiKeyId == Some(f.apiKeyId)
  {
    var own := OwnRows(table, f.apiKeyId);
    OwnRowsDistinct(table, f.apiKeyId);
    SelectedIsTheMatches(table, f);
    SelectedIsTheMatches(own, f);
    forall r ensures r in Selected(table, f) <==> r in Selected(own, f) {
      ListedIff(table, f, r);
      ListedIff(own, f, r);
      OwnRowsIn(table, f.apiKeyId, r);
    }
    SameRowsSameOrder(Selected(table, f), Selected(own, f));
    forall r | r in Served(table, f).data ensures r.row.apiKeyId == Some(f.apiKeyId) {
      assert r in Selected(table, f);
      ListedIff(table, f, r);
    }
  }

  lemma TailOf(s: seq<Listed>, r: Listed)
    requires Descending(s) && s != []
    ensures r in s[1..] <==> r in s && r != s[0]
  {
    assert s == [s[0]] + s[1..];
    forall i | 0 <= i < |s[1..]| ensures s[1..][i] != s[0] {
      assert Before(Key(s[0]), Key(s[i + 1]));
    }
  }

  lemma {:induction false} SameRowsSameOrder(s: seq<Listed>, t: seq<Listed>)
    requires Descending(s) && Descending(t) && forall r :: r in s <==> r in t
    ensures s == t
  {
    assert t == [] || t[0] in t;
    assert s == [] || s[0] in s;
    if s != [] {
      assert s[0] in t && t[0] in s;
      assert s[0] == t[0];
      var u, v := s[1..], t[1..];
      assert s == [s[0]] + u && t == [t[0]] + v;
      forall r ensures r in u <==> r in v {
        TailOf(s, r);
        TailOf(t, r);
      }
      SameRowsSameOrder(u, v);
      assert s == [s[0]] + u && t == [t[0]] + v;
    }
  }

  // ---------------------------------------------------------------- following next_cursor

  lemma CursorContinues(table: seq<Listed>, f: Filter, n: nat)
    requires Distinct(table) && 0 < n <= |Selected(table, f)|
    ensures var rows := Selected(table, f);
      Selected(table, f.(cursor := Key(rows[n - 1]))) == rows[n..]
  {
    var rows := Selected(table, f);
    var g := f.(cursor := Key(rows[n - 1]));
    SelectedIsTheMatches(table, f);
    SelectedIsTheMatches(table, g);
    var rest := rows[n..];
    forall r ensures r in Selected(table, g) <==> r in rest {
      assert Matches(r, f) == Matches(r, g);
      if r in rest {
        var i :| 0 <= i < |rest| && rest[i] == r;
        assert r == rows[n + i] && r in rows;
        assert Past(r, g.cursor);
      }
      if r in Selected(table, g) {
        assert rows[n - 1] in rows;
        assert Past(r, f.cursor);
        var i :| 0 <= i < |rows| && rows[i] == r;
        assert i >= n;
        assert rest[i - n] == r;
      }
    }
    SameRowsSameOrder(Selected(table, g), rest);
  }

  /** The same request with the page's cursor. */
  function Onward(f: Filter, p: Page): Filter
    requires ParseCursor(p.nextCursor).Ok?
  {
    f.(cursor := ParseCursor(p.nextCursor).value)
  }

  lemma SplitAt(table: seq<Listed>, f: Filter, n: nat, c: Cursor)
    requires Distinct(table) && 0 < n < |Selected(table, f)| && c == Key(Selected(table, f)[n - 1])
    ensures Selected(table, f.(cursor := c)) != []
    ensures Selected(table, f) == Selected(table, f)[..n] + Selected(table, f.(cursor := c))
  {
    CursorContinues(table, f, n);
    var rows := Selected(table, f);
    assert rows == rows[..n] + rows[n..];
  }

  lemma OnwardIs(f: Filter, p: Page, c: Cursor)
    requires c.id > 0 && p.nextCursor == EncodeCursor(c)
    ensures p.nextCursor != "" && ParseCursor(p.nextCursor).Ok? && Onward(f, p) == f.(cursor := c)
  {
    CursorRoundTripIff(c);
  }

  lemma NextPage(table: seq<Listed>, f: Filter)
    requires Distinct(table)
    ensures var p := Served(table, f);
      p.hasMore == (p.nextCursor != "") && (!p.hasMore ==> p.data == Selected(table, f) && |p.data| <= LimitOf(f))
    ensures var p := Served(table, f);
      p.hasMore ==> |p.data| == LimitOf(f) && ParseCursor(p.nextCursor).Ok? && Selected(table, Onward(f, p)) != [] &&
                    Selected(table, f) == p.data + Selected(table, Onward(f, p))
  {
    var rows := Selected(table, f);
    var n := LimitOf(f);
    if |rows| > n {
      var c := Key(rows[n - 1]);
      OnwardIs(f, Served(table, f), c);
      SplitAt(table, f, n, c);
    }
  }

  /** The pages a caller sees that keeps sending next_cursor back until there is none. */
  function Follow(table: seq<Listed>, f: Filter): seq<Page>
    requires Distinct(table)
    decreases |Selected(table, f)|
  {
    NextPage(table, f);
    var p := Served(table, f);
    if p.hasMore then [p] + Follow(table, Onward(f, p)) else [p]
  }

  function Joined(pages: seq<Page>): seq<Listed> {
    if pages == [] then [] else pages[0].data + Joined(pages[1..])
  }

  /** Every page but the last is full and says there is more; the last does not, and is not empty
      unless it is the only one. */
  ghost predicate WellPaged(pages: seq<Page>, limit: nat) {
    && pages != []
    && (forall i | 0 <= i < |pages| - 1 :: pages[i].hasMore && |pages[i].data| == limit)
    && var last := pages[|pages| - 1];
    !last.hasMore && |last.data| <= limit && (|pages| > 1 ==> last.data != [])
  }

  lemma JoinedOnto(p: Page, rest: seq<Page>)
    ensures Joined([p] + rest) == p.data + Joined(rest)
  {
    assert ([p] + rest)[1..] == rest;
  }

  lemma {:induction false} PagesJoin(table: seq<Listed>, f: Filter)
    requires Distinct(table)
    ensures Joined(Follow(table, f)) == Selected(table, f)
    decreases |Selected(table, f)|
  {
    var p := Served(table, f);
    NextPage(table, f);
    if p.hasMore {
      PagesJoin(table, Onward(f, p));
      JoinedOnto(p, Follow(table, Onward(f, p)));
    } else {
      JoinedOnto(p, []);
    }
  }

  lemma ShapeStep(p: Page, rest: seq<Page>, limit: nat)
    requires WellPaged(rest, limit) && p.hasMore && |p.data| == limit
    requires |rest| == 1 ==> rest[0].data != []
    ensures WellPaged([p] + rest, limit)
  {
    var pages := [p] + rest;
    assert pages[|pages| - 1] == rest[|rest| - 1];
    forall i | 0 <= i < |pages| - 1 ensures pages[i].hasMore && |pages[i].data| == limit {
      assert i > 0 ==> pages[i] == rest[i - 1];
    }
  }

  lemma {:induction false} PagesFill(table: seq<Listed>, f: Filter)
    requires Distinct(table)
    ensures WellPaged(Follow(table, f), LimitOf(f)) && Follow(table, f)[0] == Served(table, f)
    decreases |Selected(table, f)|
  {
    var p := Served(table, f);
    NextPage(table, f);
    if p.hasMore {
      var g := Onward(f, p);
      PagesFill(table, g);
      NextPage(table, g);
      ShapeStep(p, Follow(table, g), LimitOf(f));
    }
  }

  /** Following next_cursor ends; the pages put together are exactly the matching rows past the cursor
      the caller started from, each row once and newest first. */
  lemma FollowingListsEveryMatchOnce(table: seq<Listed>, f: Filter)
    requires Distinct(table)
    ensures var pages := Follow(table, f);
      Descending(Joined(pages)) && WellPaged(pages, LimitOf(f)) &&
      forall r :: r in Joined(pages) <==> r in table && Matches(r, f) && Past(r, f.cursor)
  {
    PagesJoin(table, f);
    PagesFill(table, f);
    SelectedIsTheMatches(table, f);
  }

  /** A page depends only on the matching rows past its cursor, so messages accepted while a caller is
      following the pages neither push a row onto a second page nor hide one. */
  lemma NewerRowsDoNotDisturb(table: seq<Listed>, later: seq<Listed>, f: Filter)
    requires Distinct(table) && Distinct(later)
    requires forall r | Matches(r, f) && Past(r, f.cursor) :: r in table <==> r in later
    ensures Served(table, f) == Served(later, f)
  {
    SelectedIsTheMatches(table, f);
    SelectedIsTheMatches(later, f);
    SameRowsSameOrder(Selected(table, f), Selected(later, f));
  }

  /** Nor do they show on any page followed from it: the pages are the same with only the key's own rows, and
      every row on them is the key's. */
  lemma {:induction false} FollowedPagesAreOwn(table: seq<Listed>, f: Filter)
    requires Distinct(table)
    ensures Distinct(OwnRows(table, f.apiKeyId)) && Follow(table, f) == Follow(OwnRows(table, f.apiKeyId), f)
    ensures var pages := Follow(table, f);
      forall i, r | 0 <= i < |pages| && r in pages[i].data :: r.row.apiKeyId == Some(f.apiKeyId)
    decreases |Selected(table, f)|
  {
    var own := OwnRows(table, f.apiKeyId);
    OtherKeysDoNotShow(table, f);
    NextPage(table, f);
    NextPage(own, f);
    var p := Served(table, f);
    if p.hasMore {
      var rest := Follow(table, Onward(f, p));
      FollowedPagesAreOwn(table, Onward(f, p));
      assert Follow(table, f) == [p] + rest;
      assert Follow(own, f) == [p] + Follow(own, Onward(f, p));
    }
  }
}
