/**
 * Keyset pagination of the usage list and of the audit list, newest first, and the cursors that link
 * the pages. The audit list fetches one row more than it is asked for and is asked for one row more.
 */
module Paging {
  import opened Text
  import opened Contract

  // ------------------------------------------------------------------ cursors

  datatype Key = Key(createdAt: int, id: int)

  /** Printing and reading timestamps, identifiers and UTF-8. */
  datatype Format = Format(showTime: int -> string, readTime: string -> Option<int>,
                           showId: int -> string, readId: string -> Option<int>,
                           utf8: seq<int> -> Option<string>)

  function Ascii(s: string): seq<int> {
    seq(|s|, i requires 0 <= i < |s| => s[i] as int)
  }

  predicate IsAscii(s: string) {
    forall c <- s :: (c as int) < 128
  }

  /** Values come back as printed, in ASCII; a printed timestamp holds no bar. */
  ghost predicate Lawful(f: Format) {
    && (forall t :: f.readTime(f.showTime(t)) == Some(t) && '|' !in f.showTime(t) && IsAscii(f.showTime(t)))
    && (forall i :: f.readId(f.showId(i)) == Some(i) && IsAscii(f.showId(i)))
    && (forall s :: IsAscii(s) ==> f.utf8(Ascii(s)) == Some(s))
  }

  function HexDigit(n: int): char
    requires 0 <= n < 16
  {
    if n < 10 then '0' + n as char else 'a' + (n - 10) as char
  }

  function HexValue(c: char): Option<int> {
    if '0' <= c <= '9' then Some(c as int - '0' as int)
    else if 'a' <= c <= 'f' then Some(c as int - 'a' as int + 10)
    else if 'A' <= c <= 'F' then Some(c as int - 'A' as int + 10)
    else None
  }

  predicate IsByte(b: int) {
    0 <= b < 256
  }

  function HexEncode(bytes: seq<int>): string
    requires forall b <- bytes :: IsByte(b)
  {
    if bytes == [] then ""
    else
      assert IsByte(bytes[0]);
      [HexDigit(bytes[0] / 16), HexDigit(bytes[0] % 16)] + HexEncode(bytes[1..])
  }

  /** Pairs of digits of either case; an odd length or any other character is an error. */
  function HexDecode(s: string): Option<seq<int>> {
    if s == "" then Some([])
    else if |s| == 1 then None
    else
      var (high, low) := (HexValue(s[0]), HexValue(s[1]));
      match HexDecode(s[2..])
      case None => None
      case Some(rest) => if high.None? || low.None? then None else Some([high.value * 16 + low.value] + rest)
  }

  function Payload(f: Format, key: Key): string {
    f.showTime(key.createdAt) + "|" + f.showId(key.id)
  }

  function EncodeCursor(f: Format, key: Key): string
    requires Lawful(f)
  {
    PayloadIsAscii(f, key);
    HexEncode(Ascii(Payload(f, key)))
  }

  function DecodeCursor(f: Format, cursor: string): Option<Key> {
    match HexDecode(cursor)
    case None => None
    case Some(bytes) =>
      match f.utf8(bytes)
      case None => None
      case Some(text) =>
        match FindChar(text, '|')
        case None => None
        case Some(k) =>
          var (time, id) := (f.readTime(text[..k]), f.readId(text[k + 1..]));
          if time.None? || id.None? then None else Some(Key(time.value, id.value))
  }

  lemma PayloadIsAscii(f: Format, key: Key)
    requires Lawful(f)
    ensures IsAscii(Payload(f, key)) && forall b <- Ascii(Payload(f, key)) :: IsByte(b)
  {
    var payload := Payload(f, key);
    assert IsAscii(f.showTime(key.createdAt)) && IsAscii(f.showId(key.id));
    AsciiIsBytes(payload);
  }

  lemma AsciiIsBytes(s: string)
    requires IsAscii(s)
    ensures forall b <- Ascii(s) :: IsByte(b)
  {
    forall b <- Ascii(s)
      ensures IsByte(b)
    {
      var i :| 0 <= i < |Ascii(s)| && Ascii(s)[i] == b;
      assert s[i] in s;
    }
  }

  lemma HexDigits(n: int)
    requires 0 <= n < 16
    ensures HexValue(HexDigit(n)) == Some(n)
  {
  }

  lemma {:induction false} HexRoundTrip(bytes: seq<int>)
    requires forall b <- bytes :: IsByte(b)
    ensures HexDecode(HexEncode(bytes)) == Some(bytes)
  {
    if bytes != [] {
      hide HexDigit, HexValue;
      assert IsByte(bytes[0]);
      HexDigits(bytes[0] / 16);
      HexDigits(bytes[0] % 16);
      HexRoundTrip(bytes[1..]);
      var s := HexEncode(bytes);
      assert s == [HexDigit(bytes[0] / 16), HexDigit(bytes[0] % 16)] + HexEncode(bytes[1..]);
      assert s[0] == HexDigit(bytes[0] / 16) && s[1] == HexDigit(bytes[0] % 16);
      assert s[2..] == HexEncode(bytes[1..]);
      assert [bytes[0]] + bytes[1..] == bytes;
    }
  }

  /** Decoding an encoded cursor gives back its pair. */
  lemma CursorRoundTrip(f: Format, key: Key)
    requires Lawful(f)
    ensures DecodeCursor(f, EncodeCursor(f, key)) == Some(key)
  {
    hide HexEncode, HexDecode, IsAscii, Ascii;
    PayloadIsAscii(f, key);
    var payload := Payload(f, key);
    HexRoundTrip(Ascii(payload));
    var time := f.showTime(key.createdAt);
    assert f.utf8(Ascii(payload)) == Some(payload);
    FirstBar(time, f.showId(key.id));
  }

  lemma FirstBar(a: string, b: string)
    requires '|' !in a
    ensures FindChar(a + "|" + b, '|') == Some(|a|)
    ensures (a + "|" + b)[..|a|] == a && (a + "|" + b)[|a| + 1..] == b
  {
    var s := a + "|" + b;
    assert s[|a|] == '|';
    var k := FindChar(s, '|');
    assert k.Some? by { assert s[|a|] in s; }
    assert forall i :: 0 <= i < |a| ==> s[i] == a[i] && a[i] in a;
    assert forall i :: 0 <= i < k.value ==> s[i] == s[..k.value][i];
  }

  // ------------------------------------------------------------------ the table, newest first

  datatype Row = Row(key: Key, tenant: Option<int>, actor: Option<int>, action: string)

  predicate Below(a: Key, b: Key) {
    a.createdAt < b.createdAt || (a.createdAt == b.createdAt && a.id < b.id)
  }

  /** The primary key. */
  predicate Keyed(rows: set<Row>) {
    forall r <- rows, s <- rows :: r.key == s.key ==> r == s
  }

  predicate IsTop(r: Row, rows: set<Row>) {
    r in rows && forall s <- rows :: s == r || Below(s.key, r.key)
  }

  lemma {:induction false} TopExists(rows: set<Row>)
    requires rows != {} && Keyed(rows)
    ensures exists r :: IsTop(r, rows)
  {
    var x :| x in rows;
    var rest := rows - {x};
    assert rows == rest + {x};
    if rest == {} {
      assert IsTop(x, rows);
    } else {
      TopExists(rest);
      var y :| IsTop(y, rest);
      assert y.key != x.key;
      assert IsTop(if Below(x.key, y.key) then y else x, rows);
    }
  }

  function Top(rows: set<Row>): (r: Row)
    requires rows != {} && Keyed(rows)
    ensures IsTop(r, rows)
  {
    TopExists(rows);
    var r :| IsTop(r, rows);
    r
  }

  /** `ORDER BY created_at DESC, id DESC`. */
  function Newest(rows: set<Row>): seq<Row>
    requires Keyed(rows)
  {
    if rows == {} then [] else var top := Top(rows); [top] + Newest(rows - {top})
  }

  predicate Falling(list: seq<Row>) {
    forall i, j :: 0 <= i < j < |list| ==> Below(list[j].key, list[i].key)
  }

  ghost predicate Lists(list: seq<Row>, rows: set<Row>) {
    forall r :: r in list <==> r in rows
  }

  lemma {:induction false} NewestIs(rows: set<Row>)
    requires Keyed(rows)
    ensures Falling(Newest(rows)) && Lists(Newest(rows), rows)
  {
    if rows != {} {
      var top := Top(rows);
      NewestIs(rows - {top});
      var rest := Newest(rows - {top});
      FallsFrom(top, rest, rows);
    }
  }

  lemma FallsFrom(top: Row, rest: seq<Row>, rows: set<Row>)
    requires IsTop(top, rows) && Falling(rest) && Lists(rest, rows - {top})
    ensures Falling([top] + rest) && Lists([top] + rest, rows)
  {
    var list := [top] + rest;
    forall i, j | 0 <= i < j < |list|
      ensures Below(list[j].key, list[i].key)
    {
      if i == 0 { assert rest[j - 1] in rest; }
    }
  }

  lemma FallingTail(list: seq<Row>, rows: set<Row>)
    requires list != [] && Falling(list) && Lists(list, rows)
    ensures IsTop(list[0], rows) && Falling(list[1..]) && Lists(list[1..], rows - {list[0]})
  {
    assert list == [list[0]] + list[1..];
    forall s | s in list[1..]
      ensures Below(s.key, list[0].key)
    {
      var i :| 0 <= i < |list[1..]| && list[1..][i] == s;
      assert list[i + 1] == s;
    }
  }

  /** A falling list of exactly these rows is the one the database gives. */
  lemma {:induction false} NewestUnique(list: seq<Row>, rows: set<Row>)
    requires Keyed(rows) && Falling(list) && Lists(list, rows)
    ensures Newest(rows) == list
  {
    if list == [] {
      assert rows == {};
    } else {
      hide Falling, Lists;
      FallingTail(list, rows);
      var top := Top(rows);
      assert top == list[0] by { TopIsOne(top, list[0], rows); }
      NewestUnique(list[1..], rows - {top});
    }
  }

  lemma TopIsOne(a: Row, b: Row, rows: set<Row>)
    requires IsTop(a, rows) && IsTop(b, rows)
    ensures a == b && rows != {}
  {
  }

  /** The rows a cursor leaves. */
  function After(rows: set<Row>, cursor: Option<Key>): (r: set<Row>)
    ensures Keyed(rows) ==> Keyed(r)
  {
    match cursor
    case None => rows
    case Some(key) => set r <- rows | Below(r.key, key)
  }

  lemma RestIsBelow(list: seq<Row>, i: nat, r: Row)
    requires Falling(list) && i < |list| && r in list
    ensures r in list[i + 1..] <==> Below(r.key, list[i].key)
  {
    var j :| 0 <= j < |list| && list[j] == r;
    if j > i { assert list[i + 1..][j - i - 1] == r; }
    if r in list[i + 1..] {
      var h :| 0 <= h < |list[i + 1..]| && list[i + 1..][h] == r;
      assert list[i + 1 + h] == r;
    }
  }

  lemma FallingRest(list: seq<Row>, n: nat)
    requires Falling(list) && n <= |list|
    ensures Falling(list[n..]) && forall r :: r in list[n..] ==> r in list
  {
  }

  /** The rows behind the cursor of a row are the ones that follow it in the list. */
  lemma AfterRow(rows: set<Row>, i: nat)
    requires Keyed(rows) && i < |Newest(rows)|
    ensures Newest(After(rows, Some(Newest(rows)[i].key))) == Newest(rows)[i + 1..]
  {
    hide Newest, Falling, Below, Keyed;
    var list := Newest(rows);
    NewestIs(rows);
    FallingRest(list, i + 1);
    var rest := After(rows, Some(list[i].key));
    forall r
      ensures r in list[i + 1..] <==> r in rest
    {
      if r in list { RestIsBelow(list, i, r); }
    }
    NewestUnique(list[i + 1..], rest);
  }

  // ------------------------------------------------------------------ pages

  datatype Page = Page(data: seq<Row>, nextCursor: Option<string>, hasMore: bool)

  /** The page of a list that starts at position `i`. */
  function PageAt(f: Format, list: seq<Row>, i: nat, limit: nat): Page
    requires Lawful(f) && limit >= 1 && i <= |list|
  {
    if i + limit < |list| then Page(list[i..i + limit], Some(EncodeCursor(f, list[i + limit - 1].key)), true)
    else Page(list[i..], None, false)
  }

  /** `LIMIT n`. */
  function Take(list: seq<Row>, n: nat): seq<Row> {
    if n < |list| then list[..n] else list
  }

  /** The database's answer: filtered, behind the cursor, newest first, at most `n`. */
  function Select(rows: set<Row>, cursor: Option<Key>, n: nat): seq<Row>
    requires Keyed(rows)
  {
    Take(Newest(After(rows, cursor)), n)
  }

  datatype Filter = Filter(tenants: seq<int>, from: Option<int>, upTo: Option<int>, toInclusive: bool,
                           prefixes: Option<seq<string>>, actor: Option<int>)
  {
    predicate Matches(r: Row) {
      && (forall t <- tenants :: r.tenant == Some(t))
      && (from.Some? ==> from.value <= r.key.createdAt)
      && (upTo.Some? ==> if toInclusive then r.key.createdAt <= upTo.value else r.key.createdAt < upTo.value)
      && (prefixes.Some? ==> exists p :: p in prefixes.value && p <= r.action)
      && (actor.Some? ==> r.actor == actor)
    }
  }

  function Matching(table: set<Row>, filter: Filter): (r: set<Row>)
    ensures Keyed(table) ==> Keyed(r)
  {
    set r <- table | filter.Matches(r)
  }

  /** A page and its cursor from one row more than the page shows. */
  function PageOfRows(f: Format, rows: seq<Row>, limit: nat): (page: Page)
    requires Lawful(f) && limit >= 1
    ensures forall list: seq<Row> :: rows == Take(list, limit + 1) ==> page == PageAt(f, list, 0, limit)
  {
    hide EncodeCursor, Lawful;
    var hasMore := |rows| > limit;
    var shown := if hasMore then rows[..limit] else rows;
    Page(shown, if hasMore then Some(EncodeCursor(f, shown[|shown| - 1].key)) else None, hasMore)
  }

  /** The usage list: one row more than the page shows tells whether there is another page. */
  method UsageList(f: Format, table: set<Row>, tenant: int, from: Option<int>, upTo: Option<int>,
                   cursor: Option<string>, limit: nat)
    returns (page: Page)
    requires Keyed(table) && limit >= 1 && Lawful(f)
    ensures var rows := Matching(table, Filter([tenant], from, upTo, false, None, None));
            var start := if cursor.Some? then DecodeCursor(f, cursor.value) else None;
            page == PageAt(f, Newest(After(rows, start)), 0, limit)
  {
    hide Newest, Matching, After, DecodeCursor, PageOfRows, PageAt, Take;
    var decoded := if cursor.Some? then DecodeCursor(f, cursor.value) else None;
    var rows := Select(Matching(table, Filter([tenant], from, upTo, false, None, None)), decoded, limit + 1);
    page := PageOfRows(f, rows, limit);
  }

  /** The audit query takes one row more than its limit and throws it away again. */
  method ListEntries(table: set<Row>, filter: Filter, cursor: Option<Key>, limit: nat) returns (rows: seq<Row>)
    requires Keyed(table)
    ensures rows == Select(Matching(table, filter), cursor, limit)
  {
    hide Newest, Matching, After;
    rows := Select(Matching(table, filter), cursor, limit + 1);
    rows := if |rows| > limit then rows[..limit] else rows;
  }

  datatype AuditAnswer = Shown(page: Page) | Unprocessable

  function Clamp(n: int): (r: nat)
    ensures 1 <= r <= 100 && (1 <= n <= 100 ==> r == n)
  {
    if n < 1 then 1 else if n > 100 then 100 else n
  }

  /** The audit list: the handler asks for one row more than the page, and a bad cursor is refused. */
  method AuditList(f: Format, table: set<Row>, filter: Filter, cursor: Option<string>, limit: Option<int>)
    returns (answer: AuditAnswer)
    requires Keyed(table) && Lawful(f)
    ensures answer.Unprocessable? <==> cursor.Some? && DecodeCursor(f, cursor.value).None?
    ensures answer.Shown? ==>
      var start := if cursor.Some? then DecodeCursor(f, cursor.value) else None;
      answer.page ==
        PageAt(f, Newest(After(Matching(table, filter), start)), 0, Clamp(if limit.Some? then limit.value else 50))
  {
    hide Newest, Matching, After, DecodeCursor, PageAt, PageOfRows;
    var shown := Clamp(if limit.Some? then limit.value else 50);
    var start: Option<Key> := None;
    if cursor.Some? {
      start := DecodeCursor(f, cursor.value);
      if start.None? { return Unprocessable; }
    }
    var rows := ListEntries(table, filter, start, shown + 1);
    return Shown(PageOfRows(f, rows, shown));
  }

  // ------------------------------------------------------------------ following the cursors

  /** Page `k` was asked for with the cursor of the one before it, the first with none. */
  ghost predicate Linked(f: Format, rows: set<Row>, limit: nat, pages: seq<Page>, k: nat)
    requires Keyed(rows) && limit >= 1 && k < |pages|
  {
    if k == 0 then FirstPage(f, rows, None, limit, pages[0])
    else
      && pages[k - 1].nextCursor.Some?
      && FirstPage(f, rows, DecodeCursor(f, pages[k - 1].nextCursor.value), limit, pages[k])
  }

  /** What either list answers to a cursor. */
  ghost predicate FirstPage(f: Format, rows: set<Row>, cursor: Option<Key>, limit: nat, page: Page)
    requires Keyed(rows) && limit >= 1
  {
    Lawful(f) && page == PageAt(f, Newest(After(rows, cursor)), 0, limit)
  }

  ghost predicate Chain(f: Format, rows: set<Row>, limit: nat, pages: seq<Page>)
    requires Keyed(rows) && limit >= 1
  {
    forall k :: 0 <= k < |pages| ==> Linked(f, rows, limit, pages, k)
  }

  function AllData(pages: seq<Page>): seq<Row> {
    if pages == [] then [] else AllData(pages[..|pages| - 1]) + pages[|pages| - 1].data
  }

  lemma PageFromRest(f: Format, list: seq<Row>, i: nat, limit: nat)
    requires Lawful(f) && limit >= 1 && i <= |list|
    ensures PageAt(f, list[i..], 0, limit) == PageAt(f, list, i, limit)
  {
    hide EncodeCursor;
    if i + limit < |list| {
      assert list[i..][..limit] == list[i..i + limit];
      assert list[i..][limit - 1] == list[i + limit - 1];
    }
  }

  /** Page `k` of a chain starts where the first `k` full pages end. */
  lemma {:induction false} PageOfChain(f: Format, rows: set<Row>, limit: nat, pages: seq<Page>, k: nat)
    requires Keyed(rows) && Lawful(f) && limit >= 1
    requires Chain(f, rows, limit, pages) && k < |pages|
    ensures k * limit <= |Newest(rows)| && pages[k] == PageAt(f, Newest(rows), k * limit, limit)
    ensures k > 0 ==> k * limit < |Newest(rows)|
  {
    hide Newest, DecodeCursor, EncodeCursor, After, Lawful, Keyed;
    var list := Newest(rows);
    assert Linked(f, rows, limit, pages, k);
    if k == 0 {
      AfterNone(rows);
    } else {
      PageOfChain(f, rows, limit, pages, k - 1);
      var i := (k - 1) * limit;
      assert k * limit == i + limit;
      assert pages[k - 1].nextCursor == Some(EncodeCursor(f, list[i + limit - 1].key));
      CursorRoundTrip(f, list[i + limit - 1].key);
      AfterRow(rows, i + limit - 1);
      PageFromRest(f, list, i + limit, limit);
    }
  }

  lemma AfterNone(rows: set<Row>)
    ensures After(rows, None) == rows
  {
  }

  /** The pages of a chain, put together, are the list up to there. */
  lemma {:induction false} ChainCovers(f: Format, rows: set<Row>, limit: nat, pages: seq<Page>)
    requires Keyed(rows) && Lawful(f) && limit >= 1
    requires Chain(f, rows, limit, pages)
    ensures AllData(pages) == Take(Newest(rows), |pages| * limit)
  {
    hide Newest, DecodeCursor, EncodeCursor, After, Lawful, Keyed, FirstPage;
    if pages != [] {
      var n := |pages| - 1;
      var list := Newest(rows);
      forall k | 0 <= k < n
        ensures Linked(f, rows, limit, pages[..n], k)
      {
        assert Linked(f, rows, limit, pages, k);
      }
      ChainCovers(f, rows, limit, pages[..n]);
      PageOfChain(f, rows, limit, pages, n);
      assert |pages| * limit == n * limit + limit;
      TakePage(list, n * limit, limit);
    }
  }

  lemma TakePage(list: seq<Row>, i: nat, limit: nat)
    requires i <= |list|
    ensures Take(list, i + limit) == Take(list, i) + (if i + limit < |list| then list[i..i + limit] else list[i..])
  {
    assert Take(list, i) == list[..i];
  }

  /**
   * Following the cursors to the end gives the whole filtered list, newest first, each row once; the
   * chain goes on exactly as long as rows are left, so it ends.
   */
  lemma {:induction false} PagesAreTheList(f: Format, rows: set<Row>, limit: nat, pages: seq<Page>)
    requires Keyed(rows) && Lawful(f) && limit >= 1
    requires pages != [] && Chain(f, rows, limit, pages)
    ensures pages[|pages| - 1].nextCursor.None? <==> |pages| * limit >= |Newest(rows)|
    ensures pages[|pages| - 1].nextCursor.None? ==>
      && AllData(pages) == Newest(rows) && Falling(AllData(pages))
      && forall r :: r in AllData(pages) <==> r in rows
  {
    hide Newest, DecodeCursor, EncodeCursor, After, Lawful, Keyed, Falling;
    var n := |pages| - 1;
    PageOfChain(f, rows, limit, pages, n);
    assert |pages| * limit == n * limit + limit;
    ChainCovers(f, rows, limit, pages);
    NewestIs(rows);
  }

  /** Some cursors cannot be read, whatever the formats are. */
  lemma UnreadableCursor(f: Format)
    ensures DecodeCursor(f, "zz") == None
  {
    assert HexDecode("zz"[2..]) == Some([]);
  }

  // ------------------------------------------------------------------ what a page shows

  /** Newest first, and of rows created together the one with the greater id first. */
  predicate NewestFirst(list: seq<Row>) {
    forall i, j :: 0 <= i < j < |list| ==>
      || list[i].key.createdAt > list[j].key.createdAt
      || (list[i].key.createdAt == list[j].key.createdAt && list[i].key.id > list[j].key.id)
  }

  /** The row comes behind the cursor in that order. */
  predicate Behind(row: Row, cursor: Key) {
    || row.key.createdAt < cursor.createdAt
    || (row.key.createdAt == cursor.createdAt && row.key.id < cursor.id)
  }

  lemma RowsShown(table: set<Row>, filter: Filter, cursor: Option<Key>)
    ensures forall row :: row in After(Matching(table, filter), cursor)
                     <==> row in table && filter.Matches(row) && (cursor.Some? ==> Behind(row, cursor.value))
  {
    hide Filter.Matches;
  }

  /**
   * A page holds rows of the table that match and come behind its cursor, newest first, at most as many as asked
   * for.
   */
  lemma PageShows(f: Format, table: set<Row>, filter: Filter, cursor: Option<Key>, limit: nat, page: Page)
    requires Keyed(table) && Lawful(f) && limit >= 1
    requires page == PageAt(f, Newest(After(Matching(table, filter), cursor)), 0, limit)
    ensures NewestFirst(page.data) && |page.data| <= limit
    ensures page.hasMore <==> page.nextCursor.Some?
    ensures page.hasMore ==> |page.data| == limit && page.nextCursor == Some(EncodeCursor(f, page.data[limit - 1].key))
    ensures forall row :: row in page.data ==>
      row in table && filter.Matches(row) && (cursor.Some? ==> Behind(row, cursor.value))
    ensures !page.hasMore ==> forall row :: row in table ==>
      filter.Matches(row) && (cursor.Some? ==> Behind(row, cursor.value)) ==> row in page.data
  {
    hide Newest, EncodeCursor, Lawful, Filter.Matches, Keyed;
    var rows := After(Matching(table, filter), cursor);
    NewestIs(rows);
    var list := Newest(rows);
    RowsShown(table, filter, cursor);
    assert page.data <= list;
    assert forall row :: row in page.data ==> row in list;
  }

  /** The rows of a usage page are the tenant's own, and lie in the dates asked for. */
  lemma UsageRowMatches(tenant: int, from: Option<int>, upTo: Option<int>, row: Row)
    ensures Filter([tenant], from, upTo, false, None, None).Matches(row)
       <==> && row.tenant == Some(tenant)
            && (from.Some? ==> row.key.createdAt >= from.value)
            && (upTo.Some? ==> row.key.createdAt < upTo.value)
  {
    var filter := Filter([tenant], from, upTo, false, None, None);
    if filter.Matches(row) { assert tenant in filter.tenants; }
  }

  /** The rows of an audit page are in its scope, dates and categories, and by the actor asked for. */
  lemma AuditRowMatches(tenant: int, from: Option<int>, upTo: Option<int>, prefixes: Option<seq<string>>,
                        actor: Option<int>, row: Row)
    ensures Filter([tenant], from, upTo, true, prefixes, actor).Matches(row)
       <==> && row.tenant == Some(tenant)
            && (from.Some? ==> row.key.createdAt >= from.value)
            && (upTo.Some? ==> row.key.createdAt <= upTo.value)
            && (prefixes.Some? ==> exists k :: 0 <= k < |prefixes.value| && prefixes.value[k] <= row.action)
            && (actor.Some? ==> row.actor == Some(actor.value))
  {
    var filter := Filter([tenant], from, upTo, true, prefixes, actor);
    if filter.Matches(row) { assert tenant in filter.tenants; }
    if prefixes.Some? {
      var ps := prefixes.value;
      if k :| 0 <= k < |ps| && ps[k] <= row.action { assert ps[k] in ps; }
    }
  }
}
