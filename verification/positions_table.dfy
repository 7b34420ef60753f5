/**
 * The open-positions table: a copy of the hook's positions sorted on one
 * field, cut into 10-row pages, with a header that toggles the sort and
 * Prev/Next buttons that clamp the page number.
 *
 * `Array.prototype.sort` with the table's comparator is modelled as a stable
 * insertion sort under the total preorder the comparator induces; string
 * comparison (`localeCompare`) is code-unit lexicographic order.
 */
module PositionsTable {
  import opened Wrappers
  import opened Text
  import opened DashboardApi
  import Paging

  /** The table's page size. */
  const PageSize: nat := 10

  /** The keys of the table's `Position` interface. */
  datatype SortField = PositionId | Symbol | CompanyName | Quantity | EntryPrice | CurrentPrice | UnrealizedPnl

  datatype Direction = Asc | Desc

  /** The component's three pieces of state. */
  datatype TableState = TableState(field: SortField, direction: Direction, page: int)

  /** Sorted on symbol, ascending, page 1. */
  const Initial := TableState(Symbol, Asc, 1)

  /** `data || []`: no data yet is an empty table. */
  function Rows(data: Option<seq<ClientPosition>>): (r: seq<ClientPosition>)
    ensures data.None? ==> r == []
    ensures data.Some? ==> r == data.value
  {
    match data
    case None => []
    case Some(ps) => ps
  }

  /**
   * The value the comparator sees: a number when the field holds one, and
   * otherwise the field's `String(...)` text, which is "undefined" for an
   * absent optional field.
   */
  datatype SortKey = NumKey(n: real) | TextKey(t: string)

  function OptionalText(v: Option<string>): string {
    match v
    case Some(s) => s
    case None => "undefined"
  }

  function OptionalNumber(v: Option<real>): SortKey {
    match v
    case Some(n) => NumKey(n)
    case None => TextKey("undefined")
  }

  function KeyOf(f: SortField, p: ClientPosition): SortKey {
    match f
    case PositionId => TextKey(p.position_id)
    case Symbol => TextKey(p.symbol)
    case CompanyName => TextKey(OptionalText(p.company_name))
    case Quantity => NumKey(p.quantity)
    case EntryPrice => NumKey(p.entry_price)
    case CurrentPrice => OptionalNumber(p.current_price)
    case UnrealizedPnl => OptionalNumber(p.unrealized_pnl)
  }

  /**
   * "a does not sort after b" in ascending order. Two numbers compare by
   * value; otherwise both sides are compared as text. A number meets text only
   * on an optional numeric field, where the text is "undefined"; the decimal
   * text of a number starts with a digit, '-', 'I' or 'N', each of which
   * precedes 'u', so the number always comes first.
   */
  predicate KeyLe(a: SortKey, b: SortKey) {
    match (a, b)
    case (NumKey(x), NumKey(y)) => x <= y
    case (TextKey(x), TextKey(y)) => LexLe(x, y)
    case (NumKey(_), TextKey(_)) => true
    case (TextKey(_), NumKey(_)) => false
  }

  /**
   * `typeof aVal === "number"`: the key is a number exactly on a numeric field
   * the row holds, and the only text an optional numeric field yields is
   * "undefined".
   */
  lemma KeyOfTypes(f: SortField, p: ClientPosition)
    ensures KeyOf(f, p).NumKey? <==>
      || f == Quantity || f == EntryPrice
      || (f == CurrentPrice && p.current_price.Some?)
      || (f == UnrealizedPnl && p.unrealized_pnl.Some?)
    ensures f == CurrentPrice ==> KeyOf(f, p) == (if p.current_price.Some? then NumKey(p.current_price.value) else TextKey("undefined"))
    ensures f == UnrealizedPnl ==> KeyOf(f, p) == (if p.unrealized_pnl.Some? then NumKey(p.unrealized_pnl.value) else TextKey("undefined"))
    ensures f == CompanyName && p.company_name.None? ==> KeyOf(f, p) == TextKey("undefined")
  {
  }

  /**
   * Why the mixed case of KeyLe is right: comparing the decimal text of a
   * number (a digit, '-', 'I' of Infinity or 'N' of NaN first) with "undefined"
   * code unit by code unit gives the verdict KeyLe gives for the number key.
   */
  lemma NumberTextBeforeUndefined(n: real, text: string)
    requires |text| > 0 && (IsDigit(text[0]) || text[0] == '-' || text[0] == 'I' || text[0] == 'N')
    ensures LexLe(text, "undefined") == KeyLe(NumKey(n), TextKey("undefined"))
    ensures LexLe("undefined", text) == KeyLe(TextKey("undefined"), NumKey(n))
  {
    assert text[0] != "undefined"[0] && text[0] < 'u';
  }

  /** The comparator's verdict "a may stay before b": descending swaps the operands. */
  predicate Before(f: SortField, d: Direction, a: ClientPosition, b: ClientPosition) {
    match d
    case Asc => KeyLe(KeyOf(f, a), KeyOf(f, b))
    case Desc => KeyLe(KeyOf(f, b), KeyOf(f, a))
  }

  predicate Sorted(f: SortField, d: Direction, s: seq<ClientPosition>) {
    forall i, j :: 0 <= i < j < |s| ==> Before(f, d, s[i], s[j])
  }

  /** The comparator is total: of any two rows, one may stay before the other. */
  lemma BeforeTotal(f: SortField, d: Direction, a: ClientPosition, b: ClientPosition)
    ensures Before(f, d, a, b) || Before(f, d, b, a)
  {
    match (KeyOf(f, a), KeyOf(f, b))
    case (TextKey(x), TextKey(y)) => LexLeTotal(x, y);
    case _ =>
  }

  /** The comparator is transitive. */
  lemma BeforeTransitive(f: SortField, d: Direction, a: ClientPosition, b: ClientPosition, c: ClientPosition)
    requires Before(f, d, a, b) && Before(f, d, b, c)
    ensures Before(f, d, a, c)
  {
    var ka, kb, kc := KeyOf(f, a), KeyOf(f, b), KeyOf(f, c);
    if ka.TextKey? && kb.TextKey? && kc.TextKey? {
      if d == Asc {
        LexLeTransitive(ka.t, kb.t, kc.t);
      } else {
        LexLeTransitive(kc.t, kb.t, ka.t);
      }
    }
  }

  /** Places x after every row of t that may stay before it: equal keys keep their input order. */
  function Insert(f: SortField, d: Direction, t: seq<ClientPosition>, x: ClientPosition): (r: seq<ClientPosition>)
    ensures multiset(r) == multiset(t) + multiset{x}
    ensures |r| == |t| + 1
  {
    if |t| == 0 then [x]
    else if Before(f, d, t[0], x) then
      assert t == [t[0]] + t[1..];
      [t[0]] + Insert(f, d, t[1..], x)
    else
      [x] + t
  }

  /** Every row of a sequence is an occurrence of its multiset. */
  lemma InMultiset(s: seq<ClientPosition>, k: int)
    requires 0 <= k < |s|
    ensures s[k] in multiset(s)
  {
  }

  /** A row that may stay before every row of a sorted list heads a sorted list. */
  lemma ConsSorted(f: SortField, d: Direction, h: ClientPosition, t: seq<ClientPosition>)
    requires Sorted(f, d, t)
    requires forall k :: 0 <= k < |t| ==> Before(f, d, h, t[k])
    ensures Sorted(f, d, [h] + t)
  {
    var r := [h] + t;
    forall i, j | 0 <= i < j < |r|
      ensures Before(f, d, r[i], r[j])
    {
      assert r[j] == t[j - 1];
      if i > 0 {
        assert r[i] == t[i - 1];
      }
    }
  }

  /** The head of a sorted list may stay before each of its other rows and before x, hence before every row of their insertion. */
  lemma HeadBeforeInsertion(f: SortField, d: Direction, t: seq<ClientPosition>, x: ClientPosition, rest: seq<ClientPosition>)
    requires |t| > 0 && Sorted(f, d, t) && Before(f, d, t[0], x)
    requires multiset(rest) == multiset(t[1..]) + multiset{x}
    ensures forall k :: 0 <= k < |rest| ==> Before(f, d, t[0], rest[k])
  {
    forall k | 0 <= k < |rest|
      ensures Before(f, d, t[0], rest[k])
    {
      InMultiset(rest, k);
      if rest[k] != x {
        assert rest[k] in multiset(t[1..]);
        var m :| 0 <= m < |t[1..]| && t[1..][m] == rest[k];
        assert t[m + 1] == rest[k];
      }
    }
  }

  /** A row that may stay before the head of a sorted list may stay before all of it. */
  lemma BeforeHeadBeforeAll(f: SortField, d: Direction, t: seq<ClientPosition>, x: ClientPosition)
    requires |t| > 0 && Sorted(f, d, t) && Before(f, d, x, t[0])
    ensures forall k :: 0 <= k < |t| ==> Before(f, d, x, t[k])
  {
    forall k | 0 < k < |t|
      ensures Before(f, d, x, t[k])
    {
      BeforeTransitive(f, d, x, t[0], t[k]);
    }
  }

  /** Inserting into a sorted list keeps it sorted. */
  lemma {:induction false} InsertSorted(f: SortField, d: Direction, t: seq<ClientPosition>, x: ClientPosition)
    requires Sorted(f, d, t)
    ensures Sorted(f, d, Insert(f, d, t, x))
  {
    if |t| == 0 {
    } else if Before(f, d, t[0], x) {
      var rest := Insert(f, d, t[1..], x);
      assert Sorted(f, d, t[1..]) by {
        forall i, j | 0 <= i < j < |t[1..]|
          ensures Before(f, d, t[1..][i], t[1..][j])
        {
          assert t[1..][i] == t[i + 1] && t[1..][j] == t[j + 1];
        }
      }
      InsertSorted(f, d, t[1..], x);
      HeadBeforeInsertion(f, d, t, x, rest);
      ConsSorted(f, d, t[0], rest);
    } else {
      BeforeTotal(f, d, t[0], x);
      BeforeHeadBeforeAll(f, d, t, x);
      ConsSorted(f, d, x, t);
    }
  }

  /**
   * `[...positions].sort(comparator)`: a new list holding the same rows (with
   * the same multiplicities) in comparator order; the input is a value and is
   * never changed.
   */
  function SortRows(f: SortField, d: Direction, s: seq<ClientPosition>): (r: seq<ClientPosition>)
    ensures multiset(r) == multiset(s)
    ensures |r| == |s|
    ensures Sorted(f, d, r)
  {
    if |s| == 0 then []
    else
      var init := SortRows(f, d, s[..|s| - 1]);
      InsertSorted(f, d, init, s[|s| - 1]);
      assert s == s[..|s| - 1] + [s[|s| - 1]];
      Insert(f, d, init, s[|s| - 1])
  }

  /** On a numeric field the sorted rows run up the values when ascending and down them when descending. */
  lemma NumericOrder(f: SortField, d: Direction, s: seq<ClientPosition>, i: int, j: int)
    requires f == Quantity || f == EntryPrice
    requires 0 <= i < j < |s|
    ensures var r := SortRows(f, d, s);
      var vi := if f == Quantity then r[i].quantity else r[i].entry_price;
      var vj := if f == Quantity then r[j].quantity else r[j].entry_price;
      (d == Asc ==> vi <= vj) && (d == Desc ==> vi >= vj)
  {
    var r := SortRows(f, d, s);
    assert Before(f, d, r[i], r[j]);
  }

  /** What the comparator's verdict on the current price says of two rows. */
  lemma CurrentPriceBefore(d: Direction, a: ClientPosition, b: ClientPosition)
    requires Before(CurrentPrice, d, a, b)
    ensures d == Asc && a.current_price.None? ==> b.current_price.None?
    ensures d == Desc && a.current_price.Some? ==> b.current_price.Some?
    ensures a.current_price.Some? && b.current_price.Some? ==>
      (d == Asc ==> a.current_price.value <= b.current_price.value)
      && (d == Desc ==> a.current_price.value >= b.current_price.value)
  {
  }

  /**
   * On an optional numeric field the rows holding a value come first, in value
   * order, and the rows without one follow, ascending; descending reverses both.
   */
  lemma OptionalNumericOrder(d: Direction, s: seq<ClientPosition>, i: int, j: int)
    requires 0 <= i < j < |s|
    ensures var r := SortRows(CurrentPrice, d, s);
      (d == Asc && r[i].current_price.None? ==> r[j].current_price.None?)
      && (d == Desc && r[i].current_price.Some? ==> r[j].current_price.Some?)
      && (r[i].current_price.Some? && r[j].current_price.Some? ==>
        (d == Asc ==> r[i].current_price.value <= r[j].current_price.value)
        && (d == Desc ==> r[i].current_price.value >= r[j].current_price.value))
  {
    var r := SortRows(CurrentPrice, d, s);
    CurrentPriceBefore(d, r[i], r[j]);
  }

  /** `handleSort`: the current field flips its direction, another field is selected ascending; the page is kept. */
  function HandleSort(st: TableState, f: SortField): (r: TableState)
    ensures r.field == f && r.page == st.page
    ensures f == st.field ==> r.direction != st.direction
    ensures f != st.field ==> r.direction == Asc
  {
    if st.field == f then
      st.(direction := if st.direction == Asc then Desc else Asc)
    else
      st.(field := f, direction := Asc)
  }

  /** Clicking the same header twice restores the state; clicking a new header twice leaves it sorted descending. */
  lemma HandleSortTwice(st: TableState, f: SortField)
    ensures f == st.field ==> HandleSort(HandleSort(st, f), f) == st
    ensures f != st.field ==> HandleSort(HandleSort(st, f), f) == st.(field := f, direction := Desc)
  {
  }

  /** What the table renders: the header count, the rows of the current page, the page count and which optional parts show. */
  datatype TableView = TableView(
    count: nat,
    rows: seq<ClientPosition>,
    totalPages: nat,
    controls: bool,
    placeholder: bool)

  function Render(data: Option<seq<ClientPosition>>, st: TableState): (v: TableView)
    ensures v.count == |Rows(data)|
    ensures |v.rows| <= PageSize
    ensures v.totalPages * PageSize >= v.count
    ensures v.totalPages > 0 ==> (v.totalPages - 1) * PageSize < v.count
    ensures v.totalPages == 0 <==> v.count == 0
    ensures v.rows == Paging.Page(SortRows(st.field, st.direction, Rows(data)), st.page, PageSize)
    ensures v.controls <==> v.count > PageSize
    ensures v.placeholder <==> |v.rows| == 0
    ensures st.page == 1 && v.count > 0 ==> !v.placeholder
  {
    var ps := Rows(data);
    var sorted := SortRows(st.field, st.direction, ps);
    var total := Paging.TotalPages(|sorted|, PageSize);
    var rows := Paging.Page(sorted, st.page, PageSize);
    TableView(|ps|, rows, total, Paging.ShowControls(total), |rows| == 0)
  }

  /** The rows shown are always rows of the data, each at most as often as it occurs there. */
  lemma ShownRowsAreData(data: Option<seq<ClientPosition>>, st: TableState)
    ensures multiset(Render(data, st).rows) <= multiset(Rows(data))
  {
    Paging.PageIsSubMultiset(SortRows(st.field, st.direction, Rows(data)), st.page, PageSize);
  }

  /** Walking pages 1 to totalPages shows every row of the sorted table exactly once, in order. */
  lemma PagesCoverSortedRows(data: Option<seq<ClientPosition>>, st: TableState)
    ensures var sorted := SortRows(st.field, st.direction, Rows(data));
      Paging.Pages(sorted, PageSize, Render(data, st).totalPages) == sorted
  {
    Paging.PagesCoverList(SortRows(st.field, st.direction, Rows(data)), PageSize);
  }

  /** The Prev button. */
  function PrevPage(st: TableState): (r: TableState)
    ensures r.page >= 1 && r.field == st.field && r.direction == st.direction
  {
    st.(page := Paging.Prev(st.page))
  }

  /** The Next button, clamped to the page count the current data gives. */
  function NextPage(data: Option<seq<ClientPosition>>, st: TableState): (r: TableState)
    ensures r.page <= Render(data, st).totalPages && r.field == st.field && r.direction == st.direction
  {
    st.(page := Paging.Next(st.page, Render(data, st).totalPages))
  }

  /** From a page in range, both buttons keep the page in range, and with data present that page never shows the placeholder. */
  lemma ButtonsKeepPageInRange(data: Option<seq<ClientPosition>>, st: TableState)
    requires 1 <= st.page <= Render(data, st).totalPages
    ensures 1 <= PrevPage(st).page <= Render(data, PrevPage(st)).totalPages
    ensures 1 <= NextPage(data, st).page <= Render(data, NextPage(data, st)).totalPages
    ensures !Render(data, st).placeholder
  {
    var total := Render(data, st).totalPages;
    Paging.ClampsKeepRange(st.page, total);
    var sorted := SortRows(st.field, st.direction, Rows(data));
    Paging.EmptyPageIffEmptyList(sorted, st.page, PageSize);
  }

  /**
   * The page number is not reset when the data shrinks: a table left on page
   * 2 whose data drops to at most ten positions shows the "No open positions"
   * row even though positions exist (the count in the header is non-zero).
   */
  lemma StalePageShowsPlaceholder(ps: seq<ClientPosition>, st: TableState)
    requires 0 < |ps| <= PageSize && st.page == 2
    ensures Render(Some(ps), st).placeholder && Render(Some(ps), st).count > 0
  {
  }
}
