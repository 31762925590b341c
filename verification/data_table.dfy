/** The generic table of the console (`DataTable`): what it shows for given
    columns, rows and pagination in the wide (table) and the narrow (card)
    layout, which page numbers its buttons request, and which clicks reach the
    row-click callback. Everything is decided by the props. */
module DataTable {
  import opened JsValues
  import opened SeqFilter

  const DefaultEmptyMessage: string := "No data available"

  /** One column: the field it shows, its header, an optional renderer taking
      the raw field value and the whole row, and the layout flags. */
  datatype Column = Column(
    key: string,
    caption: string,
    render: Option<(Val, Val) -> Val>,
    hideOnMobile: bool,
    hideOnTablet: bool)

  datatype Pagination = Pagination(page: int, limit: int, total: int, pages: int)

  /** The message shown for an empty table; the prop defaults when undefined. */
  function EmptyMessage(emptyMessage: Option<string>): string {
    if emptyMessage.Some? then emptyMessage.value else DefaultEmptyMessage
  }

  /** What a cell shows: the renderer's result when there is one, else the raw field. */
  function CellValue(c: Column, item: Val): Val {
    var raw := Field(item, c.key);
    if c.render.Some? then c.render.value(raw, item) else raw
  }

  /** `item.id || index` */
  function RowKey(item: Val, index: nat): (key: Val)
    ensures Truthy(Field(item, "id")) ==> key == Field(item, "id")
    ensures !Truthy(Field(item, "id")) ==> key == Num(index)
  {
    Or(Field(item, "id"), Num(index))
  }

  // ---------------------------------------------------------------------------
  // Wide layout

  datatype Row = Row(key: Val, cells: seq<Val>)

  /** The table body: a single row spanning every column with the empty
      message, or one row per record. */
  datatype TableBody = EmptyRow(colSpan: nat, message: string) | Rows(rows: seq<Row>)

  function TableRow(columns: seq<Column>, item: Val, index: nat): (r: Row)
    ensures r.key == RowKey(item, index)
    ensures |r.cells| == |columns|
    ensures forall j :: 0 <= j < |columns| ==> r.cells[j] == CellValue(columns[j], item)
  {
    Row(RowKey(item, index), seq(|columns|, j requires 0 <= j < |columns| => CellValue(columns[j], item)))
  }

  /** `safeData.length === 0 ? <empty row> : safeData.map(...)` */
  function Table(columns: seq<Column>, data: Val, emptyMessage: Option<string>): (b: TableBody)
    ensures b.EmptyRow? <==> ArrayOrEmpty(data) == []
    ensures b.EmptyRow? ==> b.colSpan == |columns| && b.message == EmptyMessage(emptyMessage)
    ensures b.Rows? ==> |b.rows| == |ArrayOrEmpty(data)|
    ensures b.Rows? ==> forall i :: 0 <= i < |b.rows| ==> b.rows[i] == TableRow(columns, ArrayOrEmpty(data)[i], i)
  {
    var items := ArrayOrEmpty(data);
    if items == [] then EmptyRow(|columns|, EmptyMessage(emptyMessage))
    else Rows(seq(|items|, i requires 0 <= i < |items| => TableRow(columns, items[i], i)))
  }

  // ---------------------------------------------------------------------------
  // Narrow layout

  /** One "label: value" pair of a card. */
  datatype Entry = Entry(key: string, caption: string, display: Val)

  datatype Card = Card(key: Val, entries: seq<Entry>)

  datatype CardList = EmptyCard(message: string) | Cards(cards: seq<Card>)

  predicate ShownOnMobile(c: Column) {
    !c.hideOnMobile
  }

  /** `columns.filter(column => !column.hideOnMobile)` */
  function MobileColumns(columns: seq<Column>): seq<Column> {
    Filter(columns, ShownOnMobile)
  }

  /** The card leaves out an `actions` entry whose value is falsy or "-". */
  predicate OmittedOnMobile(c: Column, value: Val) {
    (!Truthy(value) || value == Str("-")) && c.key == "actions"
  }

  /** The columns of a card for `item`: shown on mobile, and not an omitted actions entry. */
  function CardKeeps(item: Val): Column -> bool {
    c => !OmittedOnMobile(c, CellValue(c, item))
  }

  /** `value || "-"` */
  function CardEntry(c: Column, item: Val): Entry {
    Entry(c.key, c.caption, Or(CellValue(c, item), Str("-")))
  }

  function CardEntries(columns: seq<Column>, item: Val): (r: seq<Entry>)
    ensures |r| == |columns|
    ensures forall j :: 0 <= j < |columns| ==> r[j] == CardEntry(columns[j], item)
  {
    seq(|columns|, j requires 0 <= j < |columns| => CardEntry(columns[j], item))
  }

  /** The mobile columns mapped to entries, the `null`s React skips dropped. */
  function MobileCard(columns: seq<Column>, item: Val, index: nat): Card {
    Card(RowKey(item, index), CardEntries(Filter(MobileColumns(columns), CardKeeps(item)), item))
  }

  function CardView(columns: seq<Column>, data: Val, emptyMessage: Option<string>): (v: CardList)
    ensures v.EmptyCard? <==> ArrayOrEmpty(data) == []
    ensures v.EmptyCard? ==> v.message == EmptyMessage(emptyMessage)
    ensures v.Cards? ==> |v.cards| == |ArrayOrEmpty(data)|
    ensures v.Cards? ==> forall i :: 0 <= i < |v.cards| ==> v.cards[i] == MobileCard(columns, ArrayOrEmpty(data)[i], i)
  {
    var items := ArrayOrEmpty(data);
    if items == [] then EmptyCard(EmptyMessage(emptyMessage))
    else Cards(seq(|items|, i requires 0 <= i < |items| => MobileCard(columns, items[i], i)))
  }

  // ---------------------------------------------------------------------------
  // Properties of the two layouts

  /** Data that is not an array shows the empty message in both layouts, and the
      wide layout's empty row spans all columns. */
  lemma EmptyInBothLayouts(columns: seq<Column>, data: Val, emptyMessage: Option<string>)
    requires !data.Arr? || data.elems == []
    ensures Table(columns, data, emptyMessage) == EmptyRow(|columns|, EmptyMessage(emptyMessage))
    ensures CardView(columns, data, emptyMessage) == EmptyCard(EmptyMessage(emptyMessage))
    ensures emptyMessage.None? ==> EmptyMessage(emptyMessage) == "No data available"
  {
  }

  /** The card of a record lists exactly the columns that are shown on mobile
      and are not an omitted actions entry, in column order. */
  lemma {:induction false} CardColumns(columns: seq<Column>, item: Val, index: nat)
    ensures MobileCard(columns, item, index).entries
            == CardEntries(Filter(columns, Both(ShownOnMobile, CardKeeps(item))), item)
  {
    FilterFilter(columns, ShownOnMobile, CardKeeps(item));
  }

  /** Both layouts show the same value for a column: a card entry is the table
      cell, with a falsy value written as "-", at the position the column has
      among the columns the card keeps. */
  lemma LayoutsAgree(columns: seq<Column>, data: Val, emptyMessage: Option<string>, i: nat, j: nat)
    requires i < |ArrayOrEmpty(data)| && j < |columns|
    requires ShownOnMobile(columns[j]) && CardKeeps(ArrayOrEmpty(data)[i])(columns[j])
    ensures var item := ArrayOrEmpty(data)[i];
            var keep := Both(ShownOnMobile, CardKeeps(item));
            var table := Table(columns, data, emptyMessage);
            var cards := CardView(columns, data, emptyMessage);
            && table.Rows? && cards.Cards?
            && Rank(columns, keep, j) < |cards.cards[i].entries|
            && cards.cards[i].entries[Rank(columns, keep, j)]
               == Entry(columns[j].key, columns[j].caption, Or(table.rows[i].cells[j], Str("-")))
  {
    var item := ArrayOrEmpty(data)[i];
    var keep := Both(ShownOnMobile, CardKeeps(item));
    CardColumns(columns, item, i);
    FilterKeeps(columns, keep, j);
  }

  /** The mobile columns are exactly those without `hideOnMobile`, in order. */
  lemma MobileColumnsExact(columns: seq<Column>, j: nat, k: nat)
    requires j < k < |columns| && ShownOnMobile(columns[j])
    ensures Rank(columns, ShownOnMobile, j) < |MobileColumns(columns)|
    ensures MobileColumns(columns)[Rank(columns, ShownOnMobile, j)] == columns[j]
    ensures Rank(columns, ShownOnMobile, j) < Rank(columns, ShownOnMobile, k)
    ensures forall m :: 0 <= m < |MobileColumns(columns)| ==> !MobileColumns(columns)[m].hideOnMobile
  {
    FilterKeeps(columns, ShownOnMobile, j);
    RankIncreases(columns, ShownOnMobile, j, k);
  }

  /** A card never shows a blank value, and never shows an actions entry that
      is empty or "-". */
  lemma CardEntriesShown(columns: seq<Column>, item: Val, index: nat, m: nat)
    requires m < |MobileCard(columns, item, index).entries|
    ensures var e := MobileCard(columns, item, index).entries[m];
            && Truthy(e.display)
            && (e.key == "actions" ==> e.display != Str("-"))
  {
    var kept := Filter(MobileColumns(columns), CardKeeps(item));
    assert CardKeeps(item)(kept[m]);
  }

  // ---------------------------------------------------------------------------
  // Pagination controls

  /** The pagination bar: the text it shows and whether each button is disabled. */
  datatype Pager = Pager(page: int, pages: int, total: int, previousDisabled: bool, nextDisabled: bool)

  function PagerView(p: Option<Pagination>): (v: Option<Pager>)
    ensures v.Some? <==> p.Some? && p.value.pages > 1
    ensures v.Some? ==> (v.value.previousDisabled <==> p.value.page == 1)
    ensures v.Some? ==> (v.value.nextDisabled <==> p.value.page == p.value.pages)
  {
    if p.Some? && p.value.pages > 1 then
      Some(Pager(p.value.page, p.value.pages, p.value.total, p.value.page == 1, p.value.page == p.value.pages))
    else None
  }

  datatype PagerButton = Previous | Next

  /** The page passed to `onPageChange` when a button is clicked: none when the
      bar is hidden, the button is disabled or no callback is given. */
  function PagerClick(p: Option<Pagination>, button: PagerButton, hasCallback: bool): (r: Option<int>)
    ensures r.Some? <==> hasCallback && PagerView(p).Some?
                         && !(if button.Previous? then PagerView(p).value.previousDisabled else PagerView(p).value.nextDisabled)
    ensures r.Some? ==> r.value == (if button.Previous? then p.value.page - 1 else p.value.page + 1)
  {
    var v := PagerView(p);
    if v.None? || !hasCallback then None
    else if button.Previous? then (if v.value.previousDisabled then None else Some(p.value.page - 1))
    else (if v.value.nextDisabled then None else Some(p.value.page + 1))
  }

  /** While the current page is within [1, pages], no page outside that range is
      ever requested. */
  lemma PagerStaysInRange(p: Option<Pagination>, button: PagerButton, hasCallback: bool)
    requires p.Some? && 1 <= p.value.page <= p.value.pages
    ensures var r := PagerClick(p, button, hasCallback);
            r.Some? ==> 1 <= r.value <= p.value.pages
  {
  }

  /** A single page shows no controls; on page 1 of 3, Previous is disabled and
      Next asks for page 2. */
  lemma PagerBoundaries()
    ensures PagerView(Some(Pagination(1, 15, 15, 1))).None?
    ensures PagerView(Some(Pagination(1, 15, 45, 3))) == Some(Pager(1, 3, 45, true, false))
    ensures PagerClick(Some(Pagination(1, 15, 45, 3)), Previous, true).None?
    ensures PagerClick(Some(Pagination(1, 15, 45, 3)), Next, true) == Some(2)
  {
  }

  // ---------------------------------------------------------------------------
  // Clicks

  /** An element on the path from the clicked target up to the document root. */
  datatype Element = Element(tag: string, role: Option<string>)

  /** Matches `button`, `a` or `[role="button"]`. */
  predicate Interactive(e: Element) {
    e.tag == "button" || e.tag == "a" || e.role == Some("button")
  }

  /** `target.closest("button") || target.closest("a") || target.closest('[role="button"]')`,
      walking from the target outwards. */
  function InsideInteractive(path: seq<Element>): (r: bool)
    ensures r <==> exists k :: 0 <= k < |path| && Interactive(path[k])
  {
    if path == [] then false
    else Interactive(path[0]) || InsideInteractive(path[1..])
  }

  /** The record a card click passes to `onRowClick`, if any. */
  function CardClick(path: seq<Element>, item: Val, hasCallback: bool): (r: Option<Val>)
    ensures r.Some? <==> hasCallback && forall k :: 0 <= k < |path| ==> !Interactive(path[k])
    ensures r.Some? ==> r.value == item
  {
    if InsideInteractive(path) || !hasCallback then None else Some(item)
  }

  /** A table-row click passes its record whatever element was clicked. */
  function RowClick(path: seq<Element>, item: Val, hasCallback: bool): (r: Option<Val>)
    ensures r.Some? <==> hasCallback
    ensures r.Some? ==> r.value == item
  {
    if hasCallback then Some(item) else None
  }

  /** A click on a button inside a card does not reach `onRowClick`; a click on
      the card's surface does, once, with that card's record. */
  lemma CardButtonSuppressed(surface: seq<Element>, button: Element, item: Val)
    requires Interactive(button)
    requires forall k :: 0 <= k < |surface| ==> !Interactive(surface[k])
    ensures CardClick([button] + surface, item, true).None?
    ensures CardClick(surface, item, true) == Some(item)
  {
    assert ([button] + surface)[0] == button;
  }
}
