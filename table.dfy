/** `AlertTable`: the paged table of saved alerts. Paging, row search, column reads,
    sorting, the status switch and row deletion are step functions over the session's
    `State` and the table's registry; the class's methods are proved against them. */
module AlertTables {
  import opened Outcomes
  import opened Text
  import opened Locators
  import opened Browser
  import opened Matching
  import opened AlertComponentActions

  const Rows := " tr.list-item.savedsearches-gridrow"
  const Cols := " td.cell-"
  const SwitchPage := " .pull-right li a"
  const DeletePopup := " div.deletePrompt"
  const DeleteButton := " a.delete"
  const DeleteCancel := ".modal-btn-cancel"
  const DeleteClose := ".modal-dialog button.close"

  /** The pairs `AlertTable.__init__` adds, as selectors, for a container whose selector is `value`. */
  function TableSelectors(value: string): map<string, string> {
    map[
      "input_number" := value + " .shared-collectioncount",
      "status_column" := " [data-test=\"status\"]",
      "clear_filter" := " [data-test=\"clear\"]",
      "search_box" := " [data-name=\"nameFilter\"] input.search-query",
      "loader" := value + " [data-test=\"wait-spinner\"]",
      "popup" := "div.deletePrompt",
      "clone_btn" := "a.clone",
      "edit_btn" := ".edit-alert",
      "delete_btn" := "a.delete",
      "status_button" := " [data-test=\"button\"][role=\"switch\"]",
      "switch_to_page" := value + SwitchPage,
      "main_table" := "table[data-test=\"main-table\"]",
      "table_head" := " [data-test=\"head\"]",
      "table_headers" := value + " th",
      "table_container" := value + " [data-test=\"table\"]",
      "expand" := "[data-test=\"expand\"]",
      "rows" := value + Rows
    ]
  }

  /** The same pairs, each with the `None` strategy `__init__` writes. */
  function TableLocators(value: string): (r: Registry)
    ensures r.Keys == TableSelectors(value).Keys
    ensures forall k :: k in r ==> r[k] == Css(TableSelectors(value)[k])
  {
    map k | k in TableSelectors(value) :: Css(TableSelectors(value)[k])
  }

  /** The registry of a table built from the container `{name: container}`. */
  function TableRegistry(name: string, container: Entry): Registry {
    Updated(Updated(Normalize(map[name := container]), AlertBaseLocators()), TableLocators(container.selector))
  }

  /** Whatever the container is called, the table's own pairs are registered as CSS
      selectors under the container's selector, and the container keeps its pair unless
      it reuses one of the table's names. */
  lemma TableRegistryResolves(name: string, container: Entry, key: string)
    requires key in TableSelectors(container.selector)
    ensures Resolve(TableRegistry(name, container), key)
            == Ok(Entry(Some(CssSelector), TableSelectors(container.selector)[key]))
  {
    var t := TableLocators(container.selector);
    assert t[key].how.None?;
    UpdatedNewKeys(Updated(Normalize(map[name := container]), AlertBaseLocators()), t, key);
  }

  lemma TableRegistryContainer(name: string, container: Entry)
    requires name !in TableLocators(container.selector) && name !in AlertBaseLocators()
    ensures Resolve(TableRegistry(name, container), name) == Ok(NormalizeEntry(container))
  {
  }

  // ---------------------------------------------------------------- paging

  /** `get_element_text(page).lower()`: the key a pagination link is matched on. */
  function LinkKey(el: Element): string {
    Lower(GetElementText(el))
  }

  function LinkKeys(links: seq<Element>): (ks: seq<string>)
    ensures |ks| == |links|
    ensures forall i :: 0 <= i < |links| ==> ks[i] == LinkKey(links[i])
  {
    seq(|links|, i requires 0 <= i < |links| => LinkKey(links[i]))
  }

  /** `_is_element_clickable`. */
  predicate IsClickable(el: Element) {
    el.displayed && el.enabled
  }

  /** The loop of `next_page`/`prev_page`/`switch_to` over the pagination links: no links
      give False; the first link whose key is `key` is clicked when it is clickable, and
      the result says whether the click went through; links without a match raise
      ValueError. */
  function FollowLink(count: nat, st: State, links: seq<Element>, key: string): (r: (Result<bool>, State))
    ensures st.page < count ==> r.1.page < count
    ensures r.0 != Ok(true) ==> r.1 == st
  {
    if links == [] then (Ok(false), st)
    else
      match FirstIndex(LinkKeys(links), key)
      case None => (Err(ValueError), st)
      case Some(i) =>
        if !IsClickable(links[i]) then (Ok(false), st)
        else
          var (o, post) := ClickEffect(count, st, links[i]);
          (Ok(o == Pass), post)
  }

  /** The three pagination contracts. */
  lemma FollowLinkContract(count: nat, st: State, links: seq<Element>, key: string)
    ensures var (r, post) := FollowLink(count, st, links, key);
            (links == [] ==> r == Ok(false)) &&
            (links != [] && key !in LinkKeys(links) ==> r == Err(ValueError)) &&
            (r == Ok(true) <==>
               exists i :: 0 <= i < |links| && FirstIndex(LinkKeys(links), key) == Some(i) &&
                 links != [] && IsClickable(links[i]) && !links[i].clickFails) &&
            (r != Ok(true) ==> post == st)
  {
    if links != [] {
      var f := FirstIndex(LinkKeys(links), key);
      if f.Some? {
        var i := f.value;
        if IsClickable(links[i]) && !links[i].clickFails {
          assert FollowLink(count, st, links, key).0 == Ok(true);
        }
      }
    }
  }

  /** A link that is followed is the first one whose key matches. */
  lemma FollowLinkClicksFirstMatch(count: nat, st: State, links: seq<Element>, key: string)
    requires FollowLink(count, st, links, key).0 == Ok(true)
    ensures exists i :: 0 <= i < |links| && LinkKey(links[i]) == key &&
              (forall j :: 0 <= j < i ==> LinkKey(links[j]) != key) &&
              FollowLink(count, st, links, key).1 ==
                State(Landing(count, st.page, links[i]), st.log + [Clicked(links[i])])
  {
    assert links != [];
    var f := FirstIndex(LinkKeys(links), key);
    assert f.Some?;
    var i := f.value;
    assert IsClickable(links[i]) && !links[i].clickFails;
    assert FollowLink(count, st, links, key) == (Ok(true), ClickEffect(count, st, links[i]).1);
    forall j | 0 <= j < i ensures LinkKey(links[j]) != key {
      assert LinkKeys(links)[..i][j] == LinkKey(links[j]);
    }
  }

  /** The pagination methods: wait for the table, read the links and follow one.
      `next_page` reads them with `driver.find_elements`, which raises on a rejected
      selector (`raising`); the other two use `_find_elements`, which gives `[]`. */
  function PageStep(pages: seq<Dom>, st: State, reg: Registry, key: string, raising: bool): (r: (Result<bool>, State))
    requires st.page < |pages|
    ensures r.1.page < |pages|
  {
    var dom := pages[st.page];
    match WaitForElement(reg, dom, "table_container")
    case Err(e) => (Err(e), st)
    case Ok(_) =>
      match Resolve(reg, "switch_to_page")
      case Err(e) => (Err(e), st)
      case Ok(entry) =>
        var found := FindAll(dom, entry);
        if raising && found.Err? then (Err(found.error), st)
        else FollowLink(|pages|, st, FindElements(dom, entry), key)
  }

  function NextPageStep(pages: seq<Dom>, st: State, reg: Registry): (r: (Result<bool>, State))
    requires st.page < |pages|
    ensures r.1.page < |pages|
  {
    PageStep(pages, st, reg, "next", true)
  }

  /** The paging assumption the model needs for `get_list_of_rows` to end: on every page,
      a "next" link found through `links` that would be followed leads to a later page. */
  ghost predicate ForwardVia(pages: seq<Dom>, links: Entry) {
    forall p, el :: 0 <= p < |pages| && el in FindElements(pages[p], links) ==>
      (LinkKey(el) == "next" && IsClickable(el) && !el.clickFails ==> Landing(|pages|, p, el) > p)
  }

  ghost predicate Forward(pages: seq<Dom>, reg: Registry) {
    "switch_to_page" in reg ==> ForwardVia(pages, reg["switch_to_page"])
  }

  /** Writing `temp_col` keeps the paging assumption. */
  lemma ForwardKept(pages: seq<Dom>, reg: Registry, e: Entry)
    requires Forward(pages, reg)
    ensures Forward(pages, Updated(reg, map["temp_col" := e]))
  {
    var reg1 := Updated(reg, map["temp_col" := e]);
    if "switch_to_page" in reg1 {
      assert reg1["switch_to_page"] == reg["switch_to_page"];
    }
  }

  /** Under `Forward`, a `next_page` that returns True moves to a later page. */
  lemma NextPageAdvances(pages: seq<Dom>, st: State, reg: Registry)
    requires st.page < |pages| && Forward(pages, reg)
    requires NextPageStep(pages, st, reg).0 == Ok(true)
    ensures NextPageStep(pages, st, reg).1.page > st.page
  {
    var dom := pages[st.page];
    assert "switch_to_page" in reg;
    var links := FindElements(dom, reg["switch_to_page"]);
    assert NextPageStep(pages, st, reg) == FollowLink(|pages|, st, links, "next");
    var f := FirstIndex(LinkKeys(links), "next");
    assert f.Some?;
    var i := f.value;
    var el := links[i];
    assert el in FindElements(pages[st.page], reg["switch_to_page"]);
    assert LinkKey(el) == "next" && IsClickable(el) && !el.clickFails;
    assert NextPageStep(pages, st, reg).1 == ClickEffect(|pages|, st, el).1;
  }

  /** `get_list_of_rows` (and the stream `get_total_rows_elements` yields): the rows of the
      current page, then the rows of every page reached while `next_page()` is True. */
  function Walk(pages: seq<Dom>, st: State, reg: Registry): (r: (Result<seq<Element>>, State))
    requires st.page < |pages| && Forward(pages, reg)
    ensures r.1.page < |pages|
    decreases |pages| - st.page
  {
    var dom := pages[st.page];
    match WaitForElement(reg, dom, "table_container")
    case Err(e) => (Err(e), st)
    case Ok(_) =>
      match FindNamed(reg, dom, "rows")
      case Err(e) => (Err(e), st)
      case Ok(rows) =>
        var (more, st1) := NextPageStep(pages, st, reg);
        match more
        case Err(e) => (Err(e), st1)
        case Ok(false) => (Ok(rows), st1)
        case Ok(true) =>
          NextPageAdvances(pages, st, reg);
          var (rest, st2) := Walk(pages, st1, reg);
          (Prepend(rows, rest), st2)
  }

  /** `rows.extend(...)` on the caller's list, when the walk succeeds. */
  function Prepend(rows: seq<Element>, w: Result<seq<Element>>): (r: Result<seq<Element>>)
    ensures r.Ok? <==> w.Ok?
    ensures r.Ok? ==> |r.value| == |rows| + |w.value|
    ensures r.Ok? ==> r.value[..|rows|] == rows && r.value[|rows|..] == w.value
  {
    match w
    case Err(e) => Err(e)
    case Ok(tail) => Ok(rows + tail)
  }

  lemma PrependTwice(a: seq<Element>, b: seq<Element>, w: Result<seq<Element>>)
    ensures Prepend(a + b, w) == Prepend(a, Prepend(b, w))
  {
    if w.Ok? {
      assert a + b + w.value == a + (b + w.value);
    }
  }

  /** A table without pagination links is read in one page, without clicks. */
  lemma WalkSinglePage(pages: seq<Dom>, st: State, reg: Registry)
    requires st.page < |pages| && Forward(pages, reg)
    requires WaitForElement(reg, pages[st.page], "table_container").Ok?
    requires "rows" in reg && "switch_to_page" in reg
    requires FindAll(pages[st.page], reg["switch_to_page"]) == Ok([])
    ensures Walk(pages, st, reg) == (Ok(FindElements(pages[st.page], reg["rows"])), st)
  {
  }

  /** `b` is `a` followed by clicks only. */
  predicate ClicksAdded(a: seq<Action>, b: seq<Action>) {
    |a| <= |b| && b[..|a|] == a && forall k :: |a| <= k < |b| ==> b[k].Clicked?
  }

  lemma ClicksAddedTrans(a: seq<Action>, b: seq<Action>, c: seq<Action>)
    requires ClicksAdded(a, b) && ClicksAdded(b, c)
    ensures ClicksAdded(a, c)
  {
    assert c[..|a|] == c[..|b|][..|a|];
  }

  /** A pagination step adds at most one click to the log and nothing else. */
  lemma PageStepOnlyClicks(pages: seq<Dom>, st: State, reg: Registry, key: string, raising: bool)
    requires st.page < |pages|
    ensures ClicksAdded(st.log, PageStep(pages, st, reg, key, raising).1.log)
    ensures |PageStep(pages, st, reg, key, raising).1.log| <= |st.log| + 1
  {
    var post := PageStep(pages, st, reg, key, raising).1;
    ClicksAddedOne(st.log, []);
    if post != st {
      assert "switch_to_page" in reg;
      var links := FindElements(pages[st.page], reg["switch_to_page"]);
      assert post == FollowLink(|pages|, st, links, key).1;
      var i := FirstIndex(LinkKeys(links), key).value;
      assert post == ClickEffect(|pages|, st, links[i]).1;
      ClicksAddedOne(st.log, [Clicked(links[i])]);
    }
  }

  /** Appending at most one click adds only clicks. */
  lemma ClicksAddedOne(a: seq<Action>, b: seq<Action>)
    requires |b| <= 1 && forall k :: 0 <= k < |b| ==> b[k].Clicked?
    ensures ClicksAdded(a, a + b)
  {
    assert (a + b)[..|a|] == a;
  }

  /** Paging only clicks: the walk keeps the action log and appends clicks to it. */
  lemma {:induction false} WalkOnlyClicks(pages: seq<Dom>, st: State, reg: Registry)
    requires st.page < |pages| && Forward(pages, reg)
    ensures ClicksAdded(st.log, Walk(pages, st, reg).1.log)
    decreases |pages| - st.page
  {
    var dom := pages[st.page];
    if WaitForElement(reg, dom, "table_container").Ok? && FindNamed(reg, dom, "rows").Ok? {
      var (more, st1) := NextPageStep(pages, st, reg);
      PageStepOnlyClicks(pages, st, reg, "next", true);
      if more == Ok(true) {
        NextPageAdvances(pages, st, reg);
        WalkOnlyClicks(pages, st1, reg);
        ClicksAddedTrans(st.log, st1.log, Walk(pages, st1, reg).1.log);
      }
    }
  }

  // ---------------------------------------------------------------- columns

  /** `column.lower().replace(" ", "_")`. */
  function ColumnKey(column: string): (k: string)
    ensures |k| == |column| && ' ' !in k
    ensures forall i :: 0 <= i < |column| ==>
              k[i] == (if LowerChar(column[i]) == ' ' then '_' else LowerChar(column[i]))
    decreases |column|
  {
    if column == [] then []
    else
      var c := LowerChar(column[0]);
      [if c == ' ' then '_' else c] + ColumnKey(column[1..])
  }

  /** Where `_column_value` reads a column other than the status, built from the
      container selector `value`. */
  function CellEntry(value: string, key: string): Entry {
    Css(value + Cols + key)
  }

  /** `_column_value`: the status column is its stripped text, every other column is the
      normalized text of `value + " td.cell-" + column`, which is first written into the
      shared `temp_col` pair of the registry. */
  function ColumnValueStep(reg: Registry, dom: Dom, value: string, row: Element, column: string)
    : (r: (Result<string>, Registry))
    ensures ColumnKey(column) == "status" ==> r.1 == reg
    ensures ColumnKey(column) != "status" && WaitForElement(reg, dom, "table_container").Ok? ==>
              r.1 == Updated(reg, map["temp_col" := CellEntry(value, ColumnKey(column))])
    ensures r.1 == reg || r.1 == Updated(reg, map["temp_col" := CellEntry(value, ColumnKey(column))])
    ensures r.0.Ok? && ColumnKey(column) != "status" ==> Normalized(r.0.value)
    ensures r.0.Ok? && ColumnKey(column) == "status" ==> NoEdgeSpace(r.0.value)
  {
    match WaitForElement(reg, dom, "table_container")
    case Err(e) => (Err(e), reg)
    case Ok(_) =>
      var key := ColumnKey(column);
      if key == "status" then
        match FindInside(reg, row, "status_column")
        case Err(e) => (Err(e), reg)
        case Ok(cell) => (Ok(Strip(cell.text)), reg)
      else
        var reg1 := Updated(reg, map["temp_col" := CellEntry(value, key)]);
        match FindInside(reg1, row, "temp_col")
        case Err(e) => (Err(e), reg1)
        case Ok(cell) => (Ok(GetElementText(cell)), reg1)
  }

  /** The registry update of `_column_value` only ever touches `temp_col`. */
  lemma ColumnValueKeepsOthers(reg: Registry, dom: Dom, value: string, row: Element, column: string, k: string)
    requires k != "temp_col"
    ensures Resolve(ColumnValueStep(reg, dom, value, row, column).1, k) == Resolve(reg, k)
  {
  }

  // ---------------------------------------------------------------- get_row

  /** What `get_row` looks for. */
  datatype Query = Query(value: string, column: string, isSearch: bool, table: string)

  /** Exact equality, or substring containment when searching. */
  predicate RowMatches(text: string, q: Query) {
    if q.isSearch then Contains(text, q.value) else text == q.value
  }

  /** One generator frame of `get_total_rows_elements` consumed by `get_row`: wait for the
      table, read this page's rows and scan them. */
  function SearchPages(pages: seq<Dom>, st: State, reg: Registry, q: Query)
    : (r: (Result<Element>, State, Registry))
    requires st.page < |pages| && Forward(pages, reg)
    ensures r.1.page < |pages| && Forward(pages, r.2)
    decreases |pages| - st.page, 1, 0
  {
    var dom := pages[st.page];
    match WaitForElement(reg, dom, "table_container")
    case Err(e) => (Err(e), st, reg)
    case Ok(_) =>
      match FindNamed(reg, dom, "rows")
      case Err(e) => (Err(e), st, reg)
      case Ok(rows) => ScanRows(pages, st, reg, q, rows, 0)
  }

  /** The rest of the scan from row `i` of the current page: the first row whose column
      value matches is returned; after the last row the next page is opened, and the
      for-else raises ValueError once there is none. */
  function ScanRows(pages: seq<Dom>, st: State, reg: Registry, q: Query, rows: seq<Element>, i: nat)
    : (r: (Result<Element>, State, Registry))
    requires st.page < |pages| && Forward(pages, reg) && i <= |rows|
    ensures r.1.page < |pages| && Forward(pages, r.2)
    decreases |pages| - st.page, 0, |rows| - i
  {
    if i == |rows| then
      var (more, st1) := NextPageStep(pages, st, reg);
      match more
      case Err(e) => (Err(e), st1, reg)
      case Ok(false) => (Err(ValueError), st1, reg)
      case Ok(true) =>
        NextPageAdvances(pages, st, reg);
        SearchPages(pages, st1, reg, q)
    else
      var (cv, reg1) := ColumnValueStep(reg, pages[st.page], q.table, rows[i], q.column);
      ForwardKept(pages, reg, CellEntry(q.table, ColumnKey(q.column)));
      match cv
      case Err(e) => (Err(e), st, reg1)
      case Ok(text) =>
        if RowMatches(text, q) then (Ok(rows[i]), st, reg1)
        else ScanRows(pages, st, reg1, q, rows, i + 1)
  }

  /** `get_row`: wait for the table, then scan the row stream. */
  function GetRowStep(pages: seq<Dom>, st: State, reg: Registry, q: Query)
    : (r: (Result<Element>, State, Registry))
    requires st.page < |pages| && Forward(pages, reg)
    ensures r.1.page < |pages| && Forward(pages, r.2)
  {
    match WaitForElement(reg, pages[st.page], "table_container")
    case Err(e) => (Err(e), st, reg)
    case Ok(_) => SearchPages(pages, st, reg, q)
  }

  /** What `_column_value` reads does not depend on an earlier `temp_col`: it is
      overwritten before it is read. */
  lemma ColumnValueIgnoresTempCol(reg: Registry, dom: Dom, table: string, row: Element, column: string, e: Entry)
    ensures ColumnValueStep(Updated(reg, map["temp_col" := e]), dom, table, row, column).0
            == ColumnValueStep(reg, dom, table, row, column).0
  {
    var written := Updated(reg, map["temp_col" := e]);
    UpdatedOtherKeys(reg, map["temp_col" := e], "table_container");
    UpdatedOtherKeys(reg, map["temp_col" := e], "status_column");
    assert WaitForElement(written, dom, "table_container") == WaitForElement(reg, dom, "table_container");
    assert FindInside(written, row, "status_column") == FindInside(reg, row, "status_column");
    var cell := map["temp_col" := CellEntry(table, ColumnKey(column))];
    UpdatedTwice(reg, map["temp_col" := e], cell);
    assert map["temp_col" := e] + cell == cell;
    assert Updated(written, cell) == Updated(reg, cell);
  }

  /** The row `get_row` returns matches: its column value, read on the page where the
      scan stopped, equals the value (or contains it when searching). */
  lemma {:induction false} ScanFound(pages: seq<Dom>, st: State, reg: Registry, q: Query, rows: seq<Element>, i: nat)
    requires st.page < |pages| && Forward(pages, reg) && i <= |rows|
    requires ScanRows(pages, st, reg, q, rows, i).0.Ok?
    ensures var (r, post, _) := ScanRows(pages, st, reg, q, rows, i);
            var cv := ColumnValueStep(reg, pages[post.page], q.table, r.value, q.column).0;
            cv.Ok? && RowMatches(cv.value, q)
    decreases |pages| - st.page, 0, |rows| - i, 1
  {
    if i == |rows| {
      var (more, st1) := NextPageStep(pages, st, reg);
      assert more == Ok(true);
      NextPageAdvances(pages, st, reg);
      assert ScanRows(pages, st, reg, q, rows, i) == SearchPages(pages, st1, reg, q);
      SearchFound(pages, st1, reg, q);
    } else {
      ScanFoundRow(pages, st, reg, q, rows, i);
    }
  }

  /** The step of `ScanFound` at a row of the current page. */
  lemma {:induction false} ScanFoundRow(pages: seq<Dom>, st: State, reg: Registry, q: Query, rows: seq<Element>, i: nat)
    requires st.page < |pages| && Forward(pages, reg) && i < |rows|
    requires ScanRows(pages, st, reg, q, rows, i).0.Ok?
    ensures var (r, post, _) := ScanRows(pages, st, reg, q, rows, i);
            var cv := ColumnValueStep(reg, pages[post.page], q.table, r.value, q.column).0;
            cv.Ok? && RowMatches(cv.value, q)
    decreases |pages| - st.page, 0, |rows| - i, 0
  {
    var (cv, reg1) := ColumnValueStep(reg, pages[st.page], q.table, rows[i], q.column);
    ForwardKept(pages, reg, CellEntry(q.table, ColumnKey(q.column)));
    assert cv.Ok?;
    if RowMatches(cv.value, q) {
      assert ScanRows(pages, st, reg, q, rows, i) == (Ok(rows[i]), st, reg1);
    } else {
      assert ScanRows(pages, st, reg, q, rows, i) == ScanRows(pages, st, reg1, q, rows, i + 1);
      ScanFound(pages, st, reg1, q, rows, i + 1);
      var (r, post, _) := ScanRows(pages, st, reg1, q, rows, i + 1);
      if reg1 != reg {
        ColumnValueIgnoresTempCol(reg, pages[post.page], q.table, r.value, q.column, CellEntry(q.table, ColumnKey(q.column)));
      }
    }
  }

  lemma {:induction false} SearchFound(pages: seq<Dom>, st: State, reg: Registry, q: Query)
    requires st.page < |pages| && Forward(pages, reg)
    requires SearchPages(pages, st, reg, q).0.Ok?
    ensures var (r, post, _) := SearchPages(pages, st, reg, q);
            var cv := ColumnValueStep(reg, pages[post.page], q.table, r.value, q.column).0;
            cv.Ok? && RowMatches(cv.value, q)
    decreases |pages| - st.page, 1, 0, 0
  {
    ScanFound(pages, st, reg, q, FindNamed(reg, pages[st.page], "rows").value, 0);
  }

  // ---------------------------------------------------------------- the row stream

  /** What a column read of a row gives once the table is there: the stripped status cell,
      or the normalized text of the cell `value + " td.cell-" + key` under the row. */
  function CellRead(reg: Registry, row: Element, q: Query): Result<string> {
    var key := ColumnKey(q.column);
    if key == "status" then
      match FindInside(reg, row, "status_column")
      case Err(e) => Err(e)
      case Ok(cell) => Ok(Strip(cell.text))
    else
      match Within(row, CssPair(q.table + Cols + key))
      case Err(e) => Err(e)
      case Ok(cell) => Ok(GetElementText(cell))
  }

  /** A row the search passes over: its column reads and does not match. */
  predicate Miss(reg: Registry, row: Element, q: Query) {
    CellRead(reg, row, q).Ok? && !RowMatches(CellRead(reg, row, q).value, q)
  }

  /** A row the search stops at: its column reads and matches. */
  predicate Hit(reg: Registry, row: Element, q: Query) {
    CellRead(reg, row, q).Ok? && RowMatches(CellRead(reg, row, q).value, q)
  }

  /** A column read never raises ValueError: the registry raises IndexError and a missing
      cell NoSuchElement. */
  lemma CellReadNoValueError(reg: Registry, row: Element, q: Query)
    ensures CellRead(reg, row, q) != Err(ValueError)
  {
  }

  /** `_column_value` on a page where the table is present is the column read. */
  lemma ColumnValueIsCellRead(reg: Registry, dom: Dom, row: Element, q: Query)
    requires WaitForElement(reg, dom, "table_container").Ok?
    ensures ColumnValueStep(reg, dom, q.table, row, q.column).0 == CellRead(reg, row, q)
  {
    var key := ColumnKey(q.column);
    if key != "status" {
      UpdatedNewKeys(reg, map["temp_col" := CellEntry(q.table, key)], "temp_col");
    }
  }

  /** Two registries that agree on every name the row search reads. */
  predicate Agree(reg: Registry, base: Registry) {
    Resolve(reg, "table_container") == Resolve(base, "table_container") &&
    Resolve(reg, "rows") == Resolve(base, "rows") &&
    Resolve(reg, "switch_to_page") == Resolve(base, "switch_to_page") &&
    Resolve(reg, "status_column") == Resolve(base, "status_column")
  }

  lemma AgreeTempCol(reg: Registry, base: Registry, e: Entry)
    requires Agree(reg, base)
    ensures Agree(Updated(reg, map["temp_col" := e]), base)
  {
    var t := map["temp_col" := e];
    UpdatedOtherKeys(reg, t, "table_container");
    UpdatedOtherKeys(reg, t, "rows");
    UpdatedOtherKeys(reg, t, "switch_to_page");
    UpdatedOtherKeys(reg, t, "status_column");
  }

  lemma NextPageAgree(pages: seq<Dom>, st: State, reg: Registry, base: Registry)
    requires st.page < |pages| && Agree(reg, base)
    ensures NextPageStep(pages, st, reg) == NextPageStep(pages, st, base)
  {
  }

  /** The rows of one page, each with the state in which the page was read. */
  function Tag(rows: seq<Element>, st: State): (t: seq<(Element, State)>)
    ensures |t| == |rows|
    ensures forall i :: 0 <= i < |rows| ==> t[i] == (rows[i], st)
  {
    seq(|rows|, i requires 0 <= i < |rows| => (rows[i], st))
  }

  /** The rows of a tagged stream. */
  function RowsOf(s: seq<(Element, State)>): (rows: seq<Element>)
    ensures |rows| == |s|
    ensures forall i :: 0 <= i < |s| ==> rows[i] == s[i].0
  {
    seq(|s|, i requires 0 <= i < |s| => s[i].0)
  }

  lemma RowsTag(rows: seq<Element>, st: State, rest: seq<(Element, State)>)
    ensures RowsOf(Tag(rows, st) + rest) == rows + RowsOf(rest)
  {
  }

  /** `get_total_rows_elements`: every row it yields, with the state in which it is yielded,
      and the error that ends the generator (none when `next_page()` is False). */
  ghost function Stream(pages: seq<Dom>, st: State, reg: Registry): (seq<(Element, State)>, Option<Error>)
    requires st.page < |pages| && Forward(pages, reg)
    decreases |pages| - st.page, 1
  {
    var dom := pages[st.page];
    match WaitForElement(reg, dom, "table_container")
    case Err(e) => ([], Some(e))
    case Ok(_) =>
      match FindNamed(reg, dom, "rows")
      case Err(e) => ([], Some(e))
      case Ok(rows) =>
        var (rest, end) := After(pages, st, reg);
        (Tag(rows, st) + rest, end)
  }

  /** What the generator yields after the rows of the current page: `next_page()`, then
      the recursive generator when it is True. */
  ghost function After(pages: seq<Dom>, st: State, reg: Registry): (seq<(Element, State)>, Option<Error>)
    requires st.page < |pages| && Forward(pages, reg)
    decreases |pages| - st.page, 0
  {
    var (more, st1) := NextPageStep(pages, st, reg);
    match more
    case Err(e) => ([], Some(e))
    case Ok(false) => ([], None)
    case Ok(true) =>
      NextPageAdvances(pages, st, reg);
      Stream(pages, st1, reg)
  }

  /** The first row of a stream whose column matches, as a reference search: its index,
      none when every row reads and misses, or the first read's error. */
  function FirstHit(reg: Registry, s: seq<(Element, State)>, q: Query): Result<Option<nat>>
    decreases |s|
  {
    if s == [] then Ok(None)
    else
      match CellRead(reg, s[0].0, q)
      case Err(e) => Err(e)
      case Ok(t) =>
        if RowMatches(t, q) then Ok(Some(0))
        else
          match FirstHit(reg, s[1..], q)
          case Ok(Some(k)) => Ok(Some(k + 1))
          case other => other
  }

  /** Past a row that misses, the search goes on with the rest of the stream. */
  lemma FirstHitMiss(reg: Registry, s: seq<(Element, State)>, q: Query)
    requires s != [] && Miss(reg, s[0].0, q)
    ensures FirstHit(reg, s, q) == (match FirstHit(reg, s[1..], q)
                                    case Ok(Some(k)) => Ok(Some(k + 1))
                                    case other => other)
  {
  }

  /** A found index is a hit, and every row before it misses. */
  lemma {:induction false} FirstHitFound(reg: Registry, s: seq<(Element, State)>, q: Query)
    requires FirstHit(reg, s, q).Ok? && FirstHit(reg, s, q).value.Some?
    ensures var k := FirstHit(reg, s, q).value.value;
            k < |s| && Hit(reg, s[k].0, q) && forall j :: 0 <= j < k ==> Miss(reg, s[j].0, q)
    decreases |s|
  {
    if !Hit(reg, s[0].0, q) {
      FirstHitFound(reg, s[1..], q);
      var k := FirstHit(reg, s[1..], q).value.value;
      assert FirstHit(reg, s, q).value.value == k + 1;
      forall j | 0 <= j < k + 1 ensures Miss(reg, s[j].0, q) {
        if j > 0 { assert s[j] == s[1..][j - 1]; }
      }
    }
  }

  /** No row is found exactly when every row reads and misses. */
  lemma {:induction false} FirstHitNone(reg: Registry, s: seq<(Element, State)>, q: Query)
    ensures FirstHit(reg, s, q) == Ok(None) <==> forall j :: 0 <= j < |s| ==> Miss(reg, s[j].0, q)
    decreases |s|
  {
    if s != [] {
      FirstHitNone(reg, s[1..], q);
      if Miss(reg, s[0].0, q) {
        forall j | 0 <= j < |s| - 1 ensures s[1..][j] == s[j + 1] { }
        assert (forall j :: 0 <= j < |s| ==> Miss(reg, s[j].0, q)) <==>
               (forall j :: 0 <= j < |s| - 1 ==> Miss(reg, s[1..][j].0, q));
      }
    }
  }

  /** A search that fails does so with the error of a row's read, after rows that miss. */
  lemma {:induction false} FirstHitErr(reg: Registry, s: seq<(Element, State)>, q: Query)
    requires FirstHit(reg, s, q).Err?
    ensures exists k :: 0 <= k < |s| && CellRead(reg, s[k].0, q) == Err(FirstHit(reg, s, q).error)
    decreases |s|
  {
    if CellRead(reg, s[0].0, q).Ok? {
      FirstHitErr(reg, s[1..], q);
      var k :| 0 <= k < |s| - 1 && CellRead(reg, s[1..][k].0, q) == Err(FirstHit(reg, s[1..], q).error);
      assert s[1..][k] == s[k + 1];
    }
  }

  /** What `get_row` gives over a stream that ends with `end`: the first matching row, the
      first read's error, or, when every row misses, the generator's own error or the
      for-else's ValueError. */
  function Searched(reg: Registry, s: seq<(Element, State)>, end: Option<Error>, q: Query): Result<Element> {
    match FirstHit(reg, s, q)
    case Err(e) => Err(e)
    case Ok(None) => Err(if end.Some? then end.value else ValueError)
    case Ok(Some(k)) => if k < |s| then Ok(s[k].0) else Err(ValueError)
  }

  /** That the scan from row `i` agrees with the reference search, and ends in the state of
      the row it finds. */
  ghost predicate ScanMatches(pages: seq<Dom>, st: State, reg: Registry, base: Registry, q: Query,
                              rows: seq<Element>, i: nat)
    requires st.page < |pages| && Forward(pages, reg) && Forward(pages, base) && i <= |rows|
  {
    var s := Tag(rows[i..], st) + After(pages, st, base).0;
    var r := ScanRows(pages, st, reg, q, rows, i);
    var h := FirstHit(base, s, q);
    r.0 == Searched(base, s, After(pages, st, base).1, q) &&
    (h.Ok? && h.value.Some? && h.value.value < |s| ==> r.1 == s[h.value.value].1)
  }

  /** The search over a page's rows from row `i` is the reference search over the rest of
      the stream, and a found row leaves the session in the state it was yielded in. */
  lemma {:induction false} ScanAgrees(pages: seq<Dom>, st: State, reg: Registry, base: Registry, q: Query,
                                      rows: seq<Element>, i: nat)
    requires st.page < |pages| && Forward(pages, reg) && Forward(pages, base) && i <= |rows|
    requires Agree(reg, base) && WaitForElement(base, pages[st.page], "table_container").Ok?
    ensures ScanMatches(pages, st, reg, base, q, rows, i)
    decreases |pages| - st.page, 0, |rows| - i, 2
  {
    if i == |rows| {
      ScanEnd(pages, st, reg, base, q, rows);
    } else {
      ScanRow(pages, st, reg, base, q, rows, i);
    }
  }

  /** After the last row of a page, the scan is `next_page()` and the stream's next frame. */
  lemma {:induction false} ScanEnd(pages: seq<Dom>, st: State, reg: Registry, base: Registry, q: Query,
                                   rows: seq<Element>)
    requires st.page < |pages| && Forward(pages, reg) && Forward(pages, base)
    requires Agree(reg, base)
    ensures ScanMatches(pages, st, reg, base, q, rows, |rows|)
    decreases |pages| - st.page, 0, 0, 0
  {
    var (rest, end) := After(pages, st, base);
    assert Tag(rows[|rows|..], st) + rest == rest;
    NextPageAgree(pages, st, reg, base);
    var (more, st1) := NextPageStep(pages, st, base);
    if more == Ok(true) {
      NextPageAdvances(pages, st, base);
      assert ScanRows(pages, st, reg, q, rows, |rows|) == SearchPages(pages, st1, reg, q);
      assert (rest, end) == Stream(pages, st1, base);
      SearchAgrees(pages, st1, reg, base, q);
    } else {
      assert rest == [];
    }
  }

  /** At a row of the page, the scan reads the column: an error or a match ends it, a miss
      moves on to the next row, as the reference search does. */
  lemma {:induction false} ScanRow(pages: seq<Dom>, st: State, reg: Registry, base: Registry, q: Query,
                                   rows: seq<Element>, i: nat)
    requires st.page < |pages| && Forward(pages, reg) && Forward(pages, base) && i < |rows|
    requires Agree(reg, base) && WaitForElement(base, pages[st.page], "table_container").Ok?
    ensures ScanMatches(pages, st, reg, base, q, rows, i)
    decreases |pages| - st.page, 0, |rows| - i, 1
  {
    if Miss(base, rows[i], q) {
      ScanMiss(pages, st, reg, base, q, rows, i);
    } else {
      var s := Tag(rows[i..], st) + After(pages, st, base).0;
      ColumnValueIsCellRead(reg, pages[st.page], rows[i], q);
      assert s[0] == (rows[i], st);
    }
  }

  /** Past a row that misses, the scan goes on at the next row with `temp_col` written. */
  lemma ScanRowsSkip(pages: seq<Dom>, st: State, reg: Registry, base: Registry, q: Query,
                     rows: seq<Element>, i: nat) returns (reg1: Registry)
    requires st.page < |pages| && Forward(pages, reg) && i < |rows|
    requires Agree(reg, base) && WaitForElement(base, pages[st.page], "table_container").Ok?
    requires Miss(base, rows[i], q)
    ensures Forward(pages, reg1) && Agree(reg1, base)
    ensures ScanRows(pages, st, reg, q, rows, i) == ScanRows(pages, st, reg1, q, rows, i + 1)
  {
    ColumnValueIsCellRead(reg, pages[st.page], rows[i], q);
    reg1 := ColumnValueStep(reg, pages[st.page], q.table, rows[i], q.column).1;
    ForwardKept(pages, reg, CellEntry(q.table, ColumnKey(q.column)));
    AgreeTempCol(reg, base, CellEntry(q.table, ColumnKey(q.column)));
  }

  /** A row that misses is passed over by both the scan and the reference search. */
  lemma {:induction false} ScanMiss(pages: seq<Dom>, st: State, reg: Registry, base: Registry, q: Query,
                                    rows: seq<Element>, i: nat)
    requires st.page < |pages| && Forward(pages, reg) && Forward(pages, base) && i < |rows|
    requires Agree(reg, base) && WaitForElement(base, pages[st.page], "table_container").Ok?
    requires Miss(base, rows[i], q)
    ensures ScanMatches(pages, st, reg, base, q, rows, i)
    decreases |pages| - st.page, 0, |rows| - i, 0
  {
    var rest := After(pages, st, base).0;
    var s := Tag(rows[i..], st) + rest;
    var dom := pages[st.page];
    var reg1 := ScanRowsSkip(pages, st, reg, base, q, rows, i);
    assert s[0] == (rows[i], st);
    assert s[1..] == Tag(rows[i + 1..], st) + rest;
    FirstHitMiss(base, s, q);
    ScanAgrees(pages, st, reg1, base, q, rows, i + 1);
    var h1 := FirstHit(base, s[1..], q);
    if h1.Ok? && h1.value.Some? && h1.value.value < |s| - 1 {
      assert s[h1.value.value + 1] == s[1..][h1.value.value];
    }
  }

  lemma {:induction false} SearchAgrees(pages: seq<Dom>, st: State, reg: Registry, base: Registry, q: Query)
    requires st.page < |pages| && Forward(pages, reg) && Forward(pages, base) && Agree(reg, base)
    ensures var (s, end) := Stream(pages, st, base);
            var r := SearchPages(pages, st, reg, q);
            var h := FirstHit(base, s, q);
            r.0 == Searched(base, s, end, q) &&
            (h.Ok? && h.value.Some? && h.value.value < |s| ==> r.1 == s[h.value.value].1)
    decreases |pages| - st.page, 1, 0, 0
  {
    var dom := pages[st.page];
    if WaitForElement(base, dom, "table_container").Ok? && FindNamed(base, dom, "rows").Ok? {
      var rows := FindNamed(base, dom, "rows").value;
      assert rows[0..] == rows;
      ScanAgrees(pages, st, reg, base, q, rows, 0);
    }
  }

  /** `get_row` is the reference search over the row stream, and a found row leaves the
      session in the state in which the stream yielded it. */
  lemma GetRowAgrees(pages: seq<Dom>, st: State, reg: Registry, q: Query)
    requires st.page < |pages| && Forward(pages, reg)
    ensures var (s, end) := Stream(pages, st, reg);
            var r := GetRowStep(pages, st, reg, q);
            var h := FirstHit(reg, s, q);
            r.0 == Searched(reg, s, end, q) &&
            (h.Ok? && h.value.Some? && h.value.value < |s| ==> r.1 == s[h.value.value].1)
  {
    if WaitForElement(reg, pages[st.page], "table_container").Ok? {
      SearchAgrees(pages, st, reg, reg, q);
    }
  }

  /** `get_row` returns the first row of the row stream whose column matches, and stops
      there: the session is left in the state in which that row was yielded, so no later
      page is opened. */
  lemma GetRowFirstMatch(pages: seq<Dom>, st: State, reg: Registry, q: Query)
    requires st.page < |pages| && Forward(pages, reg)
    requires GetRowStep(pages, st, reg, q).0.Ok?
    ensures var (s, _) := Stream(pages, st, reg);
            var (r, post, _) := GetRowStep(pages, st, reg, q);
            exists k :: 0 <= k < |s| && s[k] == (r.value, post) && Hit(reg, r.value, q) &&
              forall j :: 0 <= j < k ==> Miss(reg, s[j].0, q)
  {
    GetRowAgrees(pages, st, reg, q);
    var (s, end) := Stream(pages, st, reg);
    FirstHitFound(reg, s, q);
    var k := FirstHit(reg, s, q).value.value;
    assert s[k] == (GetRowStep(pages, st, reg, q).0.value, GetRowStep(pages, st, reg, q).1);
  }

  /** `get_row` raises ValueError exactly when every row the stream yields was read and
      missed, and the stream ended normally or with `next_page`'s own ValueError. */
  lemma GetRowNotFound(pages: seq<Dom>, st: State, reg: Registry, q: Query)
    requires st.page < |pages| && Forward(pages, reg)
    ensures var (s, end) := Stream(pages, st, reg);
            GetRowStep(pages, st, reg, q).0 == Err(ValueError) <==>
              (forall j :: 0 <= j < |s| ==> Miss(reg, s[j].0, q)) && (end == None || end == Some(ValueError))
  {
    GetRowAgrees(pages, st, reg, q);
    var (s, end) := Stream(pages, st, reg);
    var h := FirstHit(reg, s, q);
    FirstHitNone(reg, s, q);
    if h.Err? {
      FirstHitErr(reg, s, q);
      var k :| 0 <= k < |s| && CellRead(reg, s[k].0, q) == Err(h.error);
      CellReadNoValueError(reg, s[k].0, q);
      assert GetRowStep(pages, st, reg, q).0 == Err(h.error) && h.error != ValueError;
    } else if h.value.Some? {
      FirstHitFound(reg, s, q);
    }
  }

  /** `get_list_of_rows` returns exactly the rows `get_total_rows_elements` yields, when the
      generator ends normally, and the generator's error otherwise: the search cannot skip
      a row of the walk. */
  lemma {:induction false} WalkIsStream(pages: seq<Dom>, st: State, reg: Registry)
    requires st.page < |pages| && Forward(pages, reg)
    ensures var (s, end) := Stream(pages, st, reg);
            Walk(pages, st, reg).0 == (if end.None? then Ok(RowsOf(s)) else Err(end.value))
    decreases |pages| - st.page
  {
    var dom := pages[st.page];
    if WaitForElement(reg, dom, "table_container").Ok? && FindNamed(reg, dom, "rows").Ok? {
      var rows := FindNamed(reg, dom, "rows").value;
      var (more, st1) := NextPageStep(pages, st, reg);
      var (rest, end) := After(pages, st, reg);
      RowsTag(rows, st, rest);
      if more == Ok(true) {
        NextPageAdvances(pages, st, reg);
        assert (rest, end) == Stream(pages, st1, reg);
        assert Stream(pages, st, reg) == (Tag(rows, st) + rest, end);
        assert Walk(pages, st, reg).0 == Prepend(rows, Walk(pages, st1, reg).0);
        WalkIsStream(pages, st1, reg);
        assert RowsOf(Tag(rows, st) + rest) == rows + RowsOf(rest);
      } else if more == Ok(false) {
        assert Walk(pages, st, reg).0 == Ok(rows);
        assert Stream(pages, st, reg) == (Tag(rows, st) + [], None);
        assert Tag(rows, st) + [] == Tag(rows, st) && RowsOf(Tag(rows, st)) == rows;
      } else {
        assert Walk(pages, st, reg).0 == Err(more.error);
        assert Stream(pages, st, reg) == (Tag(rows, st) + [], Some(more.error));
      }
    }
  }


  // ---------------------------------------------------------------- sort_table

  /** `th.text != "" and th.text.lower() == column.lower()`. */
  predicate HeaderMatches(th: Element, column: string) {
    th.text != "" && Lower(th.text) == Lower(column)
  }

  /** The `data-test-sort-dir` branches of `sort_table` on the first matching header, as
      written: from a direction that is neither `order` nor its opposite it clicks once,
      and clicks again only for "desc"; for any other order the loop goes on. */
  function SortScan(count: nat, st: State, headers: seq<Element>, i: nat, column: string, order: string)
    : (r: (Outcome, State))
    requires i <= |headers| && st.page < count
    ensures r.1.page < count
    decreases |headers| - i
  {
    if i == |headers| then (Fail(ValueError), st)
    else
      var th := headers[i];
      if !HeaderMatches(th, column) then SortScan(count, st, headers, i + 1, column, order)
      else
        var dir := Attr(th, "data-test-sort-dir");
        if (order == "asc" && dir == Some("asc")) || (order == "desc" && dir == Some("desc")) then
          (Pass, st)
        else if (order == "asc" && dir == Some("desc")) || (order == "desc" && dir == Some("asc")) then
          ClickEffect(count, st, th)
        else
          var (o, st1) := ClickEffect(count, st, th);
          if o.Fail? then (o, st1)
          else if order == "desc" then ClickEffect(count, st1, th)
          else SortScan(count, st1, headers, i + 1, column, order)
  }

  /** `sort_table`: wait for the head, read the headers and scan them. */
  function SortTableStep(pages: seq<Dom>, st: State, reg: Registry, column: string, order: string)
    : (r: (Outcome, State))
    requires st.page < |pages|
    ensures r.1.page < |pages|
  {
    var dom := pages[st.page];
    match WaitForElement(reg, dom, "table_head")
    case Err(e) => (Fail(e), st)
    case Ok(_) =>
      match FindNamed(reg, dom, "table_headers")
      case Err(e) => (Fail(e), st)
      case Ok(headers) => SortScan(|pages|, st, headers, 0, column, order)
  }

  /** Headers before the first matching one are skipped without any effect. */
  lemma {:induction false} SortScanSkips(count: nat, st: State, headers: seq<Element>, i: nat, k: nat,
                                         column: string, order: string)
    requires i <= k < |headers| && st.page < count
    requires forall j :: i <= j < k ==> !HeaderMatches(headers[j], column)
    ensures SortScan(count, st, headers, i, column, order) == SortScan(count, st, headers, k, column, order)
    decreases k - i
  {
    if i < k {
      SortScanSkips(count, st, headers, i + 1, k, column, order);
    }
  }

  /** On the first matching header: the order it already has costs no click, the opposite
      order one click, and from any other direction "desc" costs two clicks. */
  lemma SortFirstMatch(count: nat, st: State, headers: seq<Element>, k: nat, column: string, order: string)
    requires k < |headers| && st.page < count && HeaderMatches(headers[k], column)
    requires forall j :: 0 <= j < k ==> !HeaderMatches(headers[j], column)
    requires !headers[k].clickFails
    ensures var th := headers[k];
            var dir := Attr(th, "data-test-sort-dir");
            var (o, post) := SortScan(count, st, headers, 0, column, order);
            (order in {"asc", "desc"} && dir == Some(order) ==> o == Pass && post == st) &&
            ((order == "asc" && dir == Some("desc")) || (order == "desc" && dir == Some("asc")) ==>
               o == Pass && post.log == st.log + [Clicked(th)]) &&
            (order == "desc" && dir != Some("asc") && dir != Some("desc") ==>
               o == Pass && post.log == st.log + [Clicked(th), Clicked(th)])
  {
    SortScanSkips(count, st, headers, 0, k, column, order);
  }

  /** With no matching header at all, `sort_table` raises ValueError without a click. */
  lemma {:induction false} SortNoMatch(count: nat, st: State, headers: seq<Element>, i: nat, column: string, order: string)
    requires i <= |headers| && st.page < count
    requires forall j :: i <= j < |headers| ==> !HeaderMatches(headers[j], column)
    ensures SortScan(count, st, headers, i, column, order) == (Fail(ValueError), st)
    decreases |headers| - i
  {
    if i < |headers| {
      SortNoMatch(count, st, headers, i + 1, column, order);
    }
  }

  /** `sort_table(column, "asc")` on an unsorted column whose header is the only match:
      the header is clicked once, the loop goes on and the for-else raises ValueError. */
  lemma SortAscFallsThrough(count: nat, st: State, th: Element, column: string)
    requires st.page < count && HeaderMatches(th, column) && !th.clickFails
    requires Attr(th, "data-test-sort-dir") == None
    ensures var (o, post) := SortScan(count, st, [th], 0, column, "asc");
            o == Fail(ValueError) && post.log == st.log + [Clicked(th)]
  {
  }

  /** The evidently intended branch: from an unsorted column one click sorts ascending,
      a second one descending, and the sort then succeeds. */
  function SortScanIntended(count: nat, st: State, headers: seq<Element>, i: nat, column: string, order: string)
    : (r: (Outcome, State))
    requires i <= |headers| && st.page < count
    ensures r.1.page < count
    decreases |headers| - i
  {
    if i == |headers| then (Fail(ValueError), st)
    else
      var th := headers[i];
      if !HeaderMatches(th, column) then SortScanIntended(count, st, headers, i + 1, column, order)
      else
        var dir := Attr(th, "data-test-sort-dir");
        if (order == "asc" && dir == Some("asc")) || (order == "desc" && dir == Some("desc")) then
          (Pass, st)
        else if (order == "asc" && dir == Some("desc")) || (order == "desc" && dir == Some("asc")) then
          ClickEffect(count, st, th)
        else
          var (o, st1) := ClickEffect(count, st, th);
          if o.Fail? then (o, st1)
          else if order == "desc" then ClickEffect(count, st1, th)
          else (Pass, st1)
  }

  /** With the intended branch, sorting by a column that has a header succeeds whenever its
      clicks go through, for every order and every direction, with at most two clicks. */
  lemma {:induction false} SortIntendedSucceeds(count: nat, st: State, headers: seq<Element>, i: nat,
                                                column: string, order: string)
    requires i <= |headers| && st.page < count
    requires exists j :: i <= j < |headers| && HeaderMatches(headers[j], column)
    requires forall j :: i <= j < |headers| ==> !headers[j].clickFails
    requires order in {"asc", "desc"}
    ensures var (o, post) := SortScanIntended(count, st, headers, i, column, order);
            o == Pass && |st.log| <= |post.log| <= |st.log| + 2
    decreases |headers| - i
  {
    if !HeaderMatches(headers[i], column) {
      SortIntendedSucceeds(count, st, headers, i + 1, column, order);
    }
  }

  // ---------------------------------------------------------------- headers, status, delete

  /** `get_headers`: the stripped texts of the headers whose text is not empty, in order. */
  function Headers(ths: seq<Element>): (hs: seq<string>)
    ensures |hs| <= |ths|
  {
    if ths == [] then []
    else if ths[0].text != "" then [Strip(ths[0].text)] + Headers(ths[1..])
    else Headers(ths[1..])
  }

  /** Every header `get_headers` returns is stripped. */
  lemma {:induction false} HeadersStripped(ths: seq<Element>)
    ensures forall h :: h in Headers(ths) ==> NoEdgeSpace(h)
  {
    if ths != [] {
      HeadersStripped(ths[1..]);
    }
  }

  /** `get_headers`: wait for the head, then keep the non-empty headers. */
  function GetHeadersStep(reg: Registry, dom: Dom): (r: Result<seq<string>>)
    ensures r.Ok? <==> WaitForElement(reg, dom, "table_head").Ok? && "table_headers" in reg
    ensures r.Ok? ==> forall h :: h in r.value ==> NoEdgeSpace(h)
  {
    match WaitForElement(reg, dom, "table_head")
    case Err(e) => Err(e)
    case Ok(_) =>
      match FindNamed(reg, dom, "table_headers")
      case Err(e) => Err(e)
      case Ok(ths) => HeadersStripped(ths); Ok(Headers(ths))
  }

  /** When every header has text, `get_headers` keeps them all, in order, stripped. */
  lemma {:induction false} HeadersAllKept(ths: seq<Element>)
    requires forall i :: 0 <= i < |ths| ==> ths[i].text != ""
    ensures |Headers(ths)| == |ths|
    ensures forall i :: 0 <= i < |ths| ==> Headers(ths)[i] == Strip(ths[i].text)
  {
    if ths != [] {
      HeadersAllKept(ths[1..]);
    }
    forall i | 0 <= i < |ths| ensures Headers(ths)[i] == Strip(ths[i].text) {
      HeadersAt(ths, i);
    }
  }

  /** One position of `HeadersAllKept`. */
  lemma {:induction false} HeadersAt(ths: seq<Element>, i: nat)
    requires forall j :: 0 <= j < |ths| ==> ths[j].text != ""
    requires i < |ths|
    ensures i < |Headers(ths)| && Headers(ths)[i] == Strip(ths[i].text)
    decreases i
  {
    var rest := Headers(ths[1..]);
    assert Headers(ths) == [Strip(ths[0].text)] + rest;
    if i > 0 {
      HeadersAt(ths[1..], i - 1);
      assert ths[1..][i - 1] == ths[i];
    }
  }

  /** The switch is clicked exactly when the wanted state differs from the status label. */
  predicate NeedsToggle(status: string, enable: bool) {
    (status != "enabled" && enable) || (status == "enabled" && !enable)
  }

  /** The part of `update_status` after the row is found: read its trimmed lower-cased
      status label and click the status switch when it is not in the wanted state. */
  function ToggleStep(count: nat, st: State, reg: Registry, row: Element, enable: bool): (r: (Outcome, State))
    ensures st.page < count ==> r.1.page < count
  {
    match FindInside(reg, row, "status_column")
    case Err(e) => (Fail(e), st)
    case Ok(cell) =>
      if NeedsToggle(Lower(Strip(cell.text)), enable) then
        match FindInside(reg, row, "status_button")
        case Err(e) => (Fail(e), st)
        case Ok(button) => ClickEffect(count, st, button)
      else (Pass, st)
  }

  /** `update_status`: find the row, then toggle its switch if needed. */
  function UpdateStatusStep(pages: seq<Dom>, st: State, reg: Registry, table: string, inputName: string, enable: bool)
    : (r: (Outcome, State, Registry))
    requires st.page < |pages| && Forward(pages, reg)
    ensures r.1.page < |pages|
  {
    var (row, st1, reg1) := GetRowStep(pages, st, reg, Query(inputName, "name", false, table));
    match row
    case Err(e) => (Fail(e), st1, reg1)
    case Ok(r) =>
      var (o, st2) := ToggleStep(|pages|, st1, reg1, r, enable);
      (o, st2, reg1)
  }

  /** Once the row is found, the status switch is clicked iff `enable` differs from the
      label saying "enabled"; an already matching status is left alone. */
  lemma ToggleClicksIff(count: nat, st: State, reg: Registry, row: Element, enable: bool)
    requires FindInside(reg, row, "status_column").Ok? && FindInside(reg, row, "status_button").Ok?
    requires !FindInside(reg, row, "status_button").value.clickFails
    ensures var status := Lower(Strip(FindInside(reg, row, "status_column").value.text));
            var button := FindInside(reg, row, "status_button").value;
            var (o, post) := ToggleStep(count, st, reg, row, enable);
            o == Pass &&
            (enable != (status == "enabled") ==> post.log == st.log + [Clicked(button)]) &&
            (enable == (status == "enabled") ==> post == st)
  {
  }

  /** `update_status` of a name no row of the stream carries raises ValueError. */
  lemma UpdateStatusMissing(pages: seq<Dom>, st: State, reg: Registry, table: string, inputName: string, enable: bool)
    requires st.page < |pages| && Forward(pages, reg)
    requires var (s, end) := Stream(pages, st, reg);
             (forall j :: 0 <= j < |s| ==> Miss(reg, s[j].0, Query(inputName, "name", false, table))) && end == None
    ensures UpdateStatusStep(pages, st, reg, table, inputName, enable).0 == Fail(ValueError)
  {
    GetRowNotFound(pages, st, reg, Query(inputName, "name", false, table));
  }

  /** Once `get_row` finds the name, `update_status` toggles the first row of the stream
      that carries it, on the page where that row was read. */
  lemma UpdateStatusTogglesFirstMatch(pages: seq<Dom>, st: State, reg: Registry, table: string, inputName: string, enable: bool)
    requires st.page < |pages| && Forward(pages, reg)
    requires GetRowStep(pages, st, reg, Query(inputName, "name", false, table)).0.Ok?
    ensures var q := Query(inputName, "name", false, table);
            var (s, _) := Stream(pages, st, reg);
            var reg1 := GetRowStep(pages, st, reg, q).2;
            var (o, post, _) := UpdateStatusStep(pages, st, reg, table, inputName, enable);
            exists k :: 0 <= k < |s| && Hit(reg, s[k].0, q) && (forall j :: 0 <= j < k ==> Miss(reg, s[j].0, q)) &&
              (o, post) == ToggleStep(|pages|, s[k].1, reg1, s[k].0, enable)
  {
    GetRowFirstMatch(pages, st, reg, Query(inputName, "name", false, table));
  }

  /** `delete_row` as written: after the popup opens it dispatches to `self.delete_btn`,
      `self.close()` or `self.cancel()`, which no class of the table defines, so the
      AttributeError is caught and the method returns False on every path. */
  function DeleteRowStep(pages: seq<Dom>, st: State, reg: Registry, table: string, inputName: string, action: Option<string>)
    : (r: (bool, State, Registry))
    requires st.page < |pages| && Forward(pages, reg)
    ensures r.1.page < |pages|
  {
    match WaitForElement(reg, pages[st.page], "table_container")
    case Err(_) => (false, st, reg)
    case Ok(_) =>
      var (row, st1, reg1) := GetRowStep(pages, st, reg, Query(inputName, "name", false, table));
      match row
      case Err(_) => (false, st1, reg1)
      case Ok(r) =>
        match FindInside(reg1, r, "delete_btn")
        case Err(_) => (false, st1, reg1)
        case Ok(button) =>
          var (o, st2) := ClickEffect(|pages|, st1, button);
          if o.Fail? then (false, st2, reg1)
          else
            match WaitForElement(reg1, pages[st2.page], "popup")
            case Err(_) => (false, st2, reg1)
            case Ok(_) => (false, st2, reg1)   // AttributeError for every action
  }

  /** As written, `delete_row` never reports success. */
  lemma DeleteRowNeverSucceeds(pages: seq<Dom>, st: State, reg: Registry, table: string, inputName: string, action: Option<string>)
    requires st.page < |pages| && Forward(pages, reg)
    ensures !DeleteRowStep(pages, st, reg, table, inputName, action).0
  {
  }

  /** The button of the delete prompt an action evidently meant. */
  function PromptButton(action: Option<string>): Entry {
    if action == Some("delete") then Entry(Some(CssSelector), DeletePopup + DeleteButton)
    else if action == Some("close") then Entry(Some(CssSelector), DeleteClose)
    else Entry(Some(CssSelector), DeleteCancel)
  }

  /** The evidently intended `delete_row`: the prompt's delete, close or cancel button is
      clicked, the prompt is awaited until it is gone, and the result is True. */
  function DeleteRowIntended(pages: seq<Dom>, st: State, reg: Registry, table: string, inputName: string, action: Option<string>)
    : (r: (bool, State, Registry))
    requires st.page < |pages| && Forward(pages, reg)
    ensures r.1.page < |pages|
  {
    match WaitForElement(reg, pages[st.page], "table_container")
    case Err(_) => (false, st, reg)
    case Ok(_) =>
      var (row, st1, reg1) := GetRowStep(pages, st, reg, Query(inputName, "name", false, table));
      match row
      case Err(_) => (false, st1, reg1)
      case Ok(r) =>
        match FindInside(reg1, r, "delete_btn")
        case Err(_) => (false, st1, reg1)
        case Ok(button) =>
          var (o, st2) := ClickEffect(|pages|, st1, button);
          if o.Fail? then (false, st2, reg1)
          else
            match WaitForElement(reg1, pages[st2.page], "popup")
            case Err(_) => (false, st2, reg1)
            case Ok(_) =>
              match Clickability(pages[st2.page], PromptButton(action))
              case Err(_) => (false, st2, reg1)
              case Ok(choice) =>
                var (o2, st3) := ClickEffect(|pages|, st2, choice);
                if o2.Fail? then (false, st3, reg1)
                else (WaitForElementInvisible(reg1, pages[st3.page], "popup") == Pass, st3, reg1)
  }

  /** The intended `delete_row` is True only when the row was found, the prompt opened,
      its button was clicked and the prompt went away; then exactly two clicks were added
      after the row search, the row's delete button and the prompt's button. */
  lemma DeleteRowIntendedSucceeds(pages: seq<Dom>, st: State, reg: Registry, table: string, inputName: string, action: Option<string>)
    requires st.page < |pages| && Forward(pages, reg)
    requires DeleteRowIntended(pages, st, reg, table, inputName, action).0
    ensures var (row, st1, reg1) := GetRowStep(pages, st, reg, Query(inputName, "name", false, table));
            var post := DeleteRowIntended(pages, st, reg, table, inputName, action).1;
            row.Ok? && FindInside(reg1, row.value, "delete_btn").Ok? &&
            |post.log| == |st1.log| + 2 && post.log[..|st1.log|] == st1.log &&
            post.log[|st1.log|] == Clicked(FindInside(reg1, row.value, "delete_btn").value) &&
            WaitForElementInvisible(reg1, pages[post.page], "popup") == Pass &&
            var button := FindInside(reg1, row.value, "delete_btn").value;
            var st2 := ClickEffect(|pages|, st1, button).1;
            WaitForElement(reg1, pages[st2.page], "popup").Ok? &&
            Clickability(pages[st2.page], PromptButton(action)).Ok? &&
            post.log == st1.log + [Clicked(button), Clicked(Clickability(pages[st2.page], PromptButton(action)).value)]
  {
    var (row, st1, reg1) := GetRowStep(pages, st, reg, Query(inputName, "name", false, table));
    var button := FindInside(reg1, row.value, "delete_btn").value;
    var st2 := ClickEffect(|pages|, st1, button).1;
    var choice := Clickability(pages[st2.page], PromptButton(action)).value;
    var st3 := ClickEffect(|pages|, st2, choice).1;
    assert st3.log == st1.log + [Clicked(button), Clicked(choice)];
  }

  // ---------------------------------------------------------------- the table object

  class AlertTable {
    const driver: Session
    const locator: Locator
    const name: string
    const value: string

    ghost predicate Valid()
      reads this, driver, locator
    {
      driver.Valid() && locator.Valid() && Forward(driver.pages, locator.locators)
    }

    /** `AlertTable(driver, {name: container})`. */
    constructor (driver: Session, name: string, container: Entry)
      requires driver.Valid()
      requires Forward(driver.pages, TableRegistry(name, container))
      ensures Valid() && this.driver == driver && this.name == name && this.value == container.selector
      ensures fresh(locator) && locator.locators == TableRegistry(name, container)
    {
      this.driver := driver;
      this.name := name;
      this.value := container.selector;
      var loc := new Locator(map[name := container]);
      loc.UpdateLocaters(AlertBaseLocators());
      loc.UpdateLocaters(TableLocators(container.selector));
      this.locator := loc;
    }

    /** The shared loop of the three pagination methods. */
    method Follow(key: string, raising: bool) returns (r: Result<bool>)
      requires Valid()
      modifies driver
      ensures Valid()
      ensures (r, driver.Now()) == PageStep(driver.pages, old(driver.Now()), locator.locators, key, raising)
    {
      var dom := driver.Current();
      var w := WaitForElement(locator.locators, dom, "table_container");
      if w.Err? {
        return Err(w.error);
      }
      var entry := locator.GetLocator("switch_to_page");
      if entry.Err? {
        return Err(entry.error);
      }
      var found := FindAll(dom, entry.value);
      if raising && found.Err? {
        return Err(found.error);
      }
      var links := FindElements(dom, entry.value);
      if links == [] {
        return Ok(false);
      }
      var i := 0;
      while i < |links|
        invariant 0 <= i <= |links|
        invariant key !in LinkKeys(links)[..i]
        invariant driver.Now() == old(driver.Now())
      {
        if LinkKey(links[i]) == key {
          FirstIndexAt(LinkKeys(links), key, i);
          if !IsClickable(links[i]) {
            return Ok(false);
          }
          var o := driver.Click(links[i]);
          return Ok(o == Pass);
        }
        NotInExtended(LinkKeys(links), key, i);
        i := i + 1;
      }
      assert LinkKeys(links)[..i] == LinkKeys(links);
      r := Err(ValueError);
    }

    /** `next_page`. */
    method NextPage() returns (r: Result<bool>)
      requires Valid()
      modifies driver
      ensures Valid()
      ensures (r, driver.Now()) == NextPageStep(driver.pages, old(driver.Now()), locator.locators)
    {
      r := Follow("next", true);
    }

    /** `prev_page`. */
    method PrevPage() returns (r: Result<bool>)
      requires Valid()
      modifies driver
      ensures Valid()
      ensures (r, driver.Now()) == PageStep(driver.pages, old(driver.Now()), locator.locators, "prev", false)
    {
      r := Follow("prev", false);
    }

    /** `switch_to(value)`: the link whose text is `value`, compared lower-cased. */
    method SwitchTo(text: string) returns (r: Result<bool>)
      requires Valid()
      modifies driver
      ensures Valid()
      ensures (r, driver.Now()) == PageStep(driver.pages, old(driver.Now()), locator.locators, Lower(text), false)
    {
      r := Follow(Lower(text), false);
    }

    /** `get_list_of_rows(rows)`: the caller's rows followed by the walk's rows. */
    method GetListOfRows(rows: seq<Element>) returns (r: Result<seq<Element>>)
      requires Valid()
      modifies driver
      ensures Valid()
      ensures driver.Now() == Walk(driver.pages, old(driver.Now()), locator.locators).1
      ensures r == Prepend(rows, Walk(driver.pages, old(driver.Now()), locator.locators).0)
      decreases |driver.pages| - driver.page
    {
      ghost var st := driver.Now();
      var dom := driver.Current();
      var w := WaitForElement(locator.locators, dom, "table_container");
      if w.Err? {
        return Err(w.error);
      }
      var current := FindNamed(locator.locators, dom, "rows");
      if current.Err? {
        return Err(current.error);
      }
      var acc := rows + current.value;
      var more := NextPage();
      if more.Err? {
        return Err(more.error);
      }
      if more.value {
        ghost var st1 := driver.Now();
        NextPageAdvances(driver.pages, st, locator.locators);
        r := GetListOfRows(acc);
        assert Walk(driver.pages, st, locator.locators).0 == Prepend(current.value, Walk(driver.pages, st1, locator.locators).0);
        PrependTwice(rows, current.value, Walk(driver.pages, st1, locator.locators).0);
      } else {
        r := Ok(acc);
      }
    }

    /** `get_rows_count`. */
    method GetRowsCount() returns (r: Result<nat>)
      requires Valid()
      modifies driver
      ensures Valid()
      ensures var (w, post) := Walk(driver.pages, old(driver.Now()), locator.locators);
              driver.Now() == post && (w.Ok? ==> r == Ok(|w.value|)) && (w.Err? ==> r == Err(w.error))
    {
      var rows := GetListOfRows([]);
      if rows.Err? {
        return Err(rows.error);
      }
      assert [] + rows.value == rows.value;
      r := Ok(|rows.value|);
    }

    /** `_column_value(row, column)`. */
    method ColumnValue(row: Element, column: string) returns (r: Result<string>)
      requires Valid()
      modifies locator
      ensures Valid()
      ensures (r, locator.locators) == ColumnValueStep(old(locator.locators), driver.Current(), value, row, column)
    {
      var w := WaitForElement(locator.locators, driver.Current(), "table_container");
      if w.Err? {
        return Err(w.error);
      }
      var key := ColumnKey(column);
      if key == "status" {
        var cell := FindInside(locator.locators, row, "status_column");
        if cell.Err? {
          return Err(cell.error);
        }
        r := Ok(Strip(cell.value.text));
      } else {
        ForwardKept(driver.pages, locator.locators, CellEntry(value, key));
        locator.UpdateLocaters(map["temp_col" := CellEntry(value, key)]);
        var cell := FindInside(locator.locators, row, "temp_col");
        if cell.Err? {
          return Err(cell.error);
        }
        r := Ok(GetElementText(cell.value));
      }
    }

    /** `get_row(value, column, is_search)`: the for loop over the lazily paged row stream. */
    method GetRow(match_: string, column: string, isSearch: bool) returns (r: Result<Element>)
      requires Valid()
      modifies driver, locator
      ensures Valid()
      ensures (r, driver.Now(), locator.locators)
              == GetRowStep(driver.pages, old(driver.Now()), old(locator.locators), Query(match_, column, isSearch, value))
    {
      var q := Query(match_, column, isSearch, value);
      var w := WaitForElement(locator.locators, driver.Current(), "table_container");
      if w.Err? {
        return Err(w.error);
      }
      ghost var goal := SearchPages(driver.pages, driver.Now(), locator.locators, q);
      while true
        invariant Valid()
        invariant SearchPages(driver.pages, driver.Now(), locator.locators, q) == goal
        decreases |driver.pages| - driver.page
      {
        ghost var here := driver.Now();
        var dom := driver.Current();
        var head := WaitForElement(locator.locators, dom, "table_container");
        if head.Err? {
          return Err(head.error);
        }
        var found := FindNamed(locator.locators, dom, "rows");
        if found.Err? {
          return Err(found.error);
        }
        var rows := found.value;
        assert ScanRows(driver.pages, here, locator.locators, q, rows, 0) == goal;
        var i := 0;
        while i < |rows|
          invariant 0 <= i <= |rows|
          invariant Valid() && driver.Now() == here
          invariant ScanRows(driver.pages, here, locator.locators, q, rows, i) == goal
          decreases |rows| - i
        {
          ghost var reg0 := locator.locators;
          var cv := ColumnValue(rows[i], column);
          ghost var step := ColumnValueStep(reg0, dom, value, rows[i], column);
          assert (cv, locator.locators) == step;
          ForwardKept(driver.pages, reg0, CellEntry(value, ColumnKey(column)));
          if cv.Err? {
            assert goal == (Err(cv.error), here, locator.locators);
            return Err(cv.error);
          }
          if RowMatches(cv.value, q) {
            assert goal == (Ok(rows[i]), here, locator.locators);
            return Ok(rows[i]);
          }
          assert goal == ScanRows(driver.pages, here, locator.locators, q, rows, i + 1);
          i := i + 1;
        }
        var more := NextPage();
        if more.Err? {
          assert goal == (Err(more.error), driver.Now(), locator.locators);
          return Err(more.error);
        }
        if !more.value {
          assert goal == (Err(ValueError), driver.Now(), locator.locators);
          return Err(ValueError);
        }
        NextPageAdvances(driver.pages, here, locator.locators);
        assert goal == SearchPages(driver.pages, driver.Now(), locator.locators, q);
      }
    }

    /** `sort_table(column, order)`. */
    method SortTable(column: string, order: string) returns (r: Outcome)
      requires Valid()
      modifies driver
      ensures Valid()
      ensures (r, driver.Now()) == SortTableStep(driver.pages, old(driver.Now()), locator.locators, column, order)
    {
      var dom := driver.Current();
      var w := WaitForElement(locator.locators, dom, "table_head");
      if w.Err? {
        return Fail(w.error);
      }
      var found := FindNamed(locator.locators, dom, "table_headers");
      if found.Err? {
        return Fail(found.error);
      }
      var headers := found.value;
      ghost var goal := SortScan(|driver.pages|, driver.Now(), headers, 0, column, order);
      var i := 0;
      while i < |headers|
        invariant 0 <= i <= |headers|
        invariant Valid()
        invariant SortScan(|driver.pages|, driver.Now(), headers, i, column, order) == goal
        decreases |headers| - i
      {
        var th := headers[i];
        if HeaderMatches(th, column) {
          var dir := Attr(th, "data-test-sort-dir");
          if (order == "asc" && dir == Some("asc")) || (order == "desc" && dir == Some("desc")) {
            return Pass;
          } else if (order == "asc" && dir == Some("desc")) || (order == "desc" && dir == Some("asc")) {
            r := driver.Click(th);
            return;
          } else {
            var o := driver.Click(th);
            if o.Fail? {
              return o;
            }
            if order == "desc" {
              r := driver.Click(th);
              return;
            }
          }
        }
        i := i + 1;
      }
      r := Fail(ValueError);
    }

    /** `get_headers`. */
    method GetHeaders() returns (r: Result<seq<string>>)
      requires Valid()
      ensures r == GetHeadersStep(locator.locators, driver.Current())
    {
      var dom := driver.Current();
      var w := WaitForElement(locator.locators, dom, "table_head");
      if w.Err? {
        return Err(w.error);
      }
      var found := FindNamed(locator.locators, dom, "table_headers");
      if found.Err? {
        return Err(found.error);
      }
      var ths := found.value;
      var headers := [];
      var i := 0;
      while i < |ths|
        invariant 0 <= i <= |ths|
        invariant headers + Headers(ths[i..]) == Headers(ths)
        decreases |ths| - i
      {
        assert ths[i..][1..] == ths[i + 1..];
        if ths[i].text != "" {
          headers := headers + [Strip(ths[i].text)];
        }
        i := i + 1;
      }
      assert ths[i..] == [];
      assert headers + [] == headers;
      r := Ok(headers);
    }

    /** The status switch of a found row. */
    method Toggle(row: Element, enable: bool) returns (r: Outcome)
      requires Valid()
      modifies driver
      ensures Valid()
      ensures (r, driver.Now()) == ToggleStep(|driver.pages|, old(driver.Now()), locator.locators, row, enable)
    {
      var cell := FindInside(locator.locators, row, "status_column");
      if cell.Err? {
        return Fail(cell.error);
      }
      if NeedsToggle(Lower(Strip(cell.value.text)), enable) {
        var button := FindInside(locator.locators, row, "status_button");
        if button.Err? {
          return Fail(button.error);
        }
        r := driver.Click(button.value);
      } else {
        r := Pass;
      }
    }

    /** `update_status(input_name, enable)`. */
    method UpdateStatus(inputName: string, enable: bool) returns (r: Outcome)
      requires Valid()
      modifies driver, locator
      ensures Valid()
      ensures (r, driver.Now(), locator.locators)
              == UpdateStatusStep(driver.pages, old(driver.Now()), old(locator.locators), value, inputName, enable)
    {
      var row := GetRow(inputName, "name", false);
      if row.Err? {
        return Fail(row.error);
      }
      r := Toggle(row.value, enable);
    }

    /** `delete_row(input_name, action)`, as written. */
    method DeleteRow(inputName: string, action: Option<string>) returns (ok: bool)
      requires Valid()
      modifies driver, locator
      ensures Valid()
      ensures (ok, driver.Now(), locator.locators)
              == DeleteRowStep(driver.pages, old(driver.Now()), old(locator.locators), value, inputName, action)
    {
      var w := WaitForElement(locator.locators, driver.Current(), "table_container");
      if w.Err? {
        return false;
      }
      var row := GetRow(inputName, "name", false);
      if row.Err? {
        return false;
      }
      var button := FindInside(locator.locators, row.value, "delete_btn");
      if button.Err? {
        return false;
      }
      var o := driver.Click(button.value);
      if o.Fail? {
        return false;
      }
      var popup := WaitForElement(locator.locators, driver.Current(), "popup");
      // `self.delete_btn`, `self.close()` and `self.cancel()` raise AttributeError.
      ok := false;
    }
  }
}
