/** `Select`: the single- and multi-select form widget. Its registry depends on four
    flags; its actions are step functions over the session `State`, and the class's
    methods are proved against them. */
module Selects {
  import opened Outcomes
  import opened Text
  import opened Locators
  import opened Browser
  import opened AlertComponentActions
  import opened Components
  import opened Widgets

  const SingleButton := " [data-test=\"select\"]"
  const MultiButton := " [data-test=\"multiselect\"] [data-test=\"textbox\"]"
  const ComboBox := " [data-test=\"combo-box\"]"
  const CancelButton := " [data-test=\"clear\"]"
  const MultiSelected := " [data-test=\"selected-option\"] div[data-test=\"label\"]"
  const Deselected := " [data-test=\"selected-option\"] div[data-test=\"label\"]"
  const ValuesLocator := " [data-test=\"option\"]"
  const Popover := "[data-test=\"popover\"]"

  /** The name `Base.__init__` gives the widget: the first key of its container. */
  const BaseName := "base_selector"

  /** The constructor's flags. */
  datatype Flags = Flags(multi: bool, single: bool, index: bool, searchable: bool)

  /** `search_div`. */
  function SearchDiv(base: string, f: Flags): string {
    if f.searchable && f.index then base + " [data-test=\"combo-box\"] [data-test=\"textbox\"]"
    else Popover + " [data-test=\"textbox\"]"
  }

  /** `select_common_locator`. */
  function CommonLocators(base: string, f: Flags): Registry {
    map[
      "values" := Css(Popover + ValuesLocator),
      "search_box" := Css(SearchDiv(base, f)),
      "load_values" := Css("[data-test-loading=\"true\"]")
    ]
  }

  /** `_initialize_multi_select`. */
  function MultiLocators(base: string): Registry {
    map[
      "open" := Css(base + MultiButton),
      "selected" := Css(base + MultiSelected),
      "cancel_selected" := Css(base + Deselected)
    ]
  }

  /** `_initialize_single_select`. `self.name` is `"base_selector"` by then, because
      `Base.__init__` rebinds it to the container's first key. */
  function SingleLocators(how: Option<By>, base: string, f: Flags): Registry {
    map[
      BaseName := Entry(how, base),
      "cancel_selected" := Css(if !f.index then base + CancelButton else ComboBox + CancelButton),
      "open" := Css(base + (if f.index then ComboBox else SingleButton)),
      "selected" := Css(if f.searchable && f.index then base + ComboBox else base + SingleButton)
    ]
  }

  /** The registry after `Select.__init__`. */
  function SelectRegistry(how: Option<By>, value: string, f: Flags): Registry {
    var base := ControlGroup(value);
    var r0 := Updated(BaseRegistry(BaseName, Css(base)), CommonLocators(base, f));
    var r1 := if f.multi then Updated(r0, MultiLocators(base)) else r0;
    if f.single then Updated(r1, SingleLocators(how, base, f)) else r1
  }

  /** The registered names: the caller's `name` is not among them (unless it happens to be
      one of these), and open/selected/cancel_selected exist only for a multi- or a
      single-select. */
  lemma SelectRegistryKeys(how: Option<By>, value: string, f: Flags)
    ensures SelectRegistry(how, value, f).Keys ==
            {BaseName, "label_component", "tooltip", "icon", "help", "values", "search_box", "load_values"} +
            (if f.multi || f.single then {"open", "selected", "cancel_selected"} else {})
  {
    var base := ControlGroup(value);
    CommonRegistryKeys(value, f);
    PairKeys(base, how, f);
    LayeredKeys(Updated(BaseRegistry(BaseName, Css(base)), CommonLocators(base, f)),
                MultiLocators(base), SingleLocators(how, base, f), f);
  }

  /** The keys of the registry built in layers, whatever the pairs of each layer are. */
  lemma LayeredKeys(r0: Registry, multi: Registry, single: Registry, f: Flags)
    requires r0.Keys == {BaseName, "label_component", "tooltip", "icon", "help", "values", "search_box", "load_values"}
    requires multi.Keys == {"open", "selected", "cancel_selected"}
    requires single.Keys == {BaseName, "open", "selected", "cancel_selected"}
    ensures var r1 := if f.multi then Updated(r0, multi) else r0;
            (if f.single then Updated(r1, single) else r1).Keys ==
            r0.Keys + (if f.multi || f.single then multi.Keys else {})
  {
    var r1 := if f.multi then Updated(r0, multi) else r0;
    if f.multi {
      UpdatedKeys(r0, multi);
    }
    if f.single {
      UpdatedKeys(r1, single);
    }
  }

  /** The names every select registers, before the multi- and single-select pairs. */
  lemma CommonRegistryKeys(value: string, f: Flags)
    ensures var base := ControlGroup(value);
            Updated(BaseRegistry(BaseName, Css(base)), CommonLocators(base, f)).Keys ==
            {BaseName, "label_component", "tooltip", "icon", "help", "values", "search_box", "load_values"}
  {
    var base := ControlGroup(value);
    UpdatedKeys(BaseRegistry(BaseName, Css(base)), CommonLocators(base, f));
    PairKeys(base, None, f);
  }

  /** The names each group of pairs registers, for any container selector. */
  lemma PairKeys(base: string, how: Option<By>, f: Flags)
    ensures CommonLocators(base, f).Keys == {"values", "search_box", "load_values"}
    ensures MultiLocators(base).Keys == {"open", "selected", "cancel_selected"}
    ensures SingleLocators(how, base, f).Keys == {BaseName, "open", "selected", "cancel_selected"}
  {
  }

  /** The search box is the combo-box textbox under the base iff the widget is searchable
      and indexed, and the popover textbox otherwise. */
  lemma SearchBoxLocator(how: Option<By>, value: string, f: Flags)
    ensures Resolve(SelectRegistry(how, value, f), "search_box") ==
            Ok(Entry(Some(CssSelector),
                     if f.searchable && f.index
                     then ControlGroup(value) + " [data-test=\"combo-box\"] [data-test=\"textbox\"]"
                     else Popover + " [data-test=\"textbox\"]"))
  {
    var base := ControlGroup(value);
    var r0 := Updated(BaseRegistry(BaseName, Css(base)), CommonLocators(base, f));
    UpdatedNewKeys(BaseRegistry(BaseName, Css(base)), CommonLocators(base, f), "search_box");
    var r1 := if f.multi then Updated(r0, MultiLocators(base)) else r0;
    if f.multi {
      UpdatedOtherKeys(r0, MultiLocators(base), "search_box");
    }
    if f.single {
      UpdatedOtherKeys(r1, SingleLocators(how, base, f), "search_box");
    }
  }

  /** Single-select: "selected" is the combo box iff searchable and indexed, "open" the
      combo box iff indexed, and "cancel_selected" the clear button under the base, except
      for an indexed widget, where it loses the base prefix. The base selector takes the
      caller's strategy. This overrides any multi-select pairs. */
  lemma SingleSelectLocators(how: Option<By>, value: string, f: Flags)
    requires f.single
    ensures var reg := SelectRegistry(how, value, f);
            var base := ControlGroup(value);
            Resolve(reg, "selected") ==
              Ok(CssPair(if f.searchable && f.index then base + ComboBox else base + SingleButton)) &&
            Resolve(reg, "open") == Ok(CssPair(base + (if f.index then ComboBox else SingleButton))) &&
            Resolve(reg, "cancel_selected") ==
              Ok(CssPair(if f.index then ComboBox + CancelButton else base + CancelButton)) &&
            Resolve(reg, BaseName) == Ok(NormalizeEntry(Entry(how, base)))
  {
    var base := ControlGroup(value);
    var r0 := Updated(BaseRegistry(BaseName, Css(base)), CommonLocators(base, f));
    var r1 := if f.multi then Updated(r0, MultiLocators(base)) else r0;
    var s := SingleLocators(how, base, f);
    UpdatedNewKeys(r1, s, "selected");
    UpdatedNewKeys(r1, s, "open");
    UpdatedNewKeys(r1, s, "cancel_selected");
    UpdatedNewKeys(r1, s, BaseName);
  }

  /** Multi-select alone registers open/selected/cancel_selected under the base prefix. */
  lemma MultiSelectLocators(how: Option<By>, value: string, f: Flags)
    requires f.multi && !f.single
    ensures var reg := SelectRegistry(how, value, f);
            var base := ControlGroup(value);
            Resolve(reg, "open") == Ok(CssPair(base + MultiButton)) &&
            Resolve(reg, "selected") == Ok(CssPair(base + MultiSelected)) &&
            Resolve(reg, "cancel_selected") == Ok(CssPair(base + Deselected))
  {
    var base := ControlGroup(value);
    var r0 := Updated(BaseRegistry(BaseName, Css(base)), CommonLocators(base, f));
    UpdatedNewKeys(r0, MultiLocators(base), "open");
    UpdatedNewKeys(r0, MultiLocators(base), "selected");
    UpdatedNewKeys(r0, MultiLocators(base), "cancel_selected");
  }

  /** The indexed single-select branch of `deselect`: wait until the options stop loading,
      open the widget, click its clear button, press Escape. */
  function DeselectIndexedStep(pages: seq<Dom>, st: State, reg: Registry): (r: (bool, State))
    requires st.page < |pages|
    ensures r.1.page < |pages|
  {
    if WaitForElementInvisible(reg, pages[st.page], "load_values").Fail? then (false, st)
    else
      var (o1, s1) := ClickElementStep(|pages|, pages[st.page], st, reg, "open");
      if o1.Fail? then (false, s1)
      else
        var (o2, s2) := ClickElementStep(|pages|, pages[s1.page], s1, reg, "cancel_selected");
        if o2.Fail? then (false, s2) else (true, EscapeEffect(s2))
  }

  /** The multi-select branch of `deselect`: click every selected chip whose label is
      `value`, case-insensitively, then press Escape. */
  function DeselectChipsStep(pages: seq<Dom>, st: State, reg: Registry, value: string): (r: (bool, State))
    requires st.page < |pages|
    ensures r.1.page < |pages|
  {
    match Resolve(reg, "cancel_selected")
    case Err(_) => (false, st)
    case Ok(e) =>
      var (o, s) := ClickAll(|pages|, st, WithLabel(FindElements(pages[st.page], e), Lower(value)));
      if o.Fail? then (false, s) else (true, EscapeEffect(s))
  }

  /** `deselect(value)`: each handled branch returns True, any exception inside them gives
      False, and when no branch applies ValueError is raised. */
  function DeselectStep(pages: seq<Dom>, st: State, reg: Registry, f: Flags, value: Option<string>)
    : (r: (Result<bool>, State))
    requires st.page < |pages|
    ensures r.1.page < |pages|
  {
    if f.single && !f.index then
      var (o, s) := ClickElementStep(|pages|, pages[st.page], st, reg, "cancel_selected");
      (Ok(o.Pass?), s)
    else if f.single && f.index then
      var (b, s) := DeselectIndexedStep(pages, st, reg);
      (Ok(b), s)
    else if f.multi && Truthy(value) then
      var (b, s) := DeselectChipsStep(pages, st, reg, value.value);
      (Ok(b), s)
    else (Err(ValueError), st)
  }

  /** `deselect` raises exactly when no branch applies (not single-select, and not a
      multi-select given a value), and then changes nothing; otherwise it returns a
      boolean. */
  lemma DeselectRaisesIff(pages: seq<Dom>, st: State, reg: Registry, f: Flags, value: Option<string>)
    requires st.page < |pages|
    ensures var (r, post) := DeselectStep(pages, st, reg, f, value);
            (r.Err? <==> !f.single && !(f.multi && Truthy(value))) &&
            (r.Err? ==> r.error == ValueError && post == st)
  {
  }

  /** A multi-select given a value returns True iff every chip labelled with it could be
      clicked, and then has clicked exactly those chips, in order, and pressed Escape. */
  lemma DeselectChipsClicksMatches(pages: seq<Dom>, st: State, reg: Registry, value: string)
    requires st.page < |pages| && "cancel_selected" in reg
    ensures var chips := WithLabel(FindElements(pages[st.page], reg["cancel_selected"]), Lower(value));
            var (r, post) := DeselectChipsStep(pages, st, reg, value);
            (r <==> forall i :: 0 <= i < |chips| ==> !chips[i].clickFails) &&
            (r ==> post.log == st.log + Clicks(chips) + [Escaped])
  {
    var chips := WithLabel(FindElements(pages[st.page], reg["cancel_selected"]), Lower(value));
    ChipsStepUnfold(pages, st, reg, value, chips);
    ClickAllPassIff(|pages|, st, chips);
    if forall i :: 0 <= i < |chips| ==> !chips[i].clickFails {
      ClickAllSucceeds(|pages|, st, chips);
    }
  }

  /** `DeselectChipsStep` once the chips are known. */
  lemma ChipsStepUnfold(pages: seq<Dom>, st: State, reg: Registry, value: string, chips: seq<Element>)
    requires st.page < |pages| && "cancel_selected" in reg
    requires chips == WithLabel(FindElements(pages[st.page], reg["cancel_selected"]), Lower(value))
    ensures var (o, s) := ClickAll(|pages|, st, chips);
            DeselectChipsStep(pages, st, reg, value) == (if o.Fail? then (false, s) else (true, EscapeEffect(s)))
  {
  }

  /** `deselect_all`: only a multi-select has it; every chip is clicked, Escape is pressed
      on success and on failure, and a failing click gives False. */
  function DeselectAllStep(pages: seq<Dom>, st: State, reg: Registry, f: Flags): (r: (Result<bool>, State))
    requires st.page < |pages|
    ensures r.1.page < |pages|
  {
    if !f.multi then (Err(ValueError), st)
    else
      match Resolve(reg, "cancel_selected")
      case Err(_) => (Ok(false), EscapeEffect(st))
      case Ok(e) =>
        var (o, s) := ClickAll(|pages|, st, FindElements(pages[st.page], e));
        (Ok(o.Pass?), EscapeEffect(s))
  }

  /** `deselect_all` on a widget that is not multi-select raises ValueError and changes
      nothing; on a multi-select it always ends with Escape, and returns True iff every
      chip could be clicked. */
  lemma DeselectAllContract(pages: seq<Dom>, st: State, reg: Registry, f: Flags)
    requires st.page < |pages| && "cancel_selected" in reg
    ensures var (r, post) := DeselectAllStep(pages, st, reg, f);
            var chips := FindElements(pages[st.page], reg["cancel_selected"]);
            (!f.multi ==> r == Err(ValueError) && post == st) &&
            (f.multi ==> r.Ok? && post.log != [] && post.log[|post.log| - 1] == Escaped &&
                         (r.value <==> forall i :: 0 <= i < |chips| ==> !chips[i].clickFails))
  {
    ClickAllPassIff(|pages|, st, FindElements(pages[st.page], reg["cancel_selected"]));
  }

  /** `_search(value)`: clear first for an indexed searchable single-select, type the value
      in the search box, wait for the options. */
  function SearchStep(pages: seq<Dom>, st: State, reg: Registry, f: Flags, value: string): (r: (Outcome, State))
    requires st.page < |pages|
    ensures r.1.page < |pages|
  {
    var (o1, s1) := if f.searchable && !f.multi && f.index
                    then ClickElementStep(|pages|, pages[st.page], st, reg, "cancel_selected")
                    else (Pass, st);
    if o1.Fail? then (o1, s1)
    else
      var (o2, s2) := EnterTextStep(pages[s1.page], s1, reg, "search_box", value);
      if o2.Fail? then (o2, s2)
      else
        match WaitForElement(reg, pages[s2.page], "values")
        case Err(e) => (Fail(e), s2)
        case Ok(_) => (Pass, s2)
  }

  /** What `select` does before it waits for the options: the deselect its flags call
      for, whose result is ignored, the click on "open", and the search of a searchable
      widget that is not indexed. */
  function SelectPrelude(pages: seq<Dom>, st: State, reg: Registry, f: Flags, value: string, deselectFirst: bool)
    : (r: (Outcome, State))
    requires st.page < |pages|
    ensures r.1.page < |pages|
  {
    var s0 := if f.single && f.index then DeselectStep(pages, st, reg, f, None).1
              else if deselectFirst && f.multi then DeselectAllStep(pages, st, reg, f).1
              else st;
    var (o1, s1) := ClickElementStep(|pages|, pages[s0.page], s0, reg, "open");
    if o1.Fail? then (o1, s1)
    else if f.searchable && !f.index then SearchStep(pages, s1, reg, f, value)
    else (Pass, s1)
  }

  /** `select(value, deselect_first)`. */
  function SelectStep(pages: seq<Dom>, st: State, reg: Registry, f: Flags, value: string, deselectFirst: bool)
    : (r: (Result<bool>, State))
    requires st.page < |pages|
    ensures r.1.page < |pages|
  {
    var (o, s) := SelectPrelude(pages, st, reg, f, value, deselectFirst);
    if o.Fail? then (Err(o.error), s)
    else
      match WaitAndFind(reg, pages[s.page], "values")
      case Err(e) => (Err(e), s)
      case Ok(els) => PickStep(|pages|, s, els, FoldedTexts(els), Lower(value))
  }

  /** Once the options are shown, `select` clicks the first option whose stripped
      lower-cased text is `value.lower()` and returns True, and with no such option raises
      ValueError without clicking; it never returns False. */
  lemma SelectClicksFirstMatch(pages: seq<Dom>, st: State, reg: Registry, f: Flags, value: string, deselectFirst: bool)
    requires st.page < |pages|
    requires SelectPrelude(pages, st, reg, f, value, deselectFirst).0 == Pass
    requires var s := SelectPrelude(pages, st, reg, f, value, deselectFirst).1;
             WaitAndFind(reg, pages[s.page], "values").Ok?
    ensures var s := SelectPrelude(pages, st, reg, f, value, deselectFirst).1;
            var els := WaitAndFind(reg, pages[s.page], "values").value;
            var (r, post) := SelectStep(pages, st, reg, f, value, deselectFirst);
            r != Ok(false) &&
            (Lower(value) !in FoldedTexts(els) ==> r == Err(ValueError) && post == s) &&
            (Lower(value) in FoldedTexts(els) ==>
               exists i :: 0 <= i < |els| && Folded(els[i].text) == Lower(value) &&
                 Lower(value) !in FoldedTexts(els)[..i] &&
                 (!els[i].clickFails ==> r == Ok(true) && post.log == s.log + [Clicked(els[i])]))
  {
    var s := SelectPrelude(pages, st, reg, f, value, deselectFirst).1;
    var els := WaitAndFind(reg, pages[s.page], "values").value;
    PickClicksFirstMatch(|pages|, s, els, FoldedTexts(els), Lower(value));
  }

  /** The clicks one option gets: one per requested value it matches. */
  function Hits(el: Element, values: seq<string>): (r: seq<Element>)
    decreases |values|
  {
    if values == [] then []
    else Hits(el, values[..|values| - 1]) +
         (if Folded(el.text) == Lower(values[|values| - 1]) then [el] else [])
  }

  /** One more requested value adds its own click, if it matches, at the end. */
  lemma HitsLast(el: Element, values: seq<string>, v: string)
    ensures Hits(el, values + [v]) == Hits(el, values) + (if Folded(el.text) == Lower(v) then [el] else [])
  {
    var e := values + [v];
    assert e[..|e| - 1] == values;
    assert e[|e| - 1] == v;
  }

  /** The clicks for two runs of requested values are the clicks of each, in order. */
  lemma {:induction false} HitsAppend(el: Element, a: seq<string>, b: seq<string>)
    ensures Hits(el, a + b) == Hits(el, a) + Hits(el, b)
    decreases |b|
  {
    if b == [] {
      assert a + b == a;
    } else {
      var init := b[..|b| - 1];
      var last := b[|b| - 1];
      SnocSplit(a, b);
      var x, y, z := Hits(el, a), Hits(el, init), if Folded(el.text) == Lower(last) then [el] else [];
      calc {
        Hits(el, a + b);
        { HitsLast(el, a + init, last); }
        Hits(el, a + init) + z;
        { HitsAppend(el, a, init); }
        (x + y) + z;
        { AppendAssoc(x, y, z); }
        x + (y + z);
        { HitsLast(el, init, last); }
        Hits(el, a) + Hits(el, b);
      }
    }
  }

  /** An option is clicked only by itself, and at least once iff it matches some
      requested value. */
  lemma {:induction false} HitsIff(el: Element, values: seq<string>)
    ensures forall x :: x in Hits(el, values) ==> x == el
    ensures Hits(el, values) != [] <==> exists v :: v in values && Folded(el.text) == Lower(v)
    decreases |values|
  {
    if values != [] {
      var init := values[..|values| - 1];
      var last := values[|values| - 1];
      SnocSplit([], values);
      HitsLast(el, init, last);
      HitsIff(el, init);
      if Folded(el.text) == Lower(last) {
        assert last in values;
      } else {
        forall v | v in values && Folded(el.text) == Lower(v) ensures v in init {
          assert v in init || v == last;
        }
        forall v | v in init ensures v in values { }
      }
    }
  }

  /** The clicks `select_multiple_values` makes, option by option. */
  function MatchClicks(els: seq<Element>, values: seq<string>): seq<Element>
    decreases |els|
  {
    if els == [] then [] else MatchClicks(els[..|els| - 1], values) + Hits(els[|els| - 1], values)
  }

  /** One more option adds its own clicks at the end. */
  lemma MatchClicksSnoc(els: seq<Element>, el: Element, values: seq<string>)
    ensures MatchClicks(els + [el], values) == MatchClicks(els, values) + Hits(el, values)
  {
    var e := els + [el];
    assert e[..|e| - 1] == els;
    assert e[|e| - 1] == el;
  }

  lemma AppendAssoc<T>(a: seq<T>, b: seq<T>, c: seq<T>)
    ensures a + (b + c) == (a + b) + c
  {
  }

  /** `a + b` is `a` followed by all of `b` but its last element, then that element. */
  lemma SnocSplit<T>(a: seq<T>, b: seq<T>)
    requires b != []
    ensures b == b[..|b| - 1] + [b[|b| - 1]]
    ensures a + b == (a + b[..|b| - 1]) + [b[|b| - 1]]
  {
  }

  /** The clicks for two runs of options are the clicks of each, in order. */
  lemma {:induction false} MatchClicksAppend(a: seq<Element>, b: seq<Element>, values: seq<string>)
    ensures MatchClicks(a + b, values) == MatchClicks(a, values) + MatchClicks(b, values)
    decreases |b|
  {
    if b == [] {
      assert a + b == a;
    } else {
      var init := b[..|b| - 1];
      var last := b[|b| - 1];
      SnocSplit(a, b);
      var x, y, z := MatchClicks(a, values), MatchClicks(init, values), Hits(last, values);
      calc {
        MatchClicks(a + b, values);
        { MatchClicksSnoc(a + init, last, values); }
        MatchClicks(a + init, values) + z;
        { MatchClicksAppend(a, init, values); }
        (x + y) + z;
        { AppendAssoc(x, y, z); }
        x + (y + z);
        { MatchClicksSnoc(init, last, values); }
        MatchClicks(a, values) + MatchClicks(b, values);
      }
    }
  }

  /** The clicked elements are exactly the options matching some requested value. */
  lemma {:induction false} MatchClicksIff(els: seq<Element>, values: seq<string>, x: Element)
    ensures x in MatchClicks(els, values) <==>
            x in els && exists v :: v in values && Folded(x.text) == Lower(v)
    decreases |els|
  {
    if els != [] {
      var init := els[..|els| - 1];
      var last := els[|els| - 1];
      SnocSplit([], els);
      MatchClicksSnoc(init, last, values);
      MatchClicksIff(init, values, x);
      HitsIff(last, values);
      assert x in els <==> x in init || x == last;
      if x == last && Hits(last, values) != [] {
        assert Hits(last, values)[0] in Hits(last, values);
      }
    }
  }

  /** `select_multiple_values(values)`: nothing but True for a widget that is not
      multi-select; otherwise deselect all, wait for the options, and click each option
      once per value it matches. */
  function SelectMultipleStep(pages: seq<Dom>, st: State, reg: Registry, f: Flags, values: seq<string>)
    : (r: (Result<bool>, State))
    requires st.page < |pages|
    ensures r.1.page < |pages|
  {
    if !f.multi then (Ok(true), st)
    else
      var s0 := DeselectAllStep(pages, st, reg, f).1;
      match WaitAndFind(reg, pages[s0.page], "values")
      case Err(e) => (Err(e), s0)
      case Ok(els) =>
        var (o, s) := ClickAll(|pages|, s0, MatchClicks(els, values));
        (if o.Pass? then Ok(true) else Err(ClickFailed), s)
  }

  /** `select_multiple_values` returns True whenever it does not raise, and is a no-op for
      a widget that is not multi-select. */
  lemma SelectMultipleAlwaysTrue(pages: seq<Dom>, st: State, reg: Registry, f: Flags, values: seq<string>)
    requires st.page < |pages|
    ensures var (r, post) := SelectMultipleStep(pages, st, reg, f, values);
            r != Ok(false) && (!f.multi ==> r == Ok(true) && post == st)
  {
    if f.multi {
      var s0 := DeselectAllStep(pages, st, reg, f).1;
      var w := WaitAndFind(reg, pages[s0.page], "values");
      if w.Ok? {
        var (o, s) := ClickAll(|pages|, s0, MatchClicks(w.value, values));
        assert SelectMultipleStep(pages, st, reg, f, values) == (if o.Pass? then Ok(true) else Err(ClickFailed), s);
      } else {
        assert SelectMultipleStep(pages, st, reg, f, values) == (Err(w.error), s0);
      }
    }
  }

  /** On a multi-select whose options show, `select_multiple_values` succeeds iff every
      click it makes goes through. */
  lemma SelectMultipleIff(pages: seq<Dom>, st: State, reg: Registry, f: Flags, values: seq<string>)
    requires st.page < |pages| && f.multi
    requires WaitAndFind(reg, pages[DeselectAllStep(pages, st, reg, f).1.page], "values").Ok?
    ensures SelectMultipleStep(pages, st, reg, f, values).0 == Ok(true) <==>
            NoneFails(MatchClicks(WaitAndFind(reg, pages[DeselectAllStep(pages, st, reg, f).1.page], "values").value, values))
  {
    var s0 := DeselectAllStep(pages, st, reg, f).1;
    var w := WaitAndFind(reg, pages[s0.page], "values");
    var clicks := MatchClicks(w.value, values);
    var (o, s) := ClickAll(|pages|, s0, clicks);
    assert SelectMultipleStep(pages, st, reg, f, values) == (if o.Pass? then Ok(true) else Err(ClickFailed), s);
    ClickAllPassIff(|pages|, s0, clicks);
  }

  /** `get_all_options`: the stripped option texts in order, followed, for a multi-select,
      by the stripped texts of its selected chips. */
  function GetAllOptionsStep(pages: seq<Dom>, st: State, reg: Registry, f: Flags)
    : (r: (Result<seq<string>>, State))
    requires st.page < |pages|
    ensures r.1.page < |pages|
  {
    var s0 := if f.single && f.index then DeselectStep(pages, st, reg, f, None).1 else st;
    var (o1, s1) := ClickElementStep(|pages|, pages[s0.page], s0, reg, "open");
    if o1.Fail? then (Err(o1.error), s1)
    else
      match WaitAndFind(reg, pages[s1.page], "values")
      case Err(e) => (Err(e), s1)
      case Ok(els) =>
        if !f.multi then (Ok(StrippedTexts(els)), s1)
        else
          match FindNamed(reg, pages[s1.page], "selected")
          case Err(e) => (Err(e), s1)
          case Ok(chips) => (Ok(StrippedTexts(els) + StrippedTexts(chips)), s1)
  }

  /** Every option text `get_all_options` returns is stripped, the option labels come
      first in page order, and a widget that is not multi-select returns nothing else. */
  lemma GetAllOptionsStripped(pages: seq<Dom>, st: State, reg: Registry, f: Flags)
    requires st.page < |pages|
    ensures var (r, post) := GetAllOptionsStep(pages, st, reg, f);
            r.Ok? ==>
              (forall i :: 0 <= i < |r.value| ==> NoEdgeSpace(r.value[i])) &&
              var els := WaitAndFind(reg, pages[post.page], "values").value;
              |els| <= |r.value| && r.value[..|els|] == StrippedTexts(els) &&
              (!f.multi ==> r.value == StrippedTexts(els))
  {
    var (r, post) := GetAllOptionsStep(pages, st, reg, f);
    if r.Ok? {
      var els := WaitAndFind(reg, pages[post.page], "values").value;
      if f.multi {
        var chips := FindNamed(reg, pages[post.page], "selected").value;
        assert r.value == StrippedTexts(els) + StrippedTexts(chips);
        assert r.value[..|els|] == StrippedTexts(els);
      }
    }
  }

  /** `find_value(value)`: exact, case-sensitive membership among all options. */
  function FindValueStep(pages: seq<Dom>, st: State, reg: Registry, f: Flags, value: string)
    : (r: (Result<bool>, State))
    requires st.page < |pages|
    ensures r.1 == GetAllOptionsStep(pages, st, reg, f).1
    ensures r.0.Ok? <==> GetAllOptionsStep(pages, st, reg, f).0.Ok?
    ensures r.0.Ok? ==> (r.0.value <==> exists i :: 0 <= i < |GetAllOptionsStep(pages, st, reg, f).0.value| &&
                                          GetAllOptionsStep(pages, st, reg, f).0.value[i] == value)
  {
    var (opts, s) := GetAllOptionsStep(pages, st, reg, f);
    match opts
    case Err(e) => (Err(e), s)
    case Ok(vals) => (Ok(value in vals), s)
  }

  /** `is_editable`: wait for the widget by its name (`"base_selector"`), then read "open". */
  function IsEditableStep(dom: Dom, reg: Registry): (r: Result<bool>)
    ensures r.Ok? ==> GetElement(reg, dom, "open").Ok?
    ensures GetElement(reg, dom, "open").Err? ==> r.Err?
  {
    match WaitForElement(reg, dom, BaseName)
    case Err(e) => Err(e)
    case Ok(_) =>
      match GetElement(reg, dom, "open")
      case Err(e) => Err(e)
      case Ok(el) => Ok(!(Truthy(Attr(el, "disabled")) || Truthy(Attr(el, "readonly"))))
  }

  /** The widget is editable iff its "open" element has neither a `disabled` nor a
      `readonly` attribute with a non-empty value. */
  lemma IsEditableIff(dom: Dom, reg: Registry)
    requires WaitForElement(reg, dom, BaseName).Ok? && GetElement(reg, dom, "open").Ok?
    ensures var el := GetElement(reg, dom, "open").value;
            IsEditableStep(dom, reg) ==
              Ok(Attr(el, "disabled") in {None, Some("")} && Attr(el, "readonly") in {None, Some("")})
  {
  }

  /** "open" is registered only for a multi- or a single-select, so `is_editable` on a
      widget that is neither raises IndexError once the widget is visible. */
  lemma IsEditableNeedsOpen(how: Option<By>, value: string, f: Flags, dom: Dom)
    requires !f.multi && !f.single
    requires WaitForElement(SelectRegistry(how, value, f), dom, BaseName).Ok?
    ensures IsEditableStep(dom, SelectRegistry(how, value, f)) == Err(IndexError)
  {
    NoOpenWithoutKind(how, value, f);
    IsEditableWithoutOpen(dom, SelectRegistry(how, value, f));
  }

  lemma NoOpenWithoutKind(how: Option<By>, value: string, f: Flags)
    requires !f.multi && !f.single
    ensures "open" !in SelectRegistry(how, value, f)
  {
    SelectRegistryKeys(how, value, f);
    OpenNotCommon(SelectRegistry(how, value, f));
  }

  lemma OpenNotCommon(r: Registry)
    requires r.Keys == {BaseName, "label_component", "tooltip", "icon", "help", "values", "search_box", "load_values"}
    ensures "open" !in r
  {
  }

  lemma IsEditableWithoutOpen(dom: Dom, reg: Registry)
    requires "open" !in reg && WaitForElement(reg, dom, BaseName).Ok?
    ensures IsEditableStep(dom, reg) == Err(IndexError)
  {
  }

  /** The clicks an option gets for its first `j + 1` values. */
  lemma HitsSnoc(el: Element, values: seq<string>, j: nat)
    requires j < |values|
    ensures Hits(el, values[..j + 1]) ==
            Hits(el, values[..j]) + (if Folded(el.text) == Lower(values[j]) then [el] else [])
  {
    assert values[..j + 1] == values[..j] + [values[j]];
    HitsLast(el, values[..j], values[j]);
  }

  /** The next requested value clicks the option once more iff it matches. */
  lemma HitsStep(count: nat, st: State, done: seq<Element>, el: Element, values: seq<string>, j: nat)
    requires j < |values|
    requires ClickAll(count, st, done + Hits(el, values[..j])).0 == Pass
    ensures var s := ClickAll(count, st, done + Hits(el, values[..j])).1;
            ClickAll(count, st, done + Hits(el, values[..j + 1])) ==
            if Folded(el.text) == Lower(values[j]) then ClickEffect(count, s, el) else (Pass, s)
  {
    var h := Hits(el, values[..j]);
    HitsSnoc(el, values, j);
    if Folded(el.text) == Lower(values[j]) {
      AppendAssoc(done, h, [el]);
      ClickAllSnoc(count, st, done + h, el);
    } else {
      assert h + [] == h;
    }
  }

  /** Once a click for the first `j` values has failed, the remaining values click nothing. */
  lemma HitsFailed(count: nat, st: State, done: seq<Element>, el: Element, values: seq<string>, j: nat)
    requires j <= |values|
    requires ClickAll(count, st, done + Hits(el, values[..j])).0.Fail?
    ensures ClickAll(count, st, done + Hits(el, values)) == ClickAll(count, st, done + Hits(el, values[..j]))
  {
    var p, q := values[..j], values[j..];
    assert p + q == values;
    HitsAppend(el, p, q);
    var x, y := Hits(el, p), Hits(el, q);
    AppendAssoc(done, x, y);
    ClickAllSticks(count, st, done + x, y);
  }

  /** Clicks one option once per requested value it matches, after the clicks `done`. */
  method ClickHits(driver: Session, el: Element, values: seq<string>, ghost st: State, ghost done: seq<Element>)
    returns (o: Outcome)
    requires driver.Valid() && (Pass, driver.Now()) == ClickAll(|driver.pages|, st, done)
    modifies driver
    ensures driver.Valid()
    ensures (o, driver.Now()) == ClickAll(|driver.pages|, st, done + Hits(el, values))
  {
    var j := 0;
    assert done + Hits(el, values[..0]) == done;
    while j < |values|
      invariant 0 <= j <= |values| && driver.Valid()
      invariant (Pass, driver.Now()) == ClickAll(|driver.pages|, st, done + Hits(el, values[..j]))
    {
      HitsStep(|driver.pages|, st, done, el, values, j);
      if Folded(el.text) == Lower(values[j]) {
        o := driver.Click(el);
        if o.Fail? {
          HitsFailed(|driver.pages|, st, done, el, values, j + 1);
          return;
        }
      }
      j := j + 1;
    }
    assert values[..j] == values;
    o := Pass;
  }

  /** Once the clicks for the first `i` options have failed, the other options click nothing. */
  lemma MatchClicksFailed(count: nat, st: State, els: seq<Element>, values: seq<string>, i: nat)
    requires i <= |els|
    requires ClickAll(count, st, MatchClicks(els[..i], values)).0.Fail?
    ensures ClickAll(count, st, MatchClicks(els, values)) == ClickAll(count, st, MatchClicks(els[..i], values))
  {
    var p, q := els[..i], els[i..];
    assert p + q == els;
    MatchClicksAppend(p, q, values);
    ClickAllSticks(count, st, MatchClicks(p, values), MatchClicks(q, values));
  }

  /** The option loop of `select_multiple_values`: each option, in order, clicked once per
      requested value it matches, stopping at the first failing click. */
  method ClickMatches(driver: Session, els: seq<Element>, values: seq<string>) returns (o: Outcome)
    requires driver.Valid()
    modifies driver
    ensures driver.Valid()
    ensures (o, driver.Now()) == ClickAll(|driver.pages|, old(driver.Now()), MatchClicks(els, values))
  {
    ghost var s0 := driver.Now();
    var i := 0;
    assert MatchClicks(els[..0], values) == [];
    while i < |els|
      invariant 0 <= i <= |els| && driver.Valid()
      invariant (Pass, driver.Now()) == ClickAll(|driver.pages|, s0, MatchClicks(els[..i], values))
    {
      assert els[..i + 1] == els[..i] + [els[i]];
      MatchClicksSnoc(els[..i], els[i], values);
      o := ClickHits(driver, els[i], values, s0, MatchClicks(els[..i], values));
      if o.Fail? {
        MatchClicksFailed(|driver.pages|, s0, els, values, i + 1);
        return;
      }
      i := i + 1;
    }
    assert els[..i] == els;
    o := Pass;
  }

  /** `Select(driver, name, value, by, multi_select, single_select, index, searchable)`. */
  class Select {
    const driver: Session
    const locator: Locator
    const flags: Flags
    const value: string

    ghost predicate Valid()
      reads this, driver, locator
    {
      driver.Valid() && locator.Valid()
    }

    constructor (driver: Session, name: string, value: string, how: Option<By>, flags: Flags)
      requires driver.Valid()
      ensures Valid() && this.driver == driver && this.flags == flags
      ensures this.value == ControlGroup(value)
      ensures fresh(locator) && locator.locators == SelectRegistry(how, value, flags)
    {
      this.driver := driver;
      this.flags := flags;
      var base := ControlGroup(value);
      this.value := base;
      var loc := new Locator(map[BaseName := Css(base)] + BaseLocators(base));
      loc.UpdateLocaters(CommonLocators(base, flags));
      if flags.multi {
        loc.UpdateLocaters(MultiLocators(base));
      }
      if flags.single {
        loc.UpdateLocaters(SingleLocators(how, base, flags));
      }
      this.locator := loc;
    }

    /** `click_element(name)` on this widget's registry. */
    method ClickNamed(name: string) returns (o: Outcome)
      requires Valid()
      modifies driver
      ensures Valid()
      ensures (o, driver.Now()) ==
              ClickElementStep(|driver.pages|, driver.pages[old(driver.page)], old(driver.Now()), locator.locators, name)
    {
      o := ClickElement(driver, locator, name);
    }

    method DeselectIndexed() returns (b: bool)
      requires Valid()
      modifies driver
      ensures Valid()
      ensures (b, driver.Now()) == DeselectIndexedStep(driver.pages, old(driver.Now()), locator.locators)
    {
      if WaitForElementInvisible(locator.locators, driver.Current(), "load_values").Fail? {
        return false;
      }
      var o1 := ClickNamed("open");
      if o1.Fail? {
        return false;
      }
      var o2 := ClickNamed("cancel_selected");
      if o2.Fail? {
        return false;
      }
      driver.Escape();
      b := true;
    }

    method DeselectChips(value: string) returns (b: bool)
      requires Valid()
      modifies driver
      ensures Valid()
      ensures (b, driver.Now()) == DeselectChipsStep(driver.pages, old(driver.Now()), locator.locators, value)
    {
      var entry := locator.GetLocator("cancel_selected");
      if entry.Err? {
        return false;
      }
      var chips := WithLabel(FindElements(driver.Current(), entry.value), Lower(value));
      var o := ClickEach(driver, chips);
      if o.Fail? {
        return false;
      }
      driver.Escape();
      b := true;
    }

    /** `deselect(value)`. */
    method Deselect(value: Option<string>) returns (r: Result<bool>)
      requires Valid()
      modifies driver
      ensures Valid()
      ensures (r, driver.Now()) == DeselectStep(driver.pages, old(driver.Now()), locator.locators, flags, value)
    {
      if flags.single && !flags.index {
        var o := ClickNamed("cancel_selected");
        r := Ok(o.Pass?);
      } else if flags.single && flags.index {
        var b := DeselectIndexed();
        r := Ok(b);
      } else if flags.multi && Truthy(value) {
        var b := DeselectChips(value.value);
        r := Ok(b);
      } else {
        r := Err(ValueError);
      }
    }

    /** `deselect_all()`. */
    method DeselectAll() returns (r: Result<bool>)
      requires Valid()
      modifies driver
      ensures Valid()
      ensures (r, driver.Now()) == DeselectAllStep(driver.pages, old(driver.Now()), locator.locators, flags)
    {
      if !flags.multi {
        return Err(ValueError);
      }
      var entry := locator.GetLocator("cancel_selected");
      if entry.Err? {
        driver.Escape();
        return Ok(false);
      }
      var o := ClickEach(driver, FindElements(driver.Current(), entry.value));
      driver.Escape();
      r := Ok(o.Pass?);
    }

    /** `_search(value)`. */
    method Search(value: string) returns (o: Outcome)
      requires Valid()
      modifies driver
      ensures Valid()
      ensures (o, driver.Now()) == SearchStep(driver.pages, old(driver.Now()), locator.locators, flags, value)
    {
      if flags.searchable && !flags.multi && flags.index {
        o := ClickNamed("cancel_selected");
        if o.Fail? {
          return;
        }
      }
      o := EnterText(driver, locator, "search_box", value);
      if o.Fail? {
        return;
      }
      var w := WaitForElement(locator.locators, driver.Current(), "values");
      o := if w.Err? then Fail(w.error) else Pass;
    }

    /** Everything `select` does before it waits for the options. */
    method Prelude(value: string, deselectFirst: bool) returns (o: Outcome)
      requires Valid()
      modifies driver
      ensures Valid()
      ensures (o, driver.Now()) == SelectPrelude(driver.pages, old(driver.Now()), locator.locators, flags, value, deselectFirst)
    {
      if flags.single && flags.index {
        var _ := Deselect(None);
      } else if deselectFirst && flags.multi {
        var _ := DeselectAll();
      }
      o := ClickNamed("open");
      if o.Fail? {
        return;
      }
      if flags.searchable && !flags.index {
        o := Search(value);
      }
    }

    /** `select(value, deselect_first)`. */
    method SelectValue(value: string, deselectFirst: bool) returns (r: Result<bool>)
      requires Valid()
      modifies driver
      ensures Valid()
      ensures (r, driver.Now()) == SelectStep(driver.pages, old(driver.Now()), locator.locators, flags, value, deselectFirst)
    {
      var o := Prelude(value, deselectFirst);
      if o.Fail? {
        return Err(o.error);
      }
      var found := WaitAndFind(locator.locators, driver.Current(), "values");
      if found.Err? {
        return Err(found.error);
      }
      var els := found.value;
      r := Pick(driver, els, FoldedTexts(els), Lower(value));
    }

    /** `select_multiple_values(values)`. */
    method SelectMultipleValues(values: seq<string>) returns (r: Result<bool>)
      requires Valid()
      modifies driver
      ensures Valid()
      ensures (r, driver.Now()) == SelectMultipleStep(driver.pages, old(driver.Now()), locator.locators, flags, values)
    {
      if !flags.multi {
        return Ok(true);
      }
      var _ := DeselectAll();
      var found := WaitAndFind(locator.locators, driver.Current(), "values");
      if found.Err? {
        return Err(found.error);
      }
      var o := ClickMatches(driver, found.value, values);
      r := if o.Pass? then Ok(true) else Err(ClickFailed);
    }

    /** `get_all_options()`. */
    method GetAllOptions() returns (r: Result<seq<string>>)
      requires Valid()
      modifies driver
      ensures Valid()
      ensures (r, driver.Now()) == GetAllOptionsStep(driver.pages, old(driver.Now()), locator.locators, flags)
    {
      if flags.single && flags.index {
        var _ := Deselect(None);
      }
      var o := ClickNamed("open");
      if o.Fail? {
        return Err(o.error);
      }
      var found := WaitAndFind(locator.locators, driver.Current(), "values");
      if found.Err? {
        return Err(found.error);
      }
      var val := StrippedTexts(found.value);
      if flags.multi {
        var chips := FindNamed(locator.locators, driver.Current(), "selected");
        if chips.Err? {
          return Err(chips.error);
        }
        val := val + StrippedTexts(chips.value);
      }
      r := Ok(val);
    }

    /** `find_value(value)`. */
    method FindValue(value: string) returns (r: Result<bool>)
      requires Valid()
      modifies driver
      ensures Valid()
      ensures (r, driver.Now()) == FindValueStep(driver.pages, old(driver.Now()), locator.locators, flags, value)
    {
      var opts := GetAllOptions();
      if opts.Err? {
        return Err(opts.error);
      }
      r := Ok(value in opts.value);
    }

    /** `is_editable()`. */
    method IsEditable() returns (r: Result<bool>)
      requires Valid()
      ensures r == IsEditableStep(driver.Current(), locator.locators)
    {
      var w := WaitForElement(locator.locators, driver.Current(), BaseName);
      if w.Err? {
        return Err(w.error);
      }
      var open := GetElement(locator.locators, driver.Current(), "open");
      if open.Err? {
        return Err(open.error);
      }
      r := Ok(!(Truthy(Attr(open.value, "disabled")) || Truthy(Attr(open.value, "readonly"))));
    }
  }
}
