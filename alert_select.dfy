/** `AlertSelect`: the alert form's select box. Opening it retries with a
    `[label="Select..."]` selector when the plain click fails; as written, that retry also
    rebinds the `value` being looked for, so the option search then compares the options
    with a selector string. The model keeps both readings: `SelectAsWritten` with the
    rebinding, which the class follows, and the intended `SelectStep` without it. */
module AlertSelects {
  import opened Outcomes
  import opened Text
  import opened Locators
  import opened Browser
  import opened AlertComponentActions
  import opened Widgets

  /** The pairs `AlertSelect.__init__` adds after the alert base pairs; the widget's own
      name is registered again, with the select element inside the container. */
  function AlertSelectLocators(name: string, value: string): Registry {
    map[
      name := Css(value + " [data-test=\"select\"]"),
      "menu" := Css("[data-test=\"menu\"]"),
      "values" := Css("[data-test=\"option\"]")
    ]
  }

  function AlertSelectRegistry(name: string, how: Option<By>, value: string): Registry {
    Updated(AlertBaseRegistry(name, Entry(how, value)), AlertSelectLocators(name, value))
  }

  /** The widget's name no longer resolves to the caller's pair: it resolves to the select
      element inside it, as a CSS selector, whatever strategy the caller gave. */
  lemma AlertSelectNameOverwritten(name: string, how: Option<By>, value: string)
    requires name != "menu" && name != "values"
    ensures Resolve(AlertSelectRegistry(name, how, value), name) == Ok(CssPair(value + " [data-test=\"select\"]"))
    ensures Resolve(AlertSelectRegistry(name, how, value), "values") == Ok(CssPair("[data-test=\"option\"]"))
  {
    UpdatedNewKeys(AlertBaseRegistry(name, Entry(how, value)), AlertSelectLocators(name, value), name);
    UpdatedNewKeys(AlertBaseRegistry(name, Entry(how, value)), AlertSelectLocators(name, value), "values");
  }

  /** The selector the retry waits for. */
  function FallbackSelector(reg: Registry, name: string): string
    requires name in reg
  {
    reg[name].selector + "[label=\"Select...\"]"
  }

  /** Opening the select: wait for it, click it, and when the click raises, wait for the
      `[label="Select..."]` variant to be clickable and click that instead. The flag says
      whether the retry ran. */
  function OpenStep(pages: seq<Dom>, st: State, reg: Registry, name: string): (r: (Outcome, State, bool))
    requires st.page < |pages|
    ensures r.1.page < |pages|
    ensures r.2 ==> name in reg
  {
    var dom := pages[st.page];
    match WaitForElement(reg, dom, name)
    case Err(e) => (Fail(e), st, false)
    case Ok(_) =>
      var (o, s) := ClickElementStep(|pages|, dom, st, reg, name);
      if o.Pass? then (Pass, s, false)
      else
        var alt := Entry(reg[name].how, FallbackSelector(reg, name));
        match Clickability(pages[s.page], alt)
        case Err(e) => (Fail(e), s, true)
        case Ok(el) =>
          var (o2, s2) := ClickEffect(|pages|, s, el);
          (o2, s2, true)
  }

  /** The retry runs exactly when the select is visible but clicking it raised, and a
      successful retry has clicked the first clickable `[label="Select..."]` element. */
  lemma OpenFallsBackIff(pages: seq<Dom>, st: State, reg: Registry, name: string)
    requires st.page < |pages|
    ensures var (o, s, fell) := OpenStep(pages, st, reg, name);
            var dom := pages[st.page];
            (fell <==> WaitForElement(reg, dom, name).Ok? && ClickElementStep(|pages|, dom, st, reg, name).0.Fail?) &&
            (fell && o == Pass ==>
               var alt := Clickability(dom, Entry(reg[name].how, FallbackSelector(reg, name)));
               alt.Ok? && s.log == st.log + [Clicked(alt.value)])
  {
  }

  /** `select(value)` after the select is open: wait for the menu, then click the first
      option whose stripped lower-cased text is `key.lower()`. */
  function PickOption(pages: seq<Dom>, s: State, reg: Registry, key: string): (r: (Result<bool>, State))
    requires s.page < |pages|
    ensures r.1.page < |pages|
  {
    match WaitForElement(reg, pages[s.page], "menu")
    case Err(e) => (Err(e), s)
    case Ok(_) =>
      match FindNamed(reg, pages[s.page], "values")
      case Err(e) => (Err(e), s)
      case Ok(els) => PickStep(|pages|, s, els, FoldedTexts(els), Lower(key))
  }

  /** `select(value)` as written: once the retry has run, the name looked for among the
      options is the retry's selector. */
  function SelectAsWritten(pages: seq<Dom>, st: State, reg: Registry, name: string, value: string)
    : (r: (Result<bool>, State))
    requires st.page < |pages|
    ensures r.1.page < |pages|
  {
    var (o, s, fell) := OpenStep(pages, st, reg, name);
    if o.Fail? then (Err(o.error), s)
    else PickOption(pages, s, reg, if fell then FallbackSelector(reg, name) else value)
  }

  /** `select(value)` as intended: the option wanted is always the caller's value. */
  function SelectStep(pages: seq<Dom>, st: State, reg: Registry, name: string, value: string)
    : (r: (Result<bool>, State))
    requires st.page < |pages|
    ensures r.1.page < |pages|
  {
    var (o, s, _) := OpenStep(pages, st, reg, name);
    if o.Fail? then (Err(o.error), s)
    else PickOption(pages, s, reg, value)
  }

  /** The two readings differ: when the retry opened the select, an option carrying the
      requested value is not found by the code as written, while the intended `select`
      clicks it. */
  lemma SelectAsWrittenMissesValue(pages: seq<Dom>, st: State, reg: Registry, name: string, value: string)
    requires st.page < |pages|
    requires var (o, s, fell) := OpenStep(pages, st, reg, name);
             o == Pass && fell &&
             WaitForElement(reg, pages[s.page], "menu").Ok? && "values" in reg &&
             var opts := FindElements(pages[s.page], reg["values"]);
             Lower(value) in FoldedTexts(opts) && Lower(FallbackSelector(reg, name)) !in FoldedTexts(opts)
    ensures SelectAsWritten(pages, st, reg, name, value).0 == Err(ValueError)
    ensures SelectStep(pages, st, reg, name, value).0 != Err(ValueError)
  {
    var (o, s, fell) := OpenStep(pages, st, reg, name);
    var opts := FindElements(pages[s.page], reg["values"]);
    PickClicksFirstMatch(|pages|, s, opts, FoldedTexts(opts), Lower(FallbackSelector(reg, name)));
    PickClicksFirstMatch(|pages|, s, opts, FoldedTexts(opts), Lower(value));
  }

  /** Without the retry the two readings agree. */
  lemma SelectAgreesWithoutFallback(pages: seq<Dom>, st: State, reg: Registry, name: string, value: string)
    requires st.page < |pages| && !OpenStep(pages, st, reg, name).2
    ensures SelectAsWritten(pages, st, reg, name, value) == SelectStep(pages, st, reg, name, value)
  {
  }

  /** Once the select is open and its options are shown, the intended `select` clicks the
      first option labelled `value` (case and surrounding blanks aside) and returns True,
      or raises ValueError without clicking; it never returns False. */
  lemma SelectClicksFirstMatch(pages: seq<Dom>, st: State, reg: Registry, name: string, value: string)
    requires st.page < |pages|
    requires var (o, s, _) := OpenStep(pages, st, reg, name);
             o == Pass && WaitForElement(reg, pages[s.page], "menu").Ok? && "values" in reg
    ensures var (o, s, _) := OpenStep(pages, st, reg, name);
            var els := FindElements(pages[s.page], reg["values"]);
            var (r, post) := SelectStep(pages, st, reg, name, value);
            r != Ok(false) &&
            (Lower(value) !in FoldedTexts(els) ==> r == Err(ValueError) && post == s) &&
            (Lower(value) in FoldedTexts(els) ==>
               exists i :: 0 <= i < |els| && Folded(els[i].text) == Lower(value) &&
                 Lower(value) !in FoldedTexts(els)[..i] &&
                 (!els[i].clickFails ==> r == Ok(true) && post.log == s.log + [Clicked(els[i])]))
  {
    var (o, s, _) := OpenStep(pages, st, reg, name);
    var els := FindElements(pages[s.page], reg["values"]);
    PickClicksFirstMatch(|pages|, s, els, FoldedTexts(els), Lower(value));
  }

  /** `get_all_options`: wait for the select, click it (no retry here), and return the
      stripped text of every option, in order, empty ones included. */
  function GetAllOptionsStep(pages: seq<Dom>, st: State, reg: Registry, name: string)
    : (r: (Result<seq<string>>, State))
    requires st.page < |pages|
    ensures r.1.page < |pages|
  {
    var dom := pages[st.page];
    match WaitForElement(reg, dom, name)
    case Err(e) => (Err(e), st)
    case Ok(_) =>
      var (o, s) := ClickElementStep(|pages|, dom, st, reg, name);
      if o.Fail? then (Err(o.error), s)
      else
        match FindNamed(reg, pages[s.page], "values")
        case Err(e) => (Err(e), s)
        case Ok(els) => (Ok(StrippedTexts(els)), s)
  }

  /** `get_all_options` succeeds iff the select shows, its click passes and `values` is
      registered; it then lists the stripped text of every option, in order. */
  lemma GetAllOptionsStripped(pages: seq<Dom>, st: State, reg: Registry, name: string)
    requires st.page < |pages|
    ensures var (r, s) := GetAllOptionsStep(pages, st, reg, name);
            var dom := pages[st.page];
            (r.Ok? <==> WaitForElement(reg, dom, name).Ok? &&
                        ClickElementStep(|pages|, dom, st, reg, name).0 == Pass && "values" in reg) &&
            (r.Ok? ==> var els := FindElements(pages[s.page], reg["values"]);
                       |r.value| == |els| &&
                       forall i :: 0 <= i < |els| ==> r.value[i] == Strip(els[i].text) && NoEdgeSpace(r.value[i]))
  {
    var (r, s) := GetAllOptionsStep(pages, st, reg, name);
    if r.Ok? {
      var els := FindElements(pages[s.page], reg["values"]);
      forall i | 0 <= i < |els| ensures NoEdgeSpace(r.value[i]) {
        assert r.value[i] == Strip(els[i].text);
      }
    }
  }

  /** When the plain click opens the select, a value `select` picks is one that
      `get_all_options` lists, up to case. */
  lemma SelectedIsListed(pages: seq<Dom>, st: State, reg: Registry, name: string, value: string)
    requires st.page < |pages| && !OpenStep(pages, st, reg, name).2
    requires SelectStep(pages, st, reg, name, value).0 == Ok(true)
    ensures var all := GetAllOptionsStep(pages, st, reg, name).0;
            all.Ok? && exists x :: x in all.value && Lower(x) == Lower(value)
  {
    var dom := pages[st.page];
    var (o, s, _) := OpenStep(pages, st, reg, name);
    assert o == Pass;
    assert WaitForElement(reg, dom, name).Ok?;
    assert ClickElementStep(|pages|, dom, st, reg, name) == (Pass, s);
    assert WaitForElement(reg, pages[s.page], "menu").Ok?;
    var found := FindNamed(reg, pages[s.page], "values");
    assert found.Ok?;
    var els := found.value;
    assert PickStep(|pages|, s, els, FoldedTexts(els), Lower(value)).0 == Ok(true);
    assert GetAllOptionsStep(pages, st, reg, name).0 == Ok(StrippedTexts(els));
    PickClicksFirstMatch(|pages|, s, els, FoldedTexts(els), Lower(value));
    var i :| 0 <= i < |els| && FoldedTexts(els)[i] == Lower(value);
    var x := StrippedTexts(els)[i];
    assert Lower(x) == FoldedTexts(els)[i];
    assert x in StrippedTexts(els);
  }

  /** `selected_value`: a one-element list holding the `data-test-value` attribute, `None`
      when the element has none. */
  function SelectedValueStep(dom: Dom, reg: Registry, name: string): (r: Result<seq<Option<string>>>)
    ensures r.Ok? <==> GetElement(reg, dom, name).Ok?
    ensures r.Ok? ==> |r.value| == 1 &&
                      (r.value[0].Some? <==> "data-test-value" in GetElement(reg, dom, name).value.attrs)
  {
    match GetElement(reg, dom, name)
    case Err(e) => Err(e)
    case Ok(el) => Ok([Attr(el, "data-test-value")])
  }

  /** `AlertSelect(driver, name, value, by)`. */
  class AlertSelect {
    const driver: Session
    const locator: Locator
    const name: string

    ghost predicate Valid()
      reads this, driver, locator
    {
      driver.Valid() && locator.Valid()
    }

    constructor (driver: Session, name: string, value: string, how: Option<By>)
      requires driver.Valid()
      ensures Valid() && this.driver == driver && this.name == name
      ensures fresh(locator) && locator.locators == AlertSelectRegistry(name, how, value)
    {
      this.driver := driver;
      this.name := name;
      var loc := new Locator(map[name := Entry(how, value)]);
      loc.UpdateLocaters(AlertBaseLocators());
      loc.UpdateLocaters(AlertSelectLocators(name, value));
      this.locator := loc;
    }

    method Open() returns (o: Outcome, fell: bool)
      requires Valid()
      modifies driver
      ensures Valid()
      ensures (o, driver.Now(), fell) == OpenStep(driver.pages, old(driver.Now()), locator.locators, name)
    {
      fell := false;
      var w := WaitForElement(locator.locators, driver.Current(), name);
      if w.Err? {
        return Fail(w.error), false;
      }
      o := ClickElement(driver, locator, name);
      if o.Pass? {
        return;
      }
      fell := true;
      var entry := locator.GetLocator(name);
      var alt := Clickability(driver.Current(), Entry(entry.value.how, entry.value.selector + "[label=\"Select...\"]"));
      if alt.Err? {
        return Fail(alt.error), true;
      }
      o := driver.Click(alt.value);
    }

    method Pick(value: string) returns (r: Result<bool>)
      requires Valid()
      modifies driver
      ensures Valid()
      ensures (r, driver.Now()) == PickOption(driver.pages, old(driver.Now()), locator.locators, value)
    {
      var w := WaitForElement(locator.locators, driver.Current(), "menu");
      if w.Err? {
        return Err(w.error);
      }
      var found := FindNamed(locator.locators, driver.Current(), "values");
      if found.Err? {
        return Err(found.error);
      }
      var els := found.value;
      r := Widgets.Pick(driver, els, FoldedTexts(els), Lower(value));
    }

    method Select(value: string) returns (r: Result<bool>)
      requires Valid()
      modifies driver
      ensures Valid()
      ensures (r, driver.Now()) == SelectAsWritten(driver.pages, old(driver.Now()), locator.locators, name, value)
    {
      var o, fell := Open();
      if o.Fail? {
        return Err(o.error);
      }
      var key := if fell then FallbackSelector(locator.locators, name) else value;
      r := Pick(key);
    }

    method GetAllOptions() returns (r: Result<seq<string>>)
      requires Valid()
      modifies driver
      ensures Valid()
      ensures (r, driver.Now()) == GetAllOptionsStep(driver.pages, old(driver.Now()), locator.locators, name)
    {
      var w := WaitForElement(locator.locators, driver.Current(), name);
      if w.Err? {
        return Err(w.error);
      }
      var o := ClickElement(driver, locator, name);
      if o.Fail? {
        return Err(o.error);
      }
      var found := FindNamed(locator.locators, driver.Current(), "values");
      if found.Err? {
        return Err(found.error);
      }
      r := Ok(StrippedTexts(found.value));
    }

    method SelectedValue() returns (r: Result<seq<Option<string>>>)
      requires Valid()
      ensures r == SelectedValueStep(driver.Current(), locator.locators, name)
    {
      var el := GetElement(locator.locators, driver.Current(), name);
      if el.Err? {
        return Err(el.error);
      }
      r := Ok([Attr(el.value, "data-test-value")]);
    }
  }
}
