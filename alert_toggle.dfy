/** `AlertToggle`: a group of radio-like buttons registered under the widget's own name;
    the active one is `value + " .active"`. */
module AlertToggles {
  import opened Outcomes
  import opened Text
  import opened Locators
  import opened Browser
  import opened AlertComponentActions
  import opened Widgets

  function AlertToggleRegistry(name: string, how: Option<By>, value: string): Registry {
    Updated(AlertBaseRegistry(name, Entry(how, value)), map["selected_value" := Css(value + " .active")])
  }

  /** The buttons are the elements of the caller's own pair, unless the widget is called
      like one of the names registered after it. */
  lemma AlertToggleLocators(name: string, how: Option<By>, value: string)
    ensures var reg := AlertToggleRegistry(name, how, value);
            Resolve(reg, "selected_value") == Ok(CssPair(value + " .active")) &&
            (name !in {"label_component", "help", "selected_value"} ==>
               Resolve(reg, name) == Ok(NormalizeEntry(Entry(how, value))))
  {
    var base := AlertBaseRegistry(name, Entry(how, value));
    UpdatedNewKeys(base, map["selected_value" := Css(value + " .active")], "selected_value");
    if name !in {"label_component", "help", "selected_value"} {
      UpdatedOtherKeys(base, map["selected_value" := Css(value + " .active")], name);
      UpdatedOtherKeys(Normalize(map[name := Entry(how, value)]), AlertBaseLocators(), name);
    }
  }

  /** `select(value)`: wait for the buttons, then click the first one whose stripped
      lower-cased text is `value.lower()`, or raise ValueError. */
  function SelectStep(pages: seq<Dom>, st: State, reg: Registry, name: string, value: string)
    : (r: (Result<bool>, State))
    requires st.page < |pages|
    ensures r.1.page < |pages|
  {
    match WaitAndFind(reg, pages[st.page], name)
    case Err(e) => (Err(e), st)
    case Ok(els) => PickStep(|pages|, st, els, FoldedTexts(els), Lower(value))
  }

  /** `select` raises without clicking when the buttons never show or none is labelled
      `value`; otherwise it clicks the first button so labelled, and nothing else. */
  lemma SelectClicksFirstMatch(pages: seq<Dom>, st: State, reg: Registry, name: string, value: string)
    requires st.page < |pages|
    ensures var (r, post) := SelectStep(pages, st, reg, name, value);
            var w := WaitAndFind(reg, pages[st.page], name);
            r != Ok(false) &&
            (w.Err? ==> r == Err(w.error) && post == st) &&
            (w.Ok? && Lower(value) !in FoldedTexts(w.value) ==> r == Err(ValueError) && post == st) &&
            (w.Ok? && Lower(value) in FoldedTexts(w.value) ==>
               exists i :: 0 <= i < |w.value| && Folded(w.value[i].text) == Lower(value) &&
                 Lower(value) !in FoldedTexts(w.value)[..i] &&
                 (!w.value[i].clickFails ==> r == Ok(true) && post.log == st.log + [Clicked(w.value[i])]))
  {
    var w := WaitAndFind(reg, pages[st.page], name);
    if w.Ok? {
      PickClicksFirstMatch(|pages|, st, w.value, FoldedTexts(w.value), Lower(value));
    }
  }

  /** `get_value`: wait for the buttons, then the text of the active one. */
  function GetValueStep(dom: Dom, reg: Registry, name: string): (r: Result<string>)
    ensures WaitForElement(reg, dom, name).Err? ==> r == Err(WaitForElement(reg, dom, name).error)
    ensures WaitForElement(reg, dom, name).Ok? ==> r == GetText(reg, dom, "selected_value")
  {
    match WaitForElement(reg, dom, name)
    case Err(e) => Err(e)
    case Ok(_) => GetText(reg, dom, "selected_value")
  }

  /** The value read is never empty: the active button's trimmed text, or the fallback
      message when it has none. */
  lemma GetValueNotEmpty(dom: Dom, reg: Registry, name: string)
    ensures var r := GetValueStep(dom, reg, name);
            r.Ok? ==> r.value != [] &&
                      var t := Strip(GetElement(reg, dom, "selected_value").value.content);
                      r.value == (if t != [] then t else NotFound("selected_value"))
  {
  }

  /** `AlertToggle(driver, name, value, by)`. */
  class AlertToggle {
    const driver: Session
    const locator: Locator
    const name: string

    ghost predicate Valid()
      reads this, driver, locator
    {
      driver.Valid() && locator.Valid()
    }

    constructor (driver: Session, name: string, value: string, how: Option<By>)
      requires driver.Valid()
      ensures Valid() && this.driver == driver && this.name == name
      ensures fresh(locator) && locator.locators == AlertToggleRegistry(name, how, value)
    {
      this.driver := driver;
      this.name := name;
      var loc := new Locator(map[name := Entry(how, value)]);
      loc.UpdateLocaters(AlertBaseLocators());
      loc.UpdateLocaters(map["selected_value" := Css(value + " .active")]);
      this.locator := loc;
    }

    method Select(value: string) returns (r: Result<bool>)
      requires Valid()
      modifies driver
      ensures Valid()
      ensures (r, driver.Now()) == SelectStep(driver.pages, old(driver.Now()), locator.locators, name, value)
    {
      var found := WaitAndFind(locator.locators, driver.Current(), name);
      if found.Err? {
        return Err(found.error);
      }
      var els := found.value;
      r := Pick(driver, els, FoldedTexts(els), Lower(value));
    }

    method GetValue() returns (r: Result<string>)
      requires Valid()
      ensures r == GetValueStep(driver.Current(), locator.locators, name)
    {
      var w := WaitForElement(locator.locators, driver.Current(), name);
      if w.Err? {
        return Err(w.error);
      }
      r := GetText(locator.locators, driver.Current(), "selected_value");
    }
  }
}
