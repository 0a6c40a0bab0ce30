/** `AlertDropDown`: the alert form's "add action" dropdown. The action names are read
    with `get_element_text`, and `select` compares them with the requested name exactly,
    case included. */
module AlertDropDowns {
  import opened Outcomes
  import opened Text
  import opened Locators
  import opened Browser
  import opened AlertComponentActions
  import opened Widgets

  /** The pairs `AlertDropDown.__init__` adds after the alert base pairs. */
  function AlertDropDownLocators(value: string): Registry {
    map[
      "add_action" := Css(value + " .dropdown-toggle.btn"),
      "action_name" := Css(" .unselected-action span:first-of-type"),
      "alert_menu" := Css(".dropdown-menu.open"),
      "add_actions_container" := Css(".link-label")
    ]
  }

  function AlertDropDownRegistry(name: string, how: Option<By>, value: string): Registry {
    Updated(AlertBaseRegistry(name, Entry(how, value)), AlertDropDownLocators(value))
  }

  /** The four action names always resolve to their own selectors, whatever the widget
      is called. */
  lemma AlertDropDownRegistryLocators(name: string, how: Option<By>, value: string, k: string)
    requires k in AlertDropDownLocators(value)
    ensures Resolve(AlertDropDownRegistry(name, how, value), k) == Ok(NormalizeEntry(AlertDropDownLocators(value)[k]))
    ensures Resolve(AlertDropDownRegistry(name, how, value), "add_action") == Ok(CssPair(value + " .dropdown-toggle.btn"))
  {
    UpdatedNewKeys(AlertBaseRegistry(name, Entry(how, value)), AlertDropDownLocators(value), k);
    UpdatedNewKeys(AlertBaseRegistry(name, Entry(how, value)), AlertDropDownLocators(value), "add_action");
  }

  /** Click "add_action", then wait for the open menu when `waitMenu`. */
  function OpenStep(pages: seq<Dom>, st: State, reg: Registry, waitMenu: bool): (r: (Outcome, State))
    requires st.page < |pages|
    ensures r.1.page < |pages|
    ensures r.1 == ClickElementStep(|pages|, pages[st.page], st, reg, "add_action").1
  {
    var (o, s) := ClickElementStep(|pages|, pages[st.page], st, reg, "add_action");
    if o.Fail? || !waitMenu then (o, s)
    else
      match WaitForElement(reg, pages[s.page], "alert_menu")
      case Err(e) => (Fail(e), s)
      case Ok(_) => (Pass, s)
  }

  /** The texts of the elements registered under `list` once the dropdown is open. */
  function ListStep(pages: seq<Dom>, st: State, reg: Registry, waitMenu: bool, list: string)
    : (r: (Result<seq<string>>, State))
    requires st.page < |pages|
    ensures r.1.page < |pages|
  {
    var (o, s) := OpenStep(pages, st, reg, waitMenu);
    if o.Fail? then (Err(o.error), s)
    else
      match FindNamed(reg, pages[s.page], list)
      case Err(e) => (Err(e), s)
      case Ok(els) => (Ok(CollapsedTexts(els)), s)
  }

  /** `get_dropdown_values`. */
  function GetDropdownValuesStep(pages: seq<Dom>, st: State, reg: Registry): (r: (Result<seq<string>>, State))
    requires st.page < |pages|
    ensures r.1.page < |pages|
  {
    ListStep(pages, st, reg, true, "action_name")
  }

  /** `get_add_actions_list`: the same, without waiting for the menu. */
  function GetAddActionsListStep(pages: seq<Dom>, st: State, reg: Registry): (r: (Result<seq<string>>, State))
    requires st.page < |pages|
    ensures r.1.page < |pages|
  {
    ListStep(pages, st, reg, false, "add_actions_container")
  }

  /** Each listed text is one element's text with its whitespace runs collapsed and its
      ends trimmed; empty texts are kept, so there is one entry per element, in order. */
  lemma ListTextsNormalized(pages: seq<Dom>, st: State, reg: Registry, waitMenu: bool, list: string)
    requires st.page < |pages|
    ensures var (r, s) := ListStep(pages, st, reg, waitMenu, list);
            r.Ok? ==> list in reg &&
                      var els := FindElements(pages[s.page], reg[list]);
                      |r.value| == |els| &&
                      forall i :: 0 <= i < |els| ==> r.value[i] == ElementText(els[i].innerText) && Normalized(r.value[i])
  {
    var (r, s) := ListStep(pages, st, reg, waitMenu, list);
    if r.Ok? {
      var els := FindElements(pages[s.page], reg[list]);
      forall i | 0 <= i < |els| ensures Normalized(r.value[i]) {
        assert r.value[i] == GetElementText(els[i]);
      }
    }
  }

  /** `select(action_name)`: the first action whose text is exactly `action_name`. */
  function SelectStep(pages: seq<Dom>, st: State, reg: Registry, actionName: string): (r: (Result<bool>, State))
    requires st.page < |pages|
    ensures r.1.page < |pages|
  {
    var (o, s) := OpenStep(pages, st, reg, true);
    if o.Fail? then (Err(o.error), s)
    else
      match FindNamed(reg, pages[s.page], "action_name")
      case Err(e) => (Err(e), s)
      case Ok(els) => PickStep(|pages|, s, els, CollapsedTexts(els), actionName)
  }

  /** `select` goes through only for a name that `get_dropdown_values` lists on the same page,
      and then it has clicked the first action carrying exactly that text. */
  lemma SelectOnlyListed(pages: seq<Dom>, st: State, reg: Registry, actionName: string)
    requires st.page < |pages|
    ensures var (r, post) := SelectStep(pages, st, reg, actionName);
            var (values, s) := GetDropdownValuesStep(pages, st, reg);
            (r == Ok(true) ==> values.Ok? && actionName in values.value) &&
            (values.Ok? && actionName !in values.value ==> r == Err(ValueError) && post == s)
  {
    var (o, s) := OpenStep(pages, st, reg, true);
    if o.Pass? && "action_name" in reg {
      var els := FindElements(pages[s.page], reg["action_name"]);
      PickClicksFirstMatch(|pages|, s, els, CollapsedTexts(els), actionName);
    }
  }

  /** `select` clicks the first action whose text is `action_name` and nothing else. */
  lemma SelectClicksFirstExact(pages: seq<Dom>, st: State, reg: Registry, actionName: string)
    requires st.page < |pages|
    requires OpenStep(pages, st, reg, true).0 == Pass && "action_name" in reg
    ensures var s := OpenStep(pages, st, reg, true).1;
            var els := FindElements(pages[s.page], reg["action_name"]);
            var (r, post) := SelectStep(pages, st, reg, actionName);
            actionName in CollapsedTexts(els) ==>
              exists i :: 0 <= i < |els| && GetElementText(els[i]) == actionName &&
                actionName !in CollapsedTexts(els)[..i] &&
                (!els[i].clickFails ==> r == Ok(true) && post.log == s.log + [Clicked(els[i])])
  {
    var s := OpenStep(pages, st, reg, true).1;
    var els := FindElements(pages[s.page], reg["action_name"]);
    PickClicksFirstMatch(|pages|, s, els, CollapsedTexts(els), actionName);
  }

  /** The loop both listings run: one `get_element_text` per element, in order. */
  method ElementTexts(els: seq<Element>) returns (values: seq<string>)
    ensures values == CollapsedTexts(els)
  {
    values := [];
    var i := 0;
    while i < |els|
      invariant 0 <= i <= |els|
      invariant values == CollapsedTexts(els[..i])
    {
      assert els[..i + 1][..i] == els[..i];
      values := values + [GetElementText(els[i])];
      i := i + 1;
    }
    assert els[..i] == els;
  }

  /** `AlertDropDown(driver, name, value, by)`. */
  class AlertDropDown {
    const driver: Session
    const locator: Locator

    ghost predicate Valid()
      reads this, driver, locator
    {
      driver.Valid() && locator.Valid()
    }

    constructor (driver: Session, name: string, value: string, how: Option<By>)
      requires driver.Valid()
      ensures Valid() && this.driver == driver
      ensures fresh(locator) && locator.locators == AlertDropDownRegistry(name, how, value)
    {
      this.driver := driver;
      var loc := new Locator(map[name := Entry(how, value)]);
      loc.UpdateLocaters(AlertBaseLocators());
      loc.UpdateLocaters(AlertDropDownLocators(value));
      this.locator := loc;
    }

    method Open(waitMenu: bool) returns (o: Outcome)
      requires Valid()
      modifies driver
      ensures Valid()
      ensures (o, driver.Now()) == OpenStep(driver.pages, old(driver.Now()), locator.locators, waitMenu)
    {
      o := ClickElement(driver, locator, "add_action");
      if o.Fail? || !waitMenu {
        return;
      }
      var w := WaitForElement(locator.locators, driver.Current(), "alert_menu");
      o := if w.Err? then Fail(w.error) else Pass;
    }

    method List(waitMenu: bool, list: string) returns (r: Result<seq<string>>)
      requires Valid()
      modifies driver
      ensures Valid()
      ensures (r, driver.Now()) == ListStep(driver.pages, old(driver.Now()), locator.locators, waitMenu, list)
    {
      var o := Open(waitMenu);
      if o.Fail? {
        return Err(o.error);
      }
      var found := FindNamed(locator.locators, driver.Current(), list);
      if found.Err? {
        return Err(found.error);
      }
      var values := ElementTexts(found.value);
      r := Ok(values);
    }

    method GetDropdownValues() returns (r: Result<seq<string>>)
      requires Valid()
      modifies driver
      ensures Valid()
      ensures (r, driver.Now()) == GetDropdownValuesStep(driver.pages, old(driver.Now()), locator.locators)
    {
      r := List(true, "action_name");
    }

    method GetAddActionsList() returns (r: Result<seq<string>>)
      requires Valid()
      modifies driver
      ensures Valid()
      ensures (r, driver.Now()) == GetAddActionsListStep(driver.pages, old(driver.Now()), locator.locators)
    {
      r := List(false, "add_actions_container");
    }

    method Select(actionName: string) returns (r: Result<bool>)
      requires Valid()
      modifies driver
      ensures Valid()
      ensures (r, driver.Now()) == SelectStep(driver.pages, old(driver.Now()), locator.locators, actionName)
    {
      var o := Open(true);
      if o.Fail? {
        return Err(o.error);
      }
      var found := FindNamed(locator.locators, driver.Current(), "action_name");
      if found.Err? {
        return Err(found.error);
      }
      var els := found.value;
      r := Pick(driver, els, CollapsedTexts(els), actionName);
    }
  }
}
