/** `DropDown`: the form widget whose options live in a popover. The options are found
    through the popover id the dropdown button carries, so a button without that
    attribute makes `select` and `get_dropdown_values` raise TypeError. */
module DropDowns {
  import opened Outcomes
  import opened Text
  import opened Locators
  import opened Browser
  import opened AlertComponentActions
  import opened Widgets

  const Label := " [data-test=\"label\"]"
  const Popover := " [data-test=\"popover\"]"
  const PopoverIdAttr := "data-test-popover-id"

  /** The name of the button that opens a dropdown called `name`. */
  function ButtonName(name: string): string {
    name + "_type"
  }

  /** The pairs `DropDown.__init__` adds to the container. */
  function DropDownLocators(name: string, value: string, how: Option<By>): Registry {
    map[
      ButtonName(name) := Entry(how, value),
      "values" := Css(Popover + Label),
      "menu" := Css(Popover + " [data-test=\"menu\"]"),
      "selected_value" := Css(value + " [data-test=\"select\"] [data-test=\"label\"]")
    ]
  }

  /** The registry after `DropDown.__init__`. */
  function DropDownRegistry(name: string, value: string, how: Option<By>): Registry {
    Updated(Normalize(map[name := Entry(how, value)]), DropDownLocators(name, value, how))
  }

  /** The button is registered with the container's own pair, and the menu and the
      selected label with their fixed selectors. */
  lemma DropDownRegistryLocators(name: string, value: string, how: Option<By>)
    ensures var reg := DropDownRegistry(name, value, how);
            reg.Keys == {name, ButtonName(name), "values", "menu", "selected_value"} &&
            Resolve(reg, ButtonName(name)) == Ok(NormalizeEntry(Entry(how, value))) &&
            (name !in {"values", "menu", "selected_value"} ==> Resolve(reg, name) == Resolve(reg, ButtonName(name))) &&
            Resolve(reg, "menu") == Ok(CssPair(Popover + " [data-test=\"menu\"]")) &&
            Resolve(reg, "selected_value") == Ok(CssPair(value + " [data-test=\"select\"] [data-test=\"label\"]"))
  {
    var base := Normalize(map[name := Entry(how, value)]);
    var added := DropDownLocators(name, value, how);
    UpdatedKeys(base, added);
    UpdatedNewKeys(base, added, ButtonName(name));
    UpdatedNewKeys(base, added, "menu");
    UpdatedNewKeys(base, added, "selected_value");
    var b := ButtonName(name);
    assert |b| > |name| && b[|b| - 2] == 'p';
    assert b != "values" && b != "menu" && b != "selected_value";
    if name !in {"values", "menu", "selected_value"} {
      assert name !in added;
      UpdatedOtherKeys(base, added, name);
    }
  }

  /** `"#" + popover_id + LABEL`: the labels inside the popover the button opens. */
  function OptionsPath(id: string): Entry {
    CssPair("#" + id + Label)
  }

  /** What `select` and `get_dropdown_values` share: click the button, wait for the menu,
      read the button's popover id, and find the option labels inside that popover. */
  function OptionsStep(pages: seq<Dom>, st: State, reg: Registry, button: string)
    : (r: (Result<seq<Element>>, State))
    requires st.page < |pages|
    ensures r.1.page < |pages|
    ensures r.1 == ClickElementStep(|pages|, pages[st.page], st, reg, button).1
  {
    var (o, s) := ClickElementStep(|pages|, pages[st.page], st, reg, button);
    if o.Fail? then (Err(o.error), s)
    else
      var dom := pages[s.page];
      match WaitForElement(reg, dom, "menu")
      case Err(e) => (Err(e), s)
      case Ok(_) =>
        match GetElement(reg, dom, button)
        case Err(e) => (Err(e), s)
        case Ok(el) =>
          match Attr(el, PopoverIdAttr)
          case None => (Err(TypeError), s)
          case Some(id) =>
            match FindAll(dom, OptionsPath(id))
            case Err(e) => (Err(e), s)
            case Ok(els) => (Ok(els), s)
  }

  /** The options always come from the popover named by the button on the page the click
      led to, and a button without a popover id raises TypeError once the menu is shown. */
  lemma OptionsFromPopover(pages: seq<Dom>, st: State, reg: Registry, button: string)
    requires st.page < |pages|
    ensures var (r, s) := OptionsStep(pages, st, reg, button);
            var dom := pages[s.page];
            var el := GetElement(reg, dom, button);
            (r.Ok? ==>
               ClickElementStep(|pages|, pages[st.page], st, reg, button).0 == Pass &&
               WaitForElement(reg, dom, "menu").Ok? && el.Ok? &&
               PopoverIdAttr in el.value.attrs &&
               r.value == FindAll(dom, OptionsPath(el.value.attrs[PopoverIdAttr])).value) &&
            (ClickElementStep(|pages|, pages[st.page], st, reg, button).0 == Pass &&
             WaitForElement(reg, dom, "menu").Ok? && el.Ok? && PopoverIdAttr !in el.value.attrs ==>
               r == Err(TypeError))
  {
  }

  /** `select(value)`: the first option whose stripped lower-cased text is `value.lower()`. */
  function SelectStep(pages: seq<Dom>, st: State, reg: Registry, button: string, value: string)
    : (r: (Result<bool>, State))
    requires st.page < |pages|
    ensures r.1.page < |pages|
  {
    var (found, s) := OptionsStep(pages, st, reg, button);
    match found
    case Err(e) => (Err(e), s)
    case Ok(els) => PickStep(|pages|, s, els, FoldedTexts(els), Lower(value))
  }

  /** Once the options are found, `select` clicks the first one labelled `value` (ignoring
      case and surrounding blanks) and returns True, or raises ValueError without clicking;
      it never returns False. */
  lemma SelectClicksFirstMatch(pages: seq<Dom>, st: State, reg: Registry, button: string, value: string)
    requires st.page < |pages| && OptionsStep(pages, st, reg, button).0.Ok?
    ensures var (found, s) := OptionsStep(pages, st, reg, button);
            var els := found.value;
            var (r, post) := SelectStep(pages, st, reg, button, value);
            r != Ok(false) &&
            (Lower(value) !in FoldedTexts(els) ==> r == Err(ValueError) && post == s) &&
            (Lower(value) in FoldedTexts(els) ==>
               exists i :: 0 <= i < |els| && Folded(els[i].text) == Lower(value) &&
                 Lower(value) !in FoldedTexts(els)[..i] &&
                 (!els[i].clickFails ==> r == Ok(true) && post.log == s.log + [Clicked(els[i])]))
  {
    var (found, s) := OptionsStep(pages, st, reg, button);
    PickClicksFirstMatch(|pages|, s, found.value, FoldedTexts(found.value), Lower(value));
  }

  /** The texts that are not empty, in order. */
  function Shown(texts: seq<string>): (r: seq<string>)
    ensures |r| <= |texts|
  {
    if texts == [] then []
    else (if texts[0] != "" then [texts[0]] else []) + Shown(texts[1..])
  }

  /** `Shown` keeps exactly the non-empty texts. */
  lemma {:induction false} ShownMembers(texts: seq<string>)
    ensures forall x :: x in Shown(texts) <==> x in texts && x != ""
  {
    if texts != [] {
      ShownMembers(texts[1..]);
      assert texts == [texts[0]] + texts[1..];
    }
  }

  /** `Shown` keeps the order: it filters each part of a list separately. */
  lemma {:induction false} ShownAppend(a: seq<string>, b: seq<string>)
    ensures Shown(a + b) == Shown(a) + Shown(b)
  {
    if a == [] {
      assert a + b == b;
    } else {
      assert (a + b)[1..] == a[1..] + b;
      ShownAppend(a[1..], b);
    }
  }

  /** A list without empty texts is kept whole. */
  lemma {:induction false} ShownAllKept(texts: seq<string>)
    requires forall i :: 0 <= i < |texts| ==> texts[i] != ""
    ensures Shown(texts) == texts
  {
    if texts != [] {
      ShownAllKept(texts[1..]);
    }
  }

  /** `get_dropdown_values`: the stripped option texts, without the empty hidden ones. */
  function GetDropdownValuesStep(pages: seq<Dom>, st: State, reg: Registry, button: string)
    : (r: (Result<seq<string>>, State))
    requires st.page < |pages|
    ensures r.1.page < |pages|
  {
    var (found, s) := OptionsStep(pages, st, reg, button);
    match found
    case Err(e) => (Err(e), s)
    case Ok(els) => (Ok(Shown(StrippedTexts(els))), s)
  }

  /** Every value `get_dropdown_values` returns is a non-empty stripped option text, and
      every option with a non-empty stripped text is among them. */
  lemma DropdownValuesContract(pages: seq<Dom>, st: State, reg: Registry, button: string)
    requires st.page < |pages|
    ensures var (r, s) := GetDropdownValuesStep(pages, st, reg, button);
            var found := OptionsStep(pages, st, reg, button).0;
            (r.Ok? <==> found.Ok?) &&
            (r.Ok? ==> (forall x :: x in r.value ==> x != "" && NoEdgeSpace(x)) &&
                       (forall i :: 0 <= i < |found.value| && Strip(found.value[i].text) != "" ==>
                          Strip(found.value[i].text) in r.value))
  {
    var found := OptionsStep(pages, st, reg, button).0;
    if found.Ok? {
      var texts := StrippedTexts(found.value);
      ShownMembers(texts);
      forall i | 0 <= i < |found.value| && Strip(found.value[i].text) != ""
        ensures Strip(found.value[i].text) in Shown(texts)
      {
        assert texts[i] == Strip(found.value[i].text);
      }
    }
  }

  /** The shared prelude, on the registry `reg` of a dropdown whose button is `button`. */
  method Options(driver: Session, reg: Registry, button: string) returns (r: Result<seq<Element>>)
    requires driver.Valid()
    modifies driver
    ensures driver.Valid()
    ensures (r, driver.Now()) == OptionsStep(driver.pages, old(driver.Now()), reg, button)
  {
    var o := ClickElementIn(driver, reg, button);
    if o.Fail? {
      return Err(o.error);
    }
    var dom := driver.Current();
    var w := WaitForElement(reg, dom, "menu");
    if w.Err? {
      return Err(w.error);
    }
    var el := GetElement(reg, dom, button);
    if el.Err? {
      return Err(el.error);
    }
    var id := Attr(el.value, PopoverIdAttr);
    if id.None? {
      return Err(TypeError);
    }
    r := FindAll(dom, OptionsPath(id.value));
  }

  /** `select(value)` on the registry `reg` of a dropdown whose button is `button`. */
  method SelectOption(driver: Session, reg: Registry, button: string, value: string) returns (r: Result<bool>)
    requires driver.Valid()
    modifies driver
    ensures driver.Valid()
    ensures (r, driver.Now()) == SelectStep(driver.pages, old(driver.Now()), reg, button, value)
  {
    var found := Options(driver, reg, button);
    if found.Err? {
      return Err(found.error);
    }
    var els := found.value;
    r := Pick(driver, els, FoldedTexts(els), Lower(value));
  }

  /** The loop of `get_dropdown_values`: append each stripped text that is not empty. */
  method ShownTexts(options: seq<Element>) returns (values: seq<string>)
    ensures values == Shown(StrippedTexts(options))
  {
    ghost var texts := StrippedTexts(options);
    values := [];
    var i := 0;
    while i < |options|
      invariant 0 <= i <= |options|
      invariant values + Shown(texts[i..]) == Shown(texts)
    {
      assert texts[i..][1..] == texts[i + 1..];
      var text := Strip(options[i].text);
      if text != "" {
        values := values + [text];
      }
      i := i + 1;
    }
    assert texts[i..] == [];
    assert values + [] == values;
  }

  /** `get_selected_value`. */
  function SelectedValueStep(dom: Dom, reg: Registry): (r: Result<string>)
    ensures r.Ok? <==> GetElement(reg, dom, "selected_value").Ok?
    ensures r.Ok? ==> NoEdgeSpace(r.value) && r.value == Strip(GetElement(reg, dom, "selected_value").value.text)
  {
    match GetElement(reg, dom, "selected_value")
    case Err(e) => Err(e)
    case Ok(el) => Ok(Strip(el.text))
  }

  /** `DropDown(driver, name, value, by, multi_input)`. */
  class DropDown {
    const driver: Session
    const locator: Locator
    const button: string
    const multiInput: bool

    ghost predicate Valid()
      reads this, driver, locator
    {
      driver.Valid() && locator.Valid()
    }

    constructor (driver: Session, name: string, value: string, how: Option<By>, multiInput: bool)
      requires driver.Valid()
      ensures Valid() && this.driver == driver && this.multiInput == multiInput
      ensures button == ButtonName(name)
      ensures fresh(locator) && locator.locators == DropDownRegistry(name, value, how)
    {
      this.driver := driver;
      this.multiInput := multiInput;
      this.button := ButtonName(name);
      var loc := new Locator(map[name := Entry(how, value)]);
      loc.UpdateLocaters(DropDownLocators(name, value, how));
      this.locator := loc;
    }

    method Select(value: string) returns (r: Result<bool>)
      requires Valid()
      modifies driver
      ensures Valid()
      ensures (r, driver.Now()) == SelectStep(driver.pages, old(driver.Now()), locator.locators, button, value)
    {
      r := SelectOption(driver, locator.locators, button, value);
    }

    method GetDropdownValues() returns (r: Result<seq<string>>)
      requires Valid()
      modifies driver
      ensures Valid()
      ensures (r, driver.Now()) == GetDropdownValuesStep(driver.pages, old(driver.Now()), locator.locators, button)
    {
      var found := Options(driver, locator.locators, button);
      if found.Err? {
        return Err(found.error);
      }
      var values := ShownTexts(found.value);
      r := Ok(values);
    }

    method GetSelectedValue() returns (r: Result<string>)
      requires Valid()
      ensures r == SelectedValueStep(driver.Current(), locator.locators)
    {
      var el := GetElement(locator.locators, driver.Current(), "selected_value");
      if el.Err? {
        return Err(el.error);
      }
      r := Ok(Strip(el.value.text));
    }
  }
}
