/** `CheckBox`: a two-state form widget. Reading its state is one attribute of one
    element, and `check`/`uncheck` click its button only when the state differs from the
    one asked for. The steps are written once for both checkbox widgets, over the names
    of the button and of the element carrying the state, and the attribute that holds it. */
module CheckBoxes {
  import opened Outcomes
  import opened Locators
  import opened Browser
  import opened AlertComponentActions
  import opened Components

  const CheckboxButton := " [data-test=\"controls\"] [data-test=\"button\"][role=\"checkbox\"]"
  const Switch := " [data-test=\"controls\"] [data-test=\"switch\"]"
  const SelectedAttr := "data-test-selected"

  /** Where a checkbox widget keeps its state: the button it clicks, the element whose
      attribute says whether it is checked, and that attribute. */
  datatype Parts = Parts(button: string, box: string, attr: string)

  /** `is_checked`: the attribute reads exactly `"true"`; a missing attribute is unchecked. */
  function IsCheckedStep(dom: Dom, reg: Registry, p: Parts): (r: Result<bool>)
    ensures r.Ok? <==> GetElement(reg, dom, p.box).Ok?
    ensures r.Err? ==> r.error == GetElement(reg, dom, p.box).error
    ensures r.Ok? ==>
              (r.value <==> p.attr in GetElement(reg, dom, p.box).value.attrs &&
                            GetElement(reg, dom, p.box).value.attrs[p.attr] == "true")
  {
    match GetElement(reg, dom, p.box)
    case Err(e) => Err(e)
    case Ok(el) => Ok(Attr(el, p.attr) == Some("true"))
  }

  /** `check` (`target` true, after waiting for the button) and `uncheck` (`target` false,
      without waiting): click the button when the state is not `target` and return True,
      return False when it already is; every exception is raised again. */
  function SetStep(pages: seq<Dom>, st: State, reg: Registry, p: Parts, target: bool, waitFirst: bool)
    : (r: (Result<bool>, State))
    requires st.page < |pages|
    ensures r.1.page < |pages|
  {
    var dom := pages[st.page];
    var w := WaitForElement(reg, dom, p.button);
    if waitFirst && w.Err? then (Err(w.error), st)
    else
      match IsCheckedStep(dom, reg, p)
      case Err(e) => (Err(e), st)
      case Ok(c) =>
        if c == target then (Ok(false), st)
        else
          var (o, s) := ClickElementStep(|pages|, dom, st, reg, p.button);
          (if o.Pass? then Ok(true) else Err(o.error), s)
  }

  /** What one `check`/`uncheck` does: it raises without touching the session, or reports
      whether the state differed from `target`; it clicks the button exactly when it
      returns True, and then only that button. */
  lemma SetStepContract(pages: seq<Dom>, st: State, reg: Registry, p: Parts, target: bool, waitFirst: bool)
    requires st.page < |pages|
    ensures var (r, post) := SetStep(pages, st, reg, p, target, waitFirst);
            var c := IsCheckedStep(pages[st.page], reg, p);
            (r.Err? ==> post == st) &&
            (r.Ok? ==> c.Ok? && (r.value <==> c.value != target)) &&
            (r == Ok(false) ==> post == st) &&
            (r == Ok(true) ==> WaitForElementClickable(reg, pages[st.page], p.button).Ok? &&
                               post.log == st.log + [Clicked(WaitForElementClickable(reg, pages[st.page], p.button).value)])
  {
  }

  /** A page on which the widget behaves as a two-state switch: its state is readable, its
      button is clickable, and the click leads to a page where the state is the opposite. */
  predicate Flips(pages: seq<Dom>, reg: Registry, p: Parts, i: nat)
    requires i < |pages|
  {
    var w := WaitForElementClickable(reg, pages[i], p.button);
    var c := IsCheckedStep(pages[i], reg, p);
    w.Ok? && !w.value.clickFails && w.value.target.Some? && w.value.target.value < |pages| &&
    c.Ok? && IsCheckedStep(pages[w.value.target.value], reg, p) == Ok(!c.value)
  }

  /** Every page behaves as a switch. */
  predicate Toggles(pages: seq<Dom>, reg: Registry, p: Parts) {
    forall i :: 0 <= i < |pages| ==> Flips(pages, reg, p, i)
  }

  /** On a switch, `check`/`uncheck` never fails and always leaves the widget in the state
      asked for. */
  lemma SetReachesTarget(pages: seq<Dom>, st: State, reg: Registry, p: Parts, target: bool, waitFirst: bool)
    requires st.page < |pages| && Toggles(pages, reg, p)
    ensures var (r, post) := SetStep(pages, st, reg, p, target, waitFirst);
            r.Ok? && IsCheckedStep(pages[post.page], reg, p) == Ok(target)
  {
    assert Flips(pages, reg, p, st.page);
  }

  /** On a switch, a second `check` (or `uncheck`) returns False and changes nothing. */
  lemma SetIdempotent(pages: seq<Dom>, st: State, reg: Registry, p: Parts, target: bool, waitFirst: bool)
    requires st.page < |pages| && Toggles(pages, reg, p)
    ensures var post := SetStep(pages, st, reg, p, target, waitFirst).1;
            SetStep(pages, post, reg, p, target, waitFirst) == (Ok(false), post)
  {
    SetReachesTarget(pages, st, reg, p, target, waitFirst);
    var post := SetStep(pages, st, reg, p, target, waitFirst).1;
    assert Flips(pages, reg, p, post.page);
  }

  /** On a switch, `check` then `uncheck` from an unchecked widget clicks the button twice
      and returns to an unchecked state, and the other way round. */
  lemma CheckUncheckRoundTrip(pages: seq<Dom>, st: State, reg: Registry, p: Parts, target: bool)
    requires st.page < |pages| && Toggles(pages, reg, p)
    requires IsCheckedStep(pages[st.page], reg, p) == Ok(!target)
    ensures var (r1, s1) := SetStep(pages, st, reg, p, target, target);
            var (r2, s2) := SetStep(pages, s1, reg, p, !target, !target);
            r1 == Ok(true) && r2 == Ok(true) && |s2.log| == |st.log| + 2 &&
            IsCheckedStep(pages[s2.page], reg, p) == Ok(!target)
  {
    assert Flips(pages, reg, p, st.page);
    var s1 := SetStep(pages, st, reg, p, target, target).1;
    SetReachesTarget(pages, st, reg, p, target, target);
    assert Flips(pages, reg, p, s1.page);
  }

  /** `is_checked` on the current page. */
  method ReadChecked(driver: Session, locator: Locator, p: Parts) returns (r: Result<bool>)
    requires driver.Valid()
    ensures r == IsCheckedStep(driver.Current(), locator.locators, p)
  {
    var found := GetElement(locator.locators, driver.Current(), p.box);
    if found.Err? {
      return Err(found.error);
    }
    var selected := Attr(found.value, p.attr);
    r := Ok(selected == Some("true"));
  }

  /** The body shared by `check` and `uncheck`. */
  method SetState(driver: Session, locator: Locator, p: Parts, target: bool, waitFirst: bool) returns (r: Result<bool>)
    requires driver.Valid() && locator.Valid()
    modifies driver
    ensures driver.Valid()
    ensures (r, driver.Now()) == SetStep(driver.pages, old(driver.Now()), locator.locators, p, target, waitFirst)
  {
    if waitFirst {
      var w := WaitForElement(locator.locators, driver.Current(), p.button);
      if w.Err? {
        return Err(w.error);
      }
    }
    var checked := ReadChecked(driver, locator, p);
    if checked.Err? {
      return Err(checked.error);
    }
    if checked.value == target {
      return Ok(false);
    }
    var o := ClickElement(driver, locator, p.button);
    r := if o.Pass? then Ok(true) else Err(o.error);
  }

  /** The names `CheckBox` registers for a widget called `name`. */
  function CheckBoxParts(name: string): Parts {
    Parts(name + "_checkbox_btn", name + "_checkbox", SelectedAttr)
  }

  /** The registry after `CheckBox.__init__`: the `Base` registry of the control group, then
      the button and the switch, both with the caller's strategy. */
  function CheckBoxRegistry(name: string, value: string, how: Option<By>): Registry {
    var base := ControlGroup(value);
    Updated(BaseRegistry(name, Entry(how, base)),
            map[name + "_checkbox_btn" := Entry(how, base + CheckboxButton),
                name + "_checkbox" := Entry(how, base + Switch)])
  }

  /** The button and the switch resolve to the control group followed by their own
      selectors, and the widget's own name keeps the control group unless it is one of the
      base names. */
  lemma CheckBoxLocators(name: string, value: string, how: Option<By>)
    ensures var reg := CheckBoxRegistry(name, value, how);
            var base := ControlGroup(value);
            Resolve(reg, name + "_checkbox_btn") == Ok(NormalizeEntry(Entry(how, base + CheckboxButton))) &&
            Resolve(reg, name + "_checkbox") == Ok(NormalizeEntry(Entry(how, base + Switch))) &&
            (name !in BaseLocators(base) ==> Resolve(reg, name) == Ok(NormalizeEntry(Entry(how, base))))
  {
    var base := ControlGroup(value);
    var added := map[name + "_checkbox_btn" := Entry(how, base + CheckboxButton),
                     name + "_checkbox" := Entry(how, base + Switch)];
    assert |name + "_checkbox"| > |name| && |name + "_checkbox_btn"| > |name|;
    assert name !in added;
    assert name + "_checkbox" != name + "_checkbox_btn" by {
      assert |name + "_checkbox"| != |name + "_checkbox_btn"|;
    }
    UpdatedNewKeys(BaseRegistry(name, Entry(how, base)), added, name + "_checkbox_btn");
    UpdatedNewKeys(BaseRegistry(name, Entry(how, base)), added, name + "_checkbox");
    UpdatedOtherKeys(BaseRegistry(name, Entry(how, base)), added, name);
    BaseRegistryContainer(name, Entry(how, base));
  }

  /** `CheckBox(driver, name, value, by)`. */
  class CheckBox {
    const driver: Session
    const locator: Locator
    const name: string
    const value: string

    ghost predicate Valid()
      reads this, driver, locator
    {
      driver.Valid() && locator.Valid()
    }

    constructor (driver: Session, name: string, value: string, how: Option<By>)
      requires driver.Valid()
      ensures Valid() && this.driver == driver && this.name == name
      ensures this.value == ControlGroup(value)
      ensures fresh(locator) && locator.locators == CheckBoxRegistry(name, value, how)
    {
      this.driver := driver;
      this.name := name;
      var base := ControlGroup(value);
      this.value := base;
      var loc := new Locator(map[name := Entry(how, base)] + BaseLocators(base));
      loc.UpdateLocaters(map[name + "_checkbox_btn" := Entry(how, base + CheckboxButton),
                             name + "_checkbox" := Entry(how, base + Switch)]);
      this.locator := loc;
    }

    method IsChecked() returns (r: Result<bool>)
      requires Valid()
      ensures r == IsCheckedStep(driver.Current(), locator.locators, CheckBoxParts(name))
    {
      r := ReadChecked(driver, locator, CheckBoxParts(name));
    }

    method Check() returns (r: Result<bool>)
      requires Valid()
      modifies driver
      ensures Valid()
      ensures (r, driver.Now()) ==
              SetStep(driver.pages, old(driver.Now()), locator.locators, CheckBoxParts(name), true, true)
    {
      r := SetState(driver, locator, CheckBoxParts(name), true, true);
    }

    method Uncheck() returns (r: Result<bool>)
      requires Valid()
      modifies driver
      ensures Valid()
      ensures (r, driver.Now()) ==
              SetStep(driver.pages, old(driver.Now()), locator.locators, CheckBoxParts(name), false, false)
    {
      r := SetState(driver, locator, CheckBoxParts(name), false, false);
    }
  }
}
