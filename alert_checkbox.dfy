/** `AlertCheckbox`: the alert form's checkbox. It behaves as `CheckBox` does, but reads its
    state from the `aria-checked` attribute of the widget's own element and clicks a
    button registered as `"checkbox_btn"`. */
module AlertCheckboxes {
  import opened Outcomes
  import opened Locators
  import opened Browser
  import opened AlertComponentActions
  import opened CheckBoxes

  const CheckedAttr := "aria-checked"

  /** The pairs `AlertCheckbox.__init__` registers after the alert base pairs. */
  function CheckboxLocators(name: string, how: Option<By>, value: string): Registry {
    map[
      name := Entry(how, value),
      "checkbox_btn" := Css(value + " .checkbox a.btn"),
      "icon_checked" := Css(value + ".checkbox a.btn .icon-check")
    ]
  }

  /** The registry after `AlertCheckbox.__init__`. */
  function AlertCheckboxRegistry(name: string, how: Option<By>, value: string): Registry {
    Updated(AlertBaseRegistry(name, Entry(how, value)), CheckboxLocators(name, how, value))
  }

  function AlertCheckboxParts(name: string): Parts {
    Parts("checkbox_btn", name, CheckedAttr)
  }

  /** The widget's own name is registered again after the base pairs, so it resolves to the
      caller's pair even when it is called `label_component` or `help`; only the two names
      the constructor itself writes afterwards take it over. */
  lemma AlertCheckboxLocators(name: string, how: Option<By>, value: string)
    ensures var reg := AlertCheckboxRegistry(name, how, value);
            Resolve(reg, "checkbox_btn") == Ok(CssPair(value + " .checkbox a.btn")) &&
            Resolve(reg, "icon_checked") == Ok(CssPair(value + ".checkbox a.btn .icon-check")) &&
            (name !in {"checkbox_btn", "icon_checked"} ==> Resolve(reg, name) == Ok(NormalizeEntry(Entry(how, value)))) &&
            reg.Keys == {name, "label_component", "help", "checkbox_btn", "icon_checked"}
  {
    var added := CheckboxLocators(name, how, value);
    var base := AlertBaseRegistry(name, Entry(how, value));
    UpdatedNewKeys(base, added, "checkbox_btn");
    UpdatedNewKeys(base, added, "icon_checked");
    if name !in {"checkbox_btn", "icon_checked"} {
      UpdatedNewKeys(base, added, name);
    }
    UpdatedKeys(base, added);
  }

  /** `AlertCheckbox(driver, name, value, by)`. */
  class AlertCheckbox {
    const driver: Session
    const locator: Locator
    const name: string

    ghost predicate Valid()
      reads this, driver, locator
    {
      driver.Valid() && locator.Valid()
    }

    constructor (driver: Session, name: string, value: string, how: Option<By>)
      requires driver.Valid()
      ensures Valid() && this.driver == driver && this.name == name
      ensures fresh(locator) && locator.locators == AlertCheckboxRegistry(name, how, value)
    {
      this.driver := driver;
      this.name := name;
      var loc := new Locator(map[name := Entry(how, value)]);
      loc.UpdateLocaters(AlertBaseLocators());
      loc.UpdateLocaters(CheckboxLocators(name, how, value));
      this.locator := loc;
    }

    method IsChecked() returns (r: Result<bool>)
      requires Valid()
      ensures r == IsCheckedStep(driver.Current(), locator.locators, AlertCheckboxParts(name))
    {
      r := ReadChecked(driver, locator, AlertCheckboxParts(name));
    }

    method Check() returns (r: Result<bool>)
      requires Valid()
      modifies driver
      ensures Valid()
      ensures (r, driver.Now()) ==
              SetStep(driver.pages, old(driver.Now()), locator.locators, AlertCheckboxParts(name), true, true)
    {
      r := SetState(driver, locator, AlertCheckboxParts(name), true, true);
    }

    method Uncheck() returns (r: Result<bool>)
      requires Valid()
      modifies driver
      ensures Valid()
      ensures (r, driver.Now()) ==
              SetStep(driver.pages, old(driver.Now()), locator.locators, AlertCheckboxParts(name), false, false)
    {
      r := SetState(driver, locator, AlertCheckboxParts(name), false, false);
    }
  }
}
