/** `AlertContainerAction`: the alert editor's form. It is opened by its own button, and
    closed, cancelled or saved like a `ContainerAction`, except that every wait is for the
    save button (`"wait_btn"`) to disappear rather than for a modal. */
module AlertContainerActions {
  import opened Outcomes
  import opened Locators
  import opened Browser
  import opened AlertComponentActions
  import opened Components
  import opened ContainerActions

  const SaveSelector := ".alert-save-as .btn-save"

  /** The pair `AlertContainerAction.__init__` adds to the caller's dictionary. */
  function AlertContainerLocators(): Registry {
    map["wait_btn" := Entry(None, SaveSelector)]
  }

  function AlertContainerRegistry(container: Registry): (r: Registry)
    ensures r.Keys == container.Keys + {"wait_btn"}
  {
    UpdatedKeys(Normalize(container), AlertContainerLocators());
    Updated(Normalize(container), AlertContainerLocators())
  }

  /** `AlertButton(driver, name, value, None)`. */
  function AlertWidget(name: string, value: string): Widget {
    Widget(name, AlertBaseRegistry(name, Entry(None, value)))
  }

  function NewAlertButton(): Widget { AlertWidget("new_alert_btn", ".new-alert-button") }
  function AlertSaveButton(): Widget { AlertWidget("alert_save", SaveSelector) }
  function AlertCancelButton(): Widget { AlertWidget("alert_cancel", ".alert-save-as .btn.cancel") }
  function AlertCloseButton(): Widget { AlertWidget("alert_close", ".close") }
  function GotItButton(): Widget { AlertWidget("got_it_button", ".modal-footer .btn-save") }
  function AlertErrorContainer(): Widget { BaseWidget("error_msg", ".alert-save-as .alert-error", None) }

  /** An alert button called neither "label_component" nor "help" is found through its own
      selector, as a CSS selector. */
  lemma AlertWidgetResolves(name: string, value: string)
    requires name !in AlertBaseLocators()
    ensures Resolve(AlertWidget(name, value).reg, name) == Ok(CssPair(value))
  {
    UpdatedOtherKeys(Normalize(map[name := Entry(None, value)]), AlertBaseLocators(), name);
  }

  /** Whatever the caller's dictionary holds, `"wait_btn"` names the very element the save
      button clicks, so every wait of this form is for the save button to go away. */
  lemma WaitIsForSaveButton(container: Registry)
    ensures Resolve(AlertContainerRegistry(container), "wait_btn") == Ok(CssPair(SaveSelector))
    ensures Resolve(AlertSaveButton().reg, "alert_save") == Ok(CssPair(SaveSelector))
  {
    UpdatedNewKeys(Normalize(container), AlertContainerLocators(), "wait_btn");
    AlertWidgetResolves("alert_save", SaveSelector);
  }

  /** `_remove_got_it_popup`: click the "Got it" button; a failure is swallowed, so only the
      state changes. */
  function RemoveGotItStep(pages: seq<Dom>, st: State): (r: State)
    requires st.page < |pages|
    ensures r.page < |pages|
  {
    ClickStep(pages, st, GotItButton()).1
  }

  /** Removing the popup clicks the element `.modal-footer .btn-save` when it is clickable
      and its click goes through, and otherwise changes nothing and raises nothing. */
  lemma RemoveGotItEffect(pages: seq<Dom>, st: State)
    requires st.page < |pages|
    ensures var w := Clickability(pages[st.page], CssPair(".modal-footer .btn-save"));
            var post := RemoveGotItStep(pages, st);
            (w.Ok? && !w.value.clickFails ==> post.log == st.log + [Clicked(w.value)]) &&
            (w.Err? || w.value.clickFails ==> post == st)
  {
    AlertWidgetResolves("got_it_button", ".modal-footer .btn-save");
  }

  /** `AlertContainerAction(driver, container)`. */
  class AlertContainerAction {
    const driver: Session
    const locator: Locator

    ghost predicate Valid()
      reads this, driver, locator
    {
      driver.Valid() && locator.Valid()
    }

    constructor (driver: Session, container: Registry)
      requires driver.Valid()
      ensures Valid() && this.driver == driver
      ensures fresh(locator) && locator.locators == AlertContainerRegistry(container)
    {
      this.driver := driver;
      var loc := new Locator(container);
      loc.UpdateLocaters(AlertContainerLocators());
      this.locator := loc;
    }

    /** `open`: a failing click is raised. */
    method Open() returns (o: Outcome)
      requires Valid()
      modifies driver
      ensures Valid()
      ensures (o, driver.Now()) == ClickStep(driver.pages, old(driver.Now()), NewAlertButton())
    {
      o := Click(driver, NewAlertButton());
    }

    method Close() returns (ok: bool)
      requires Valid()
      modifies driver
      ensures Valid()
      ensures (ok, driver.Now()) == DismissStep(driver.pages, old(driver.Now()), locator.locators, AlertCloseButton(), "wait_btn")
    {
      ok := Dismiss(driver, locator.locators, AlertCloseButton(), "wait_btn");
    }

    method Cancel() returns (ok: bool)
      requires Valid()
      modifies driver
      ensures Valid()
      ensures (ok, driver.Now()) == DismissStep(driver.pages, old(driver.Now()), locator.locators, AlertCancelButton(), "wait_btn")
    {
      ok := Dismiss(driver, locator.locators, AlertCancelButton(), "wait_btn");
    }

    method SaveForm() returns (r: SaveResult)
      requires Valid()
      modifies driver
      ensures Valid()
      ensures (r, driver.Now()) ==
              SaveStep(driver.pages, old(driver.Now()), locator.locators, AlertSaveButton(), AlertErrorContainer(), "wait_btn")
    {
      r := Save(driver, locator.locators, AlertSaveButton(), AlertErrorContainer(), "wait_btn");
    }

    /** `error_message`: the error box's text; a failing read is raised. */
    method ErrorMessage() returns (r: Result<string>)
      requires Valid()
      ensures r == GetMessage(driver.Current(), AlertErrorContainer())
    {
      r := GetMessage(driver.Current(), AlertErrorContainer());
    }

    method RemoveGotItPopup()
      requires Valid()
      modifies driver
      ensures Valid()
      ensures driver.Now() == RemoveGotItStep(driver.pages, old(driver.Now()))
    {
      var _ := Click(driver, GotItButton());
    }
  }
}
