/** `ContainerAction`: a modal form opened by an "Add" button or a create-input control,
    and closed, cancelled or saved from buttons inside the modal. Every step either
    reports failure as False or, for `save`, as the error text the form shows. The
    buttons and the error box are components with registries of their own. */
module ContainerActions {
  import opened Outcomes
  import opened Locators
  import opened Browser
  import opened AlertComponentActions
  import opened Components
  import DropDowns

  const Modal := " [data-test=\"modal\"]"

  /** The pairs the constructor adds to the caller's dictionary. */
  function ContainerLocators(): Registry {
    map["wait-spinner" := Css("[data-test=\"wait-spinner\"]"), "open_modal" := Css(Modal)]
  }

  /** The registry after `ContainerAction.__init__`. */
  function ContainerRegistry(elementLocators: Registry): (r: Registry)
    ensures "open_modal" in r && r["open_modal"] == CssPair(Modal)
    ensures r.Keys == elementLocators.Keys + {"wait-spinner", "open_modal"}
  {
    UpdatedKeys(Normalize(elementLocators), ContainerLocators());
    Updated(Normalize(elementLocators), ContainerLocators())
  }

  /** The control `add` opens the form with when the widget takes input of its own. */
  datatype Create =
    | ByDropDown(button: string, reg: Registry)   // `DropDown("add_input_btn", "addInputBtn", By.ID, True)`
    | ByButton(widget: Widget)                     // `Button("add_input_btn", "addInputBtn", By.ID)`
    | NoCreate

  /** The constructor builds the dropdown for multi-input, otherwise the button for
      single-input, otherwise neither: multi-input wins when both flags are set. */
  function CreateFor(multi: bool, single: bool): (c: Create)
    ensures c.ByDropDown? <==> multi
    ensures c.ByButton? <==> !multi && single
  {
    if multi then
      ByDropDown(DropDowns.ButtonName("add_input_btn"), DropDowns.DropDownRegistry("add_input_btn", "addInputBtn", Some(Id)))
    else if single then ByButton(BaseWidget("add_input_btn", "addInputBtn", Some(Id)))
    else NoCreate
  }

  function SaveButton(): Widget { BaseWidget("save_btn", Modal + " .saveBtn", None) }
  function CloseButton(): Widget { BaseWidget("close_btn", Modal + " button[data-test=\"close\"]", None) }
  function CancelButton(): Widget { BaseWidget("cancel_btn", Modal + " button[data-test=\"button\"][label=\"Cancel\"]", None) }
  function AddButton(value: string): Widget { BaseWidget("add_btn", value + " button[data-test=\"button\"][label=\"Add\"]", None) }
  function ConfigSaveButton(value: string): Widget { BaseWidget("save_btn", value + " .saveBtn", None) }
  function ErrorContainer(): Widget {
    BaseWidget("error_msg", "[data-test-type=\"error\"][data-test=\"message\"] div[data-test=\"content\"]", None)
  }

  /** Every button is found through its own pair: none is called like a base pair. */
  lemma ButtonsResolve(value: string)
    ensures Resolve(SaveButton().reg, "save_btn") == Ok(CssPair(Modal + " .saveBtn"))
    ensures Resolve(AddButton(value).reg, "add_btn") == Ok(CssPair(value + " button[data-test=\"button\"][label=\"Add\"]"))
    ensures Resolve(ConfigSaveButton(value).reg, "save_btn") == Ok(CssPair(value + " .saveBtn"))
  {
    BaseWidgetResolves("save_btn", Modal + " .saveBtn", None);
    BaseWidgetResolves("add_btn", value + " button[data-test=\"button\"][label=\"Add\"]", None);
    BaseWidgetResolves("save_btn", value + " .saveBtn", None);
  }

  /** The error box too is found through its own selector. */
  lemma ErrorContainerResolves()
    ensures Resolve(ErrorContainer().reg, "error_msg") ==
            Ok(CssPair("[data-test-type=\"error\"][data-test=\"message\"] div[data-test=\"content\"]"))
  {
    BaseWidgetResolves("error_msg", "[data-test-type=\"error\"][data-test=\"message\"] div[data-test=\"content\"]", None);
  }

  /** `Button.click()`. */
  function ClickStep(pages: seq<Dom>, st: State, w: Widget): (r: (Outcome, State))
    requires st.page < |pages|
    ensures r.1.page < |pages|
  {
    ClickElementStep(|pages|, pages[st.page], st, w.reg, w.name)
  }

  /** `Message.get_message()`: the stripped text of the message element. */
  function GetMessage(dom: Dom, w: Widget): (r: Result<string>)
    ensures r.Ok? <==> GetElement(w.reg, dom, w.name).Ok?
    ensures r.Ok? ==> r.value == Text.Strip(GetElement(w.reg, dom, w.name).value.text)
  {
    match GetElement(w.reg, dom, w.name)
    case Err(e) => Err(e)
    case Ok(el) => Ok(Text.Strip(el.text))
  }

  /** The error probe of `save`: the message, or `""` when reading it raised. */
  function Probe(dom: Dom, w: Widget): (r: string)
    ensures Text.NoEdgeSpace(r)
    ensures r != "" ==> GetMessage(dom, w) == Ok(r)
  {
    match GetMessage(dom, w)
    case Err(_) => ""
    case Ok(t) => t
  }

  /** The action `add` performs before waiting for the modal. With both flags set and no
      value it reaches for the create button the constructor never built, which raises
      AttributeError. */
  function AddAction(pages: seq<Dom>, st: State, value: string, multi: bool, single: bool, input: Option<string>)
    : (r: (Outcome, State))
    requires st.page < |pages|
    ensures r.1.page < |pages|
  {
    var create := CreateFor(multi, single);
    if multi && Truthy(input) then
      var (s, post) := DropDowns.SelectStep(pages, st, create.reg, create.button, input.value);
      (if s.Ok? then Pass else Fail(s.error), post)
    else if single then
      if create.ByButton? then ClickStep(pages, st, create.widget) else (Fail(AttributeError), st)
    else ClickStep(pages, st, AddButton(value))
  }

  /** `add(value)`: the action, then wait for the modal to open; any exception gives False. */
  function AddStep(pages: seq<Dom>, st: State, reg: Registry, value: string, multi: bool, single: bool, input: Option<string>)
    : (r: (bool, State))
    requires st.page < |pages|
    ensures r.1.page < |pages|
  {
    var (o, s) := AddAction(pages, st, value, multi, single, input);
    if o.Fail? then (false, s)
    else (WaitForElement(reg, pages[s.page], "open_modal").Ok?, s)
  }

  /** `add` returns True iff its action went through and the modal then showed; which
      action it takes depends on the flags and on whether a value was given. */
  lemma AddContract(pages: seq<Dom>, st: State, reg: Registry, value: string, multi: bool, single: bool, input: Option<string>)
    requires st.page < |pages|
    ensures var (ok, post) := AddStep(pages, st, reg, value, multi, single, input);
            var (o, s) := AddAction(pages, st, value, multi, single, input);
            post == s &&
            (ok <==> o == Pass && WaitForElement(reg, pages[s.page], "open_modal").Ok?) &&
            (!multi && single ==> (o, s) == ClickStep(pages, st, BaseWidget("add_input_btn", "addInputBtn", Some(Id)))) &&
            (!single && !(multi && Truthy(input)) ==> (o, s) == ClickStep(pages, st, AddButton(value))) &&
            (multi && single && !Truthy(input) ==> ok == false && post == st)
  {
  }

  /** With a value, a multi-input container opens through the dropdown: `add` is True
      exactly when the dropdown selected the value and the modal showed. */
  lemma AddThroughDropDown(pages: seq<Dom>, st: State, reg: Registry, value: string, single: bool, input: string)
    requires st.page < |pages| && input != ""
    ensures var create := CreateFor(true, single);
            var (sel, s) := DropDowns.SelectStep(pages, st, create.reg, create.button, input);
            AddStep(pages, st, reg, value, true, single, Some(input)) ==
              (sel == Ok(true) && WaitForElement(reg, pages[s.page], "open_modal").Ok?, s)
  {
    var create := CreateFor(true, single);
    var (found, s) := DropDowns.OptionsStep(pages, st, create.reg, create.button);
    if found.Ok? {
      DropDowns.SelectClicksFirstMatch(pages, st, create.reg, create.button, input);
    }
  }

  /** `close` and `cancel`: click the button, then wait for the modal to disappear. */
  function DismissStep(pages: seq<Dom>, st: State, reg: Registry, button: Widget, wait: string): (r: (bool, State))
    requires st.page < |pages|
    ensures r.1.page < |pages|
  {
    var (o, s) := ClickStep(pages, st, button);
    if o.Fail? then (false, s)
    else (WaitForElementInvisible(reg, pages[s.page], wait).Pass?, s)
  }

  /** True iff the click and the wait both went through; a failed click changes nothing. */
  lemma DismissIff(pages: seq<Dom>, st: State, reg: Registry, button: Widget, wait: string)
    requires st.page < |pages|
    ensures var (ok, post) := DismissStep(pages, st, reg, button, wait);
            var (o, s) := ClickStep(pages, st, button);
            post == s &&
            (ok <==> o == Pass && WaitForElementInvisible(reg, pages[s.page], wait) == Pass) &&
            (o.Fail? ==> post == st)
  {
  }

  /** What `save` returns: the error text the form shows, or True/False. */
  datatype SaveResult = ErrorText(text: string) | Saved(ok: bool)

  /** `save`: click save, read the error box (a failing read counts as no error), return
      the error text when there is one, otherwise wait for the modal to disappear. */
  function SaveStep(pages: seq<Dom>, st: State, reg: Registry, button: Widget, errors: Widget, wait: string)
    : (r: (SaveResult, State))
    requires st.page < |pages|
    ensures r.1.page < |pages|
  {
    var (o, s) := ClickStep(pages, st, button);
    if o.Fail? then (Saved(false), s)
    else
      var msg := Probe(pages[s.page], errors);
      if msg != "" then (ErrorText(msg), s)
      else (Saved(WaitForElementInvisible(reg, pages[s.page], wait).Pass?), s)
  }

  /** The three outcomes of `save`: the shown error text, never empty, without waiting;
      True once the click went through, the error box was empty or unreadable and the
      modal disappeared; False when the click or that wait failed. */
  lemma SaveThreeWay(pages: seq<Dom>, st: State, reg: Registry, button: Widget, errors: Widget, wait: string)
    requires st.page < |pages|
    ensures var (r, post) := SaveStep(pages, st, reg, button, errors, wait);
            var (o, s) := ClickStep(pages, st, button);
            var dom := pages[s.page];
            post == s &&
            (r.ErrorText? <==> o == Pass && GetMessage(dom, errors).Ok? && GetMessage(dom, errors).value != "") &&
            (r.ErrorText? ==> r.text == GetMessage(dom, errors).value && Text.NoEdgeSpace(r.text)) &&
            (r == Saved(true) <==> o == Pass && Probe(dom, errors) == "" && WaitForElementInvisible(reg, dom, wait) == Pass) &&
            (r == Saved(false) <==> o.Fail? || (Probe(dom, errors) == "" && WaitForElementInvisible(reg, dom, wait).Fail?))
  {
  }

  /** `save_config`: click the form's own save button, then wait for the container. */
  function SaveConfigStep(pages: seq<Dom>, st: State, reg: Registry, name: string, value: string): (r: (bool, State))
    requires st.page < |pages|
    ensures r.1.page < |pages|
  {
    var (o, s) := ClickStep(pages, st, ConfigSaveButton(value));
    if o.Fail? then (false, s)
    else (WaitForElement(reg, pages[s.page], name).Ok?, s)
  }

  /** `save_config` is True iff the click went through and the container is visible after it. */
  lemma SaveConfigIff(pages: seq<Dom>, st: State, reg: Registry, name: string, value: string)
    requires st.page < |pages|
    ensures var (ok, post) := SaveConfigStep(pages, st, reg, name, value);
            var (o, s) := ClickStep(pages, st, ConfigSaveButton(value));
            post == s && (ok <==> o == Pass && WaitForElement(reg, pages[s.page], name).Ok?)
  {
  }

  /** `Button.click()` as a method. */
  method Click(driver: Session, w: Widget) returns (o: Outcome)
    requires driver.Valid()
    modifies driver
    ensures driver.Valid()
    ensures (o, driver.Now()) == ClickStep(driver.pages, old(driver.Now()), w)
  {
    o := ClickElementIn(driver, w.reg, w.name);
  }

  /** The body shared by `close` and `cancel`. */
  method Dismiss(driver: Session, reg: Registry, button: Widget, wait: string) returns (ok: bool)
    requires driver.Valid()
    modifies driver
    ensures driver.Valid()
    ensures (ok, driver.Now()) == DismissStep(driver.pages, old(driver.Now()), reg, button, wait)
  {
    var o := Click(driver, button);
    if o.Fail? {
      return false;
    }
    ok := WaitForElementInvisible(reg, driver.Current(), wait).Pass?;
  }

  /** The body of `save`. */
  method Save(driver: Session, reg: Registry, button: Widget, errors: Widget, wait: string) returns (r: SaveResult)
    requires driver.Valid()
    modifies driver
    ensures driver.Valid()
    ensures (r, driver.Now()) == SaveStep(driver.pages, old(driver.Now()), reg, button, errors, wait)
  {
    var o := Click(driver, button);
    if o.Fail? {
      return Saved(false);
    }
    var msg := "";
    var read := GetMessage(driver.Current(), errors);
    if read.Ok? {
      msg := read.value;
    }
    if msg != "" {
      return ErrorText(msg);
    }
    r := Saved(WaitForElementInvisible(reg, driver.Current(), wait).Pass?);
  }

  /** `ContainerAction(driver, element_locators, multi_input, single_input)`. A dictionary
      without order has no first key, so the caller names the container's entry. */
  class ContainerAction {
    const driver: Session
    const locator: Locator
    const name: string
    const value: string
    const multiInput: bool
    const singleInput: bool
    const create: Create

    ghost predicate Valid()
      reads this, driver, locator
    {
      driver.Valid() && locator.Valid() && create == CreateFor(multiInput, singleInput)
    }

    constructor (driver: Session, elementLocators: Registry, name: string, multiInput: bool, singleInput: bool)
      requires driver.Valid() && name in elementLocators
      ensures Valid() && this.driver == driver && this.name == name
      ensures value == elementLocators[name].selector
      ensures this.multiInput == multiInput && this.singleInput == singleInput
      ensures create == CreateFor(multiInput, singleInput)
      ensures fresh(locator) && locator.locators == ContainerRegistry(elementLocators)
    {
      this.driver := driver;
      this.name := name;
      this.value := elementLocators[name].selector;
      this.multiInput := multiInput;
      this.singleInput := singleInput;
      var loc := new Locator(elementLocators);
      loc.UpdateLocaters(ContainerLocators());
      this.locator := loc;
      if multiInput {
        this.create := ByDropDown(DropDowns.ButtonName("add_input_btn"),
                                  DropDowns.DropDownRegistry("add_input_btn", "addInputBtn", Some(Id)));
      } else if singleInput {
        this.create := ByButton(BaseWidget("add_input_btn", "addInputBtn", Some(Id)));
      } else {
        this.create := NoCreate;
      }
    }

    method Add(input: Option<string>) returns (ok: bool)
      requires Valid()
      modifies driver
      ensures Valid()
      ensures (ok, driver.Now()) ==
              AddStep(driver.pages, old(driver.Now()), locator.locators, value, multiInput, singleInput, input)
    {
      var o;
      if multiInput && Truthy(input) {
        var s := DropDowns.SelectOption(driver, create.reg, create.button, input.value);
        o := if s.Ok? then Pass else Fail(s.error);
      } else if singleInput {
        if create.ByButton? {
          o := Click(driver, create.widget);
        } else {
          o := Fail(AttributeError);
        }
      } else {
        o := Click(driver, AddButton(value));
      }
      if o.Fail? {
        return false;
      }
      ok := WaitForElement(locator.locators, driver.Current(), "open_modal").Ok?;
    }

    method Close() returns (ok: bool)
      requires Valid()
      modifies driver
      ensures Valid()
      ensures (ok, driver.Now()) == DismissStep(driver.pages, old(driver.Now()), locator.locators, CloseButton(), "open_modal")
    {
      ok := Dismiss(driver, locator.locators, CloseButton(), "open_modal");
    }

    method Cancel() returns (ok: bool)
      requires Valid()
      modifies driver
      ensures Valid()
      ensures (ok, driver.Now()) == DismissStep(driver.pages, old(driver.Now()), locator.locators, CancelButton(), "open_modal")
    {
      ok := Dismiss(driver, locator.locators, CancelButton(), "open_modal");
    }

    method SaveForm() returns (r: SaveResult)
      requires Valid()
      modifies driver
      ensures Valid()
      ensures (r, driver.Now()) ==
              SaveStep(driver.pages, old(driver.Now()), locator.locators, SaveButton(), ErrorContainer(), "open_modal")
    {
      r := Save(driver, locator.locators, SaveButton(), ErrorContainer(), "open_modal");
    }

    method SaveConfig() returns (ok: bool)
      requires Valid()
      modifies driver
      ensures Valid()
      ensures (ok, driver.Now()) == SaveConfigStep(driver.pages, old(driver.Now()), locator.locators, name, value)
    {
      var o := Click(driver, ConfigSaveButton(value));
      if o.Fail? {
        return false;
      }
      ok := WaitForElement(locator.locators, driver.Current(), name).Ok?;
    }

    /** `error_message`: the error box's text; a failing read is raised. */
    method ErrorMessage() returns (r: Result<string>)
      requires Valid()
      ensures r == GetMessage(driver.Current(), ErrorContainer())
    {
      r := GetMessage(driver.Current(), ErrorContainer());
    }
  }
}
