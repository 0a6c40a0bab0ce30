/** `AlertComponentAction`: the element façade every alert widget is built on. The waits
    and lookups are functions of the registry and the current page; the actions that
    change the session are methods proved against a step function on `State`. */
module AlertComponentActions {
  import opened Outcomes
  import opened Text
  import opened Locators
  import opened Browser

  /** `WebDriverWait(driver, 15)`. */
  const DefaultWait: int := 15

  /** The wait bound `wait_for_element*` use: a given timeout when it is truthy (not `None`,
      not 0), the default 15-second wait otherwise. */
  function WaitTimeout(timeout: Option<int>): (t: int)
    ensures timeout.Some? && timeout.value != 0 ==> t == timeout.value
    ensures timeout.None? || timeout.value == 0 ==> t == DefaultWait
    ensures t != 0
  {
    if timeout.Some? && timeout.value != 0 then timeout.value else DefaultWait
  }

  /** The pairs `AlertBaseComponent.__init__` adds to every alert widget's registry. */
  function AlertBaseLocators(): Registry {
    map["label_component" := Css(" .control-label"), "help" := Css(" .help-block")]
  }

  /** The registry `AlertBaseComponent.__init__` leaves: the container dictionary, then
      the base pairs on top of it. */
  function AlertBaseRegistry(name: string, container: Entry): (r: Registry)
    ensures r.Keys == {name} + AlertBaseLocators().Keys
    ensures Normal(r)
  {
    Updated(Normalize(map[name := container]), AlertBaseLocators())
  }

  /** `get_element(*get_locator(name))`: presence of the named element. */
  function GetElement(reg: Registry, dom: Dom, name: string): Result<Element> {
    match Resolve(reg, name)
    case Err(e) => Err(e)
    case Ok(entry) => Presence(dom, entry)
  }

  /** `wait_for_element`: visibility of the named element. */
  function WaitForElement(reg: Registry, dom: Dom, name: string): Result<Element> {
    match Resolve(reg, name)
    case Err(e) => Err(e)
    case Ok(entry) => Visibility(dom, entry)
  }

  /** `wait_for_element_invisible`. */
  function WaitForElementInvisible(reg: Registry, dom: Dom, name: string): Outcome {
    match Resolve(reg, name)
    case Err(e) => Fail(e)
    case Ok(entry) => Invisibility(dom, entry)
  }

  /** `wait_for_element_clickable`. */
  function WaitForElementClickable(reg: Registry, dom: Dom, name: string): Result<Element> {
    match Resolve(reg, name)
    case Err(e) => Err(e)
    case Ok(entry) => Clickability(dom, entry)
  }

  /** `_find_elements`: never raises; a rejected selector gives the empty list. */
  function FindElements(dom: Dom, e: Entry): (r: seq<Element>)
    ensures FindAll(dom, e).Err? ==> r == []
    ensures FindAll(dom, e).Ok? ==> r == FindAll(dom, e).value
  {
    match FindAll(dom, e)
    case Err(_) => []
    case Ok(els) => els
  }

  /** `wait_for_element(name)` followed by `_find_elements(*get_locator(name))`: every
      element under the name, once the first one is visible. */
  function WaitAndFind(reg: Registry, dom: Dom, name: string): (r: Result<seq<Element>>)
    ensures r.Ok? <==> WaitForElement(reg, dom, name).Ok?
    ensures r.Err? ==> r.error == WaitForElement(reg, dom, name).error
    ensures r.Ok? ==> name in reg && r.value == FindElements(dom, reg[name]) && r.value != []
  {
    match Resolve(reg, name)
    case Err(e) => Err(e)
    case Ok(entry) =>
      match Visibility(dom, entry)
      case Err(e) => Err(e)
      case Ok(_) => Ok(FindElements(dom, entry))
  }

  /** `_find_elements(*get_locator(name))`: an unknown name still raises IndexError. */
  function FindNamed(reg: Registry, dom: Dom, name: string): (r: Result<seq<Element>>)
    ensures r.Err? <==> name !in reg
    ensures r.Ok? ==> r.value == FindElements(dom, reg[name])
  {
    match Resolve(reg, name)
    case Err(e) => Err(e)
    case Ok(entry) => Ok(FindElements(dom, entry))
  }

  /** `_find_element(element, name)`: the named child of an element. */
  function FindInside(reg: Registry, el: Element, name: string): Result<Element> {
    match Resolve(reg, name)
    case Err(e) => Err(e)
    case Ok(entry) => Within(el, entry)
  }

  /** `get_element_text`. */
  function GetElementText(el: Element): (r: string)
    ensures Normalized(r)
  {
    ElementText(el.innerText)
  }

  /** The message `get_text` falls back to. */
  function NotFound(name: string): string {
    "element text not found of locator=" + name
  }

  /** `get_text`: the trimmed text content of the named element, or the fallback when it
      is empty. */
  function GetText(reg: Registry, dom: Dom, name: string): (r: Result<string>)
    ensures r.Ok? <==> GetElement(reg, dom, name).Ok?
    ensures r.Err? ==> r.error == GetElement(reg, dom, name).error
    ensures r.Ok? ==> r.value != []
    ensures r.Ok? ==> var t := Strip(GetElement(reg, dom, name).value.content);
                      r.value == (if t != [] then t else NotFound(name))
  {
    match GetElement(reg, dom, name)
    case Err(e) => Err(e)
    case Ok(el) =>
      var t := Strip(el.content);
      Ok(if Lower(t) != "" then t else NotFound(name))
  }

  /** `click_element`: waits until the named element is clickable and clicks it; a
      failing wait or click is raised again unchanged, and only a click changes the
      session. */
  function ClickElementStep(count: nat, dom: Dom, st: State, reg: Registry, name: string)
    : (r: (Outcome, State))
    ensures WaitForElementClickable(reg, dom, name).Err? ==>
              r == (Fail(WaitForElementClickable(reg, dom, name).error), st)
    ensures WaitForElementClickable(reg, dom, name).Ok? ==>
              r == ClickEffect(count, st, WaitForElementClickable(reg, dom, name).value)
  {
    match WaitForElementClickable(reg, dom, name)
    case Err(e) => (Fail(e), st)
    case Ok(el) => ClickEffect(count, st, el)
  }

  /** The session changes only when the clickable wait yields an element whose click
      goes through, and then exactly that click is logged. */
  lemma ClickElementClicksOnlyClickable(count: nat, dom: Dom, st: State, reg: Registry, name: string)
    ensures var (o, post) := ClickElementStep(count, dom, st, reg, name);
            var w := WaitForElementClickable(reg, dom, name);
            (o == Pass <==> w.Ok? && !w.value.clickFails) &&
            (o == Pass ==> post.log == st.log + [Clicked(w.value)]) &&
            (o != Pass ==> post == st)
  {
  }

  method ClickElement(driver: Session, locator: Locator, name: string) returns (o: Outcome)
    requires driver.Valid() && locator.Valid()
    modifies driver
    ensures driver.Valid()
    ensures (o, driver.Now()) ==
            ClickElementStep(|driver.pages|, old(driver.Current()), old(driver.Now()), locator.locators, name)
  {
    o := ClickElementIn(driver, locator.locators, name);
  }

  /** `click_element` of a component whose registry is `reg`. */
  method ClickElementIn(driver: Session, reg: Registry, name: string) returns (o: Outcome)
    requires driver.Valid()
    modifies driver
    ensures driver.Valid()
    ensures (o, driver.Now()) ==
            ClickElementStep(|driver.pages|, old(driver.Current()), old(driver.Now()), reg, name)
  {
    var w := WaitForElementClickable(reg, driver.Current(), name);
    if w.Err? {
      o := Fail(w.error);
    } else {
      o := driver.Click(w.value);
    }
  }

  /** `enter_text`: the element is cleared first unless its selector is exactly
      `"password"`, and the text is then typed; the handler re-raises what either call
      raises. An unknown name makes the error handler read the unbound `by` and `value`,
      which raises UnboundLocalError instead. */
  function EnterTextStep(dom: Dom, st: State, reg: Registry, name: string, text: string)
    : (r: (Outcome, State))
    ensures name !in reg ==> r == (Fail(UnboundLocal), st)
    ensures r.1.page == st.page
  {
    match Resolve(reg, name)
    case Err(_) => (Fail(UnboundLocal), st)
    case Ok(entry) =>
      match Presence(dom, entry)
      case Err(e) => (Fail(e), st)
      case Ok(el) =>
        var (o, s) := if entry.selector != "password" then ClearEffect(st, el) else (Pass, st);
        if o.Fail? then (o, s) else KeysEffect(s, el, text)
  }

  /** What `enter_text` does to a present field: clear unless the field is the password,
      then type. It passes iff neither call raises; a failing `clear()` changes nothing,
      and a failing `send_keys` leaves only the clearing behind. */
  lemma EnterTextClearsUnlessPassword(dom: Dom, st: State, reg: Registry, name: string, text: string)
    requires GetElement(reg, dom, name).Ok?
    ensures var el := GetElement(reg, dom, name).value;
            var r := EnterTextStep(dom, st, reg, name, text);
            var clears := reg[name].selector != "password";
            (r.0 == Pass <==> !(clears && el.clearFails) && !el.keysFail) &&
            (r.0.Fail? ==> r.0.error == NotInteractable) &&
            (r.0 == Pass && !clears ==> r.1.log == st.log + [Typed(el, text)]) &&
            (r.0 == Pass && clears ==> r.1.log == st.log + [Cleared(el), Typed(el, text)]) &&
            (clears && el.clearFails ==> r.1 == st) &&
            (clears && !el.clearFails && el.keysFail ==> r.1.log == st.log + [Cleared(el)]) &&
            (!clears && el.keysFail ==> r.1 == st)
  {
  }

  /** A failing `enter_text` types nothing. */
  lemma EnterTextFailsCleanly(dom: Dom, st: State, reg: Registry, name: string, text: string)
    requires GetElement(reg, dom, name).Err?
    ensures EnterTextStep(dom, st, reg, name, text).0.Fail?
    ensures EnterTextStep(dom, st, reg, name, text).1 == st
  {
  }

  method EnterText(driver: Session, locator: Locator, name: string, text: string) returns (o: Outcome)
    requires driver.Valid() && locator.Valid()
    modifies driver
    ensures driver.Valid()
    ensures (o, driver.Now()) == EnterTextStep(old(driver.Current()), old(driver.Now()), locator.locators, name, text)
  {
    var entry := locator.GetLocator(name);
    if entry.Err? {
      o := Fail(UnboundLocal);
      return;
    }
    var found := Presence(driver.Current(), entry.value);
    if found.Err? {
      o := Fail(found.error);
      return;
    }
    var element := found.value;
    if entry.value.selector != "password" {
      o := driver.Clear(element);
      if o.Fail? {
        return;
      }
    }
    o := driver.SendKeys(element, text);
  }
}
