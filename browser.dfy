/** The browser as the model sees it: a sequence of immutable page snapshots, the page
    the session is on, and the log of the actions the session performed on elements.
    Every wait is a function of the snapshot: it succeeds or times out, without time. */
module Browser {
  import opened Outcomes
  import opened Locators

  /** One web element as the page object layer reads it. */
  datatype Element = Element(
    text: string,                          // `element.text`
    innerText: string,                     // `element.get_attribute("innerText")`
    content: string,                       // `textContent` once screen-reader spans are removed
    attrs: map<string, string>,            // the other attributes `get_attribute` can read
    displayed: bool,
    enabled: bool,
    clickFails: bool,                      // `element.click()` raises
    clearFails: bool,                      // `element.clear()` raises
    keysFail: bool,                        // `element.send_keys(...)` raises
    target: Option<nat>,                   // the page a click on it leads to
    children: map<Entry, seq<Element>>)    // `element.find_elements(by, value)`

  /** One page: what `driver.find_elements(by, value)` returns for each pair, and the
      selectors the driver rejects as invalid. */
  datatype Dom = Dom(found: map<Entry, seq<Element>>, broken: set<Entry>)

  /** `element.get_attribute(name)`: `None` when the attribute is missing. */
  function Attr(el: Element, name: string): Option<string> {
    if name in el.attrs then Some(el.attrs[name]) else None
  }

  function FindAll(dom: Dom, e: Entry): Result<seq<Element>> {
    if e in dom.broken then Err(InvalidSelector)
    else if e in dom.found then Ok(dom.found[e])
    else Ok([])
  }

  /** `expected_conditions.presence_of_element_located`. */
  function Presence(dom: Dom, e: Entry): Result<Element> {
    match FindAll(dom, e)
    case Err(err) => Err(err)
    case Ok(els) => if els == [] then Err(TimeoutError) else Ok(els[0])
  }

  /** `visibility_of_element_located`: the first element, once it is displayed. */
  function Visibility(dom: Dom, e: Entry): Result<Element> {
    match Presence(dom, e)
    case Err(err) => Err(err)
    case Ok(el) => if el.displayed then Ok(el) else Err(TimeoutError)
  }

  /** `element_to_be_clickable`: the first element, once displayed and enabled. */
  function Clickability(dom: Dom, e: Entry): Result<Element> {
    match Visibility(dom, e)
    case Err(err) => Err(err)
    case Ok(el) => if el.enabled then Ok(el) else Err(TimeoutError)
  }

  /** `invisibility_of_element_located`: no such element, or the first one is hidden. */
  function Invisibility(dom: Dom, e: Entry): Outcome {
    match FindAll(dom, e)
    case Err(err) => Fail(err)
    case Ok(els) => if els == [] || !els[0].displayed then Pass else Fail(TimeoutError)
  }

  /** `element.find_elements(by, value)` inside one element. */
  function WithinAll(el: Element, e: Entry): seq<Element> {
    if e in el.children then el.children[e] else []
  }

  /** `element.find_element(by, value)` inside one element. */
  function Within(el: Element, e: Entry): Result<Element> {
    var els := WithinAll(el, e);
    if els == [] then Err(NoSuchElement) else Ok(els[0])
  }

  /** What the session did: to an element, or `ActionChains(driver).send_keys(Keys.ESCAPE)`
      to the page. */
  datatype Action = Clicked(el: Element) | Cleared(el: Element) | Typed(el: Element, keys: string) | Escaped

  /** The part of the session that actions change. */
  datatype State = State(page: nat, log: seq<Action>)

  /** The page a successful click on `el` leads to: its target when it exists. */
  function Landing(count: nat, page: nat, el: Element): (p: nat)
    ensures page < count ==> p < count
    ensures el.target.Some? && el.target.value < count ==> p == el.target.value
    ensures (el.target.None? || el.target.value >= count) ==> p == page
  {
    if el.target.Some? && el.target.value < count then el.target.value else page
  }

  /** `element.click()`: a failing click changes nothing, a successful one is logged and
      moves the session to the page the element leads to. */
  function ClickEffect(count: nat, st: State, el: Element): (Outcome, State) {
    if el.clickFails then (Fail(ClickFailed), st)
    else (Pass, State(Landing(count, st.page, el), st.log + [Clicked(el)]))
  }

  /** `element.clear()`: logged unless it raises; the page stays. */
  function ClearEffect(st: State, el: Element): (Outcome, State) {
    if el.clearFails then (Fail(NotInteractable), st)
    else (Pass, State(st.page, st.log + [Cleared(el)]))
  }

  /** `element.send_keys(keys)`: logged unless it raises; the page stays. */
  function KeysEffect(st: State, el: Element, keys: string): (Outcome, State) {
    if el.keysFail then (Fail(NotInteractable), st)
    else (Pass, State(st.page, st.log + [Typed(el, keys)]))
  }

  /** `ActionChains(driver).send_keys(Keys.ESCAPE).perform()`: logged, the page stays. */
  function EscapeEffect(st: State): State {
    State(st.page, st.log + [Escaped])
  }

  /** The browser session (`self.driver`). */
  class Session {
    const pages: seq<Dom>
    var page: nat
    var log: seq<Action>

    ghost predicate Valid()
      reads this
    {
      page < |pages|
    }

    function Current(): Dom
      reads this
      requires Valid()
    {
      pages[page]
    }

    function Now(): State
      reads this
    {
      State(page, log)
    }

    constructor (pages: seq<Dom>)
      requires |pages| > 0
      ensures Valid() && this.pages == pages && Now() == State(0, [])
    {
      this.pages := pages;
      page := 0;
      log := [];
    }

    method Click(el: Element) returns (o: Outcome)
      requires Valid()
      modifies this
      ensures Valid()
      ensures (o, Now()) == ClickEffect(|pages|, old(Now()), el)
    {
      if el.clickFails {
        o := Fail(ClickFailed);
      } else {
        o := Pass;
        page := Landing(|pages|, page, el);
        log := log + [Clicked(el)];
      }
    }

    method Clear(el: Element) returns (o: Outcome)
      modifies this
      ensures (o, Now()) == ClearEffect(old(Now()), el)
    {
      if el.clearFails {
        o := Fail(NotInteractable);
      } else {
        o := Pass;
        log := log + [Cleared(el)];
      }
    }

    method Escape()
      modifies this
      ensures Now() == EscapeEffect(old(Now()))
    {
      log := log + [Escaped];
    }

    method SendKeys(el: Element, keys: string) returns (o: Outcome)
      modifies this
      ensures (o, Now()) == KeysEffect(old(Now()), el, keys)
    {
      if el.keysFail {
        o := Fail(NotInteractable);
      } else {
        o := Pass;
        log := log + [Typed(el, keys)];
      }
    }
  }
}
