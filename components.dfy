/** `Base`: the common ancestor of the form widgets. The element façade it inherits is
    the same as the alert widgets'; `uiwrapper/actions/component_action.py` is not part of
    this model, and its constructor is taken to build the registry from the container as
    `AlertComponentAction` does. */
module Components {
  import opened Outcomes
  import opened Locators

  /** The pairs `Base.__init__` adds to the container, for a container selector `value`. */
  function BaseLocators(value: string): Registry {
    map[
      "label_component" := Css(value + " [id][data-test=\"label\"]"),
      "tooltip" := Css(" [data-test=\"screen-reader-content\"]"),
      "icon" := Css(value + " [data-test=\"tooltip\"]"),
      "help" := Css(value + " [data-test=\"help\"]")
    ]
  }

  /** `Base(driver, {name: [by, value]})`: the container dictionary, updated with the base
      pairs, becomes the registry. */
  function BaseRegistry(name: string, container: Entry): (r: Registry)
    ensures r.Keys == {name} + BaseLocators(container.selector).Keys
    ensures Normal(r)
  {
    Normalize(map[name := container] + BaseLocators(container.selector))
  }

  /** The container resolves to its own pair unless it is called like one of the base
      pairs, which then overwrite it. */
  lemma BaseRegistryContainer(name: string, container: Entry)
    ensures name !in BaseLocators(container.selector) ==>
            Resolve(BaseRegistry(name, container), name) == Ok(NormalizeEntry(container))
    ensures name in BaseLocators(container.selector) ==>
            Resolve(BaseRegistry(name, container), name) == Ok(NormalizeEntry(BaseLocators(container.selector)[name]))
  {
  }

  /** A component built on `Base` from a single pair, such as a `Button` or a `Message`:
      the name it acts on and its registry, which nothing updates afterwards. */
  datatype Widget = Widget(name: string, reg: Registry)

  /** `Button(driver, name, value, by)` and `Message(driver, name, value, by)`. */
  function BaseWidget(name: string, value: string, how: Option<By>): Widget {
    Widget(name, BaseRegistry(name, Entry(how, value)))
  }

  /** A widget called unlike every base pair is found through its own selector. */
  lemma BaseWidgetResolves(name: string, value: string, how: Option<By>)
    requires name !in BaseLocators(value)
    ensures Resolve(BaseWidget(name, value, how).reg, name) == Ok(NormalizeEntry(Entry(how, value)))
  {
    BaseRegistryContainer(name, Entry(how, value));
  }

  /** The container selector of a form widget, `CONTROL_GROUP.format(value)`; `Select` and
      `CheckBox` use the same format. */
  function ControlGroup(value: string): string {
    "[data-test=\"control-group\"][data-name=\"" + value + "\"]"
  }
}
