/** Results of fallible driver, registry and REST steps. Each Python exception the
    modelled code raises or catches becomes one `Error` value. */
module Outcomes {

  datatype Error =
    | TimeoutError        // a WebDriverWait condition never held
    | NoSuchElement       // find_element found nothing
    | InvalidSelector     // the driver rejected the selector
    | ClickFailed         // the click itself raised (intercepted, not interactable, ...)
    | NotInteractable     // `clear()` or `send_keys()` on the element raised
    | IndexError          // get_locator on an unregistered name
    | UnboundLocal        // a handler formatted a local that was never bound
    | ValueError          // "not found" / "unsupported" raised by the wrappers
    | StopIteration       // next(iter({}))
    | AttributeError      // a member the object does not have
    | TypeError           // `str + None`: an attribute the element does not carry
    | DriverError         // any other failure of the browser session

  /** The result of a step that yields nothing. */
  datatype Outcome = Pass | Fail(error: Error)

  /** The result of a step that yields a value. */
  datatype Result<+T> = Ok(value: T) | Err(error: Error)

  datatype Option<+T> = None | Some(value: T)

  /** An optional string that Python treats as true: present and not empty. */
  predicate Truthy(s: Option<string>) {
    s.Some? && s.value != ""
  }
}
