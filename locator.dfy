/** The locator registry: a dictionary from a symbolic element name to the pair
    [strategy, selector] that the driver looks the element up with. */
module Locators {
  import opened Outcomes

  /** Selenium's `By` strategies. */
  datatype By = Id | XPath | LinkText | PartialLinkText | Name | TagName | ClassName | CssSelector

  /** One registered pair `[by, value]` (`how` is Python's `by`); `how == None` is a caller
      writing `[None, selector]`. */
  datatype Entry = Entry(how: Option<By>, selector: string)

  type Registry = map<string, Entry>

  /** A pair written `[None, selector]`: a CSS selector once normalized. */
  function Css(selector: string): Entry {
    Entry(None, selector)
  }

  /** The pair a CSS selector is stored as once normalized. */
  function CssPair(selector: string): Entry {
    Entry(Some(CssSelector), selector)
  }

  /** A `None` strategy stands for a CSS selector; an explicit strategy and the selector
      string are kept. */
  function NormalizeEntry(e: Entry): (r: Entry)
    ensures r.how.Some? && r.selector == e.selector
    ensures e.how.Some? ==> r == e
    ensures e.how.None? ==> r.how == Some(CssSelector)
  {
    if e.how.None? then Entry(Some(CssSelector), e.selector) else e
  }

  /** No stored entry has a `None` strategy. */
  predicate Normal(reg: Registry) {
    forall k :: k in reg ==> reg[k].how.Some?
  }

  /** The dictionary comprehension shared by the constructor and `update_locaters`. */
  function Normalize(m: Registry): (r: Registry)
    ensures r.Keys == m.Keys
    ensures forall k :: k in m ==> r[k] == NormalizeEntry(m[k])
    ensures Normal(r)
  {
    map k | k in m :: NormalizeEntry(m[k])
  }

  /** `get_locator`: the stored pair, or the IndexError that the log call raises when it
      indexes the `[]` default of an unknown name. */
  function Resolve(reg: Registry, name: string): (r: Result<Entry>)
    ensures r.Ok? <==> name in reg
    ensures r.Ok? ==> r.value == reg[name]
    ensures r.Err? ==> r.error == IndexError
  {
    if name in reg then Ok(reg[name]) else Err(IndexError)
  }

  /** `dict.update` with the normalized new pairs: the new pairs win. */
  function Updated(reg: Registry, added: Registry): Registry {
    reg + Normalize(added)
  }

  /** Every key of the update resolves to its normalized pair. */
  lemma UpdatedNewKeys(reg: Registry, added: Registry, k: string)
    requires k in added
    ensures Resolve(Updated(reg, added), k) == Ok(NormalizeEntry(added[k]))
  {
  }

  /** Every other key keeps its previous resolution, including failing ones. */
  lemma UpdatedOtherKeys(reg: Registry, added: Registry, k: string)
    requires k !in added
    ensures Resolve(Updated(reg, added), k) == Resolve(reg, k)
  {
  }

  /** The registered names after an update are the old ones and the new ones. */
  lemma UpdatedKeys(reg: Registry, added: Registry)
    ensures Updated(reg, added).Keys == reg.Keys + added.Keys
  {
  }

  /** Every update keeps the registry free of `None` strategies. */
  lemma UpdatedNormal(reg: Registry, added: Registry)
    requires Normal(reg)
    ensures Normal(Updated(reg, added))
  {
  }

  /** Two updates in a row are one update with the merged dictionary: the last write wins. */
  lemma UpdatedTwice(reg: Registry, a: Registry, b: Registry)
    ensures Updated(Updated(reg, a), b) == Updated(reg, a + b)
  {
    var l := Updated(Updated(reg, a), b);
    var r := Updated(reg, a + b);
    assert l.Keys == r.Keys;
    forall k | k in l ensures l[k] == r[k] {
      if k in b {
        assert l[k] == NormalizeEntry(b[k]);
      } else if k in a {
        assert l[k] == NormalizeEntry(a[k]);
      }
    }
  }

  /** Normalizing a registry that is already free of `None` strategies changes nothing. */
  lemma NormalizeNormal(reg: Registry)
    requires Normal(reg)
    ensures Normalize(reg) == reg
  {
    var r := Normalize(reg);
    forall k | k in reg ensures r[k] == reg[k] {
      assert reg[k].how.Some?;
    }
  }

  /** `Locator`: the registry object every component owns. */
  class Locator {
    var locators: Registry

    ghost predicate Valid()
      reads this
    {
      Normal(locators)
    }

    /** Builds a fresh dictionary from the caller's one. */
    constructor (existing: Registry)
      ensures Valid()
      ensures locators == Normalize(existing)
    {
      locators := Normalize(existing);
    }

    method GetLocator(name: string) returns (r: Result<Entry>)
      requires Valid()
      ensures r == Resolve(locators, name)
      ensures r.Ok? ==> r.value.how.Some?
    {
      if name in locators {
        r := Ok(locators[name]);
      } else {
        r := Err(IndexError);
      }
    }

    method GetAllLocators() returns (m: Registry)
      requires Valid()
      ensures m == locators && Normal(m)
    {
      m := locators;
    }

    method UpdateLocaters(added: Registry)
      requires Valid()
      modifies this
      ensures Valid()
      ensures locators == Updated(old(locators), added)
    {
      UpdatedNormal(locators, added);
      locators := locators + Normalize(added);
    }
  }
}
