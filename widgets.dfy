/** The two element loops the widgets share: "click the first element whose label
    matches, or raise ValueError", and "click each of these elements in turn". Both are a
    step function on `State` and a method proved against it. */
module Widgets {
  import opened Outcomes
  import opened Text
  import opened Browser
  import opened Matching

  /** The labels the components compare: `element.text.strip().lower()`. */
  function FoldedTexts(els: seq<Element>): (r: seq<string>)
    ensures |r| == |els|
    ensures forall i :: 0 <= i < |els| ==> r[i] == Folded(els[i].text)
  {
    seq(|els|, i requires 0 <= i < |els| => Folded(els[i].text))
  }

  /** The labels `get_element_text` gives: whitespace runs collapsed, then stripped. */
  function CollapsedTexts(els: seq<Element>): (r: seq<string>)
    ensures |r| == |els|
    ensures forall i :: 0 <= i < |els| ==> r[i] == ElementText(els[i].innerText)
  {
    seq(|els|, i requires 0 <= i < |els| => ElementText(els[i].innerText))
  }

  /** `element.text.strip()` for each element, in order. */
  function StrippedTexts(els: seq<Element>): (r: seq<string>)
    ensures |r| == |els|
    ensures forall i :: 0 <= i < |els| ==> r[i] == Strip(els[i].text)
  {
    seq(|els|, i requires 0 <= i < |els| => Strip(els[i].text))
  }

  /** The elements whose folded label is `key`, in order. */
  function WithLabel(els: seq<Element>, key: string): (r: seq<Element>)
    ensures forall x :: x in r <==> x in els && Folded(x.text) == key
    decreases |els|
  {
    if els == [] then []
    else (if Folded(els[0].text) == key then [els[0]] else []) + WithLabel(els[1..], key)
  }

  /** One `Clicked` entry per element, in order. */
  function Clicks(els: seq<Element>): (r: seq<Action>)
    ensures |r| == |els|
    ensures forall i :: 0 <= i < |els| ==> r[i] == Clicked(els[i])
  {
    seq(|els|, i requires 0 <= i < |els| => Clicked(els[i]))
  }

  /** Clicking the elements one after another; the first click that fails stops the loop. */
  function ClickAll(count: nat, st: State, els: seq<Element>): (r: (Outcome, State))
    ensures st.page < count ==> r.1.page < count
    decreases |els|
  {
    if els == [] then (Pass, st)
    else
      var (o, s) := ClickAll(count, st, els[..|els| - 1]);
      if o.Fail? then (o, s) else ClickEffect(count, s, els[|els| - 1])
  }

  /** Every click on these elements would go through. */
  predicate NoneFails(els: seq<Element>) {
    forall i :: 0 <= i < |els| ==> !els[i].clickFails
  }

  /** One more element is clicked after the others, unless one of them failed. */
  lemma ClickAllSnoc(count: nat, st: State, els: seq<Element>, el: Element)
    ensures ClickAll(count, st, els + [el]) ==
            (var (o, s) := ClickAll(count, st, els); if o.Fail? then (o, s) else ClickEffect(count, s, el))
  {
    var e := els + [el];
    assert e[..|e| - 1] == els;
  }

  /** Once a click has failed, no later element is clicked. */
  lemma {:induction false} ClickAllSticks(count: nat, st: State, a: seq<Element>, b: seq<Element>)
    requires ClickAll(count, st, a).0.Fail?
    ensures ClickAll(count, st, a + b) == ClickAll(count, st, a)
    decreases |b|
  {
    if b != [] {
      var ab := a + b;
      assert ab[..|ab| - 1] == a + b[..|b| - 1];
      ClickAllSticks(count, st, a, b[..|b| - 1]);
    } else {
      assert a + b == a;
    }
  }

  /** When no click fails, every element is clicked once, in order. */
  lemma {:induction false} ClickAllSucceeds(count: nat, st: State, els: seq<Element>)
    requires forall i :: 0 <= i < |els| ==> !els[i].clickFails
    ensures ClickAll(count, st, els).0 == Pass
    ensures ClickAll(count, st, els).1.log == st.log + Clicks(els)
    decreases |els|
  {
    if els != [] {
      var init := els[..|els| - 1];
      ClickAllSucceeds(count, st, init);
      assert Clicks(els) == Clicks(init) + [Clicked(els[|els| - 1])];
    } else {
      assert st.log + Clicks(els) == st.log;
    }
  }

  /** A failing click fails the loop after exactly the elements before it were clicked. */
  lemma {:induction false} ClickAllFails(count: nat, st: State, els: seq<Element>, k: nat)
    requires k < |els| && els[k].clickFails
    requires forall i :: 0 <= i < k ==> !els[i].clickFails
    ensures ClickAll(count, st, els).0 == Fail(ClickFailed)
    ensures ClickAll(count, st, els).1.log == st.log + Clicks(els[..k])
  {
    var pre := els[..k];
    ClickAllSucceeds(count, st, pre);
    assert els[..k + 1][..k] == pre;
    assert ClickAll(count, st, els[..k + 1]).0 == Fail(ClickFailed);
    ClickAllSticks(count, st, els[..k + 1], els[k + 1..]);
    assert els[..k + 1] + els[k + 1..] == els;
  }

  /** Some element fails to click, so there is a first one that does. */
  lemma {:induction false} FirstFailing(els: seq<Element>, k: nat)
    requires k < |els| && els[k].clickFails
    ensures exists j :: 0 <= j <= k && els[j].clickFails && forall i :: 0 <= i < j ==> !els[i].clickFails
    decreases k
  {
    if exists i :: 0 <= i < k && els[i].clickFails {
      var i :| 0 <= i < k && els[i].clickFails;
      FirstFailing(els, i);
    } else {
      assert forall i :: 0 <= i < k ==> !els[i].clickFails;
    }
  }

  /** The loop goes through iff no element fails to click. */
  lemma ClickAllPassIff(count: nat, st: State, els: seq<Element>)
    ensures ClickAll(count, st, els).0 == Pass <==> forall i :: 0 <= i < |els| ==> !els[i].clickFails
  {
    if forall i :: 0 <= i < |els| ==> !els[i].clickFails {
      ClickAllSucceeds(count, st, els);
    } else {
      var k :| 0 <= k < |els| && els[k].clickFails;
      FirstFailing(els, k);
      var j :| 0 <= j <= k && els[j].clickFails && forall i :: 0 <= i < j ==> !els[i].clickFails;
      ClickAllFails(count, st, els, j);
    }
  }

  /** `for element in elements: element.click()`. */
  method ClickEach(driver: Session, els: seq<Element>) returns (o: Outcome)
    requires driver.Valid()
    modifies driver
    ensures driver.Valid()
    ensures (o, driver.Now()) == ClickAll(|driver.pages|, old(driver.Now()), els)
  {
    ghost var st := driver.Now();
    var i := 0;
    while i < |els|
      invariant 0 <= i <= |els| && driver.Valid()
      invariant (Pass, driver.Now()) == ClickAll(|driver.pages|, st, els[..i])
    {
      assert els[..i + 1][..i] == els[..i];
      o := driver.Click(els[i]);
      if o.Fail? {
        ClickAllSticks(|driver.pages|, st, els[..i + 1], els[i + 1..]);
        assert els[..i + 1] + els[i + 1..] == els;
        return;
      }
      i := i + 1;
    }
    assert els[..i] == els;
    o := Pass;
  }

  /** "Click the first element whose label is `key`": ValueError when no label matches,
      the click's own error when it fails, `True` once it went through. */
  function PickStep(count: nat, st: State, els: seq<Element>, labels: seq<string>, key: string)
    : (r: (Result<bool>, State))
    requires |labels| == |els|
    ensures st.page < count ==> r.1.page < count
  {
    match FirstIndex(labels, key)
    case None => (Err(ValueError), st)
    case Some(i) =>
      var (o, s) := ClickEffect(count, st, els[i]);
      (if o.Pass? then Ok(true) else Err(ClickFailed), s)
  }

  /** The pick clicks exactly the first element carrying the label and nothing else; with
      no such label it changes nothing and raises ValueError. */
  lemma PickClicksFirstMatch(count: nat, st: State, els: seq<Element>, labels: seq<string>, key: string)
    requires |labels| == |els|
    ensures var (r, post) := PickStep(count, st, els, labels, key);
            (key !in labels ==> r == Err(ValueError) && post == st) &&
            (key in labels ==>
               exists i :: 0 <= i < |els| && labels[i] == key && key !in labels[..i] &&
                 (els[i].clickFails ==> r == Err(ClickFailed) && post == st) &&
                 (!els[i].clickFails ==> r == Ok(true) && post.log == st.log + [Clicked(els[i])]))
  {
    var f := FirstIndex(labels, key);
    if f.Some? {
      var i := f.value;
      assert labels[i] == key && key !in labels[..i];
    }
  }

  /** The loop over the elements, returning at the first match. */
  method Pick(driver: Session, els: seq<Element>, labels: seq<string>, key: string) returns (r: Result<bool>)
    requires driver.Valid() && |labels| == |els|
    modifies driver
    ensures driver.Valid()
    ensures (r, driver.Now()) == PickStep(|driver.pages|, old(driver.Now()), els, labels, key)
  {
    var i := 0;
    while i < |els|
      invariant 0 <= i <= |els|
      invariant key !in labels[..i]
      invariant driver.Now() == old(driver.Now())
    {
      if labels[i] == key {
        FirstIndexAt(labels, key, i);
        var o := driver.Click(els[i]);
        return if o.Pass? then Ok(true) else Err(ClickFailed);
      }
      NotInExtended(labels, key, i);
      i := i + 1;
    }
    assert labels[..i] == labels;
    r := Err(ValueError);
  }
}
