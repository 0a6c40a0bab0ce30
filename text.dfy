/** String rules used by the element façade and the widgets: Python's `strip()`,
    `re.sub(r"\s+", " ", ...)`, `lower()`, `replace(c, "")` and the `in` substring test,
    restricted to ASCII (whitespace is the ASCII set Python's `str.isspace()` accepts,
    case folding maps only 'A'..'Z'). */
module Text {

  /** Tab, line feed, vertical tab, form feed, carriage return, the four ASCII
      separators 0x1C..0x1F and the space. */
  predicate IsSpace(c: char) {
    9 <= c as int <= 13 || 28 <= c as int <= 32
  }

  predicate AllSpace(s: string) {
    forall i :: 0 <= i < |s| ==> IsSpace(s[i])
  }

  predicate NoEdgeSpace(s: string) {
    s == [] || (!IsSpace(s[0]) && !IsSpace(s[|s| - 1]))
  }

  /** Every whitespace character is a plain blank. */
  predicate SpacesAreBlank(s: string) {
    forall i :: 0 <= i < |s| && IsSpace(s[i]) ==> s[i] == ' '
  }

  predicate NoDoubleSpace(s: string) {
    forall i, j :: 0 <= i < |s| && 0 <= j < |s| && j == i + 1 ==> !(IsSpace(s[i]) && IsSpace(s[j]))
  }

  /** The shape of a text that went through `get_element_text`. */
  predicate Normalized(s: string) {
    SpacesAreBlank(s) && NoDoubleSpace(s) && NoEdgeSpace(s)
  }

  /** `lstrip()`: drops the leading whitespace and nothing else. */
  function LStrip(s: string): (r: string)
    ensures |r| <= |s|
    ensures r == [] || !IsSpace(r[0])
  {
    if s != [] && IsSpace(s[0]) then LStrip(s[1..]) else s
  }

  /** What `lstrip()` drops is a whitespace prefix: the result is the rest of the text. */
  lemma {:induction false} LStripSuffix(s: string)
    ensures var r := LStrip(s); r == s[|s| - |r|..] && AllSpace(s[..|s| - |r|])
    decreases |s|
  {
    if s != [] && IsSpace(s[0]) {
      var r := LStrip(s[1..]);
      LStripSuffix(s[1..]);
      assert s[..|s| - |r|] == [s[0]] + s[1..][..|s| - 1 - |r|];
      assert s[|s| - |r|..] == s[1..][|s| - 1 - |r|..];
    }
  }

  /** `rstrip()`: drops the trailing whitespace and nothing else. */
  function RStrip(s: string): (r: string)
    ensures |r| <= |s|
    ensures r == [] || !IsSpace(r[|r| - 1])
  {
    if s != [] && IsSpace(s[|s| - 1]) then RStrip(s[..|s| - 1]) else s
  }

  /** What `rstrip()` drops is a whitespace suffix: the result is the start of the text. */
  lemma {:induction false} RStripPrefix(s: string)
    ensures var r := RStrip(s); r == s[..|r|] && AllSpace(s[|r|..])
    decreases |s|
  {
    if s != [] && IsSpace(s[|s| - 1]) {
      var p := s[..|s| - 1];
      var r := RStrip(p);
      RStripPrefix(p);
      assert s[|r|..] == p[|r|..] + [s[|s| - 1]];
      assert s[..|r|] == p[..|r|];
    }
  }

  /** Where `Strip(s)` starts inside `s`. */
  function StripStart(s: string): nat {
    |s| - |LStrip(s)|
  }

  lemma AllSpaceConcat(a: string, b: string)
    requires AllSpace(a) && AllSpace(b)
    ensures AllSpace(a + b)
  {
    forall i | |a| <= i < |a + b| ensures (a + b)[i] == b[i - |a|] {
    }
  }

  /** `strip()`: whitespace removed at both ends. */
  function Strip(s: string): (r: string)
    ensures NoEdgeSpace(r)
    ensures |r| <= |s|
  {
    var l := LStrip(s);
    var r := RStrip(l);
    RStripPrefix(l);
    assert r != [] ==> r[0] == l[0];
    r
  }

  /** The stripped text is the infix of `s` that starts at `StripStart(s)`. */
  lemma StripInfix(s: string)
    ensures StripStart(s) + |Strip(s)| <= |s|
    ensures Strip(s) == s[StripStart(s)..StripStart(s) + |Strip(s)|]
  {
    var l := LStrip(s);
    var r := RStrip(l);
    LStripSuffix(s);
    RStripPrefix(l);
    assert r == s[|s| - |l|..|s| - |l| + |r|] by {
      assert l == s[|s| - |l|..];
    }
  }

  /** `strip()` leaves a text without whitespace at its ends as it is. */
  lemma StripNoEdge(s: string)
    requires NoEdgeSpace(s)
    ensures Strip(s) == s
  {
    if s != [] {
      assert LStrip(s) == s;
    }
  }

  /** `strip()` gives the empty text exactly when the text is all whitespace. */
  lemma StripEmpty(s: string)
    ensures Strip(s) == [] <==> AllSpace(s)
  {
    var l := LStrip(s);
    var r := RStrip(l);
    var k := |s| - |l|;
    LStripSuffix(s);
    RStripPrefix(l);
    assert Strip(s) == r;
    if r == [] {
      assert l[|r|..] == l;
      assert s == s[..k] + l;
      AllSpaceConcat(s[..k], l);
    }
    if l != [] {
      assert l[0] == s[k] && !IsSpace(s[k]);
    }
  }

  /** Putting `c` in front of a blank-only text without doubled whitespace keeps that
      shape, provided `c` is a blank not followed by whitespace, or not whitespace. */
  lemma ConsKeepsShape(c: char, t: string)
    requires SpacesAreBlank(t) && NoDoubleSpace(t)
    requires !IsSpace(c) || (c == ' ' && (t == [] || !IsSpace(t[0])))
    ensures SpacesAreBlank([c] + t) && NoDoubleSpace([c] + t)
  {
    var u := [c] + t;
    forall i | 0 < i < |u| ensures u[i] == t[i - 1] {
    }
  }

  /** A slice of a blank-only text without doubled whitespace has the same shape. */
  lemma SliceKeepsShape(t: string, i: nat, j: nat)
    requires i <= j <= |t|
    requires SpacesAreBlank(t) && NoDoubleSpace(t)
    ensures SpacesAreBlank(t[i..j]) && NoDoubleSpace(t[i..j])
  {
    var u := t[i..j];
    forall k | 0 <= k < |u| ensures u[k] == t[i + k] {
    }
  }

  /** `re.sub(r"\s+", " ", s)`: every maximal run of whitespace becomes one blank. */
  function Collapse(s: string): (r: string)
    ensures |r| <= |s|
    ensures r == [] <==> s == []
    ensures r != [] ==> (IsSpace(r[0]) <==> IsSpace(s[0]))
    ensures SpacesAreBlank(r) && NoDoubleSpace(r)
    decreases |s|
  {
    if s == [] then []
    else if IsSpace(s[0]) then
      var t := Collapse(LStrip(s[1..]));
      ConsKeepsShape(' ', t);
      [' '] + t
    else
      var t := Collapse(s[1..]);
      ConsKeepsShape(s[0], t);
      [s[0]] + t
  }

  /** `get_element_text`: collapse the whitespace runs, then strip. The result has no
      whitespace at its ends, no two adjacent whitespace characters, and blanks only. */
  function ElementText(s: string): (r: string)
    ensures Normalized(r)
    ensures |r| <= |s|
  {
    var c := Collapse(s);
    var r := Strip(c);
    StripInfix(c);
    SliceKeepsShape(c, StripStart(c), StripStart(c) + |r|);
    r
  }

  lemma {:induction false} CollapseFixed(t: string)
    requires SpacesAreBlank(t) && NoDoubleSpace(t)
    ensures Collapse(t) == t
    decreases |t|
  {
    if t != [] {
      var rest := t[1..];
      assert SpacesAreBlank(rest) by {
        forall i | 0 <= i < |rest| && IsSpace(rest[i]) ensures rest[i] == ' ' {
          assert rest[i] == t[i + 1];
        }
      }
      assert NoDoubleSpace(rest) by {
        forall i, j | 0 <= i && j == i + 1 && j < |rest| ensures !(IsSpace(rest[i]) && IsSpace(rest[j])) {
          assert rest[i] == t[i + 1] && rest[j] == t[j + 1];
        }
      }
      CollapseFixed(rest);
      if IsSpace(t[0]) {
        if rest != [] {
          assert rest[0] == t[1];
          assert !IsSpace(rest[0]);
        }
        assert LStrip(rest) == rest;
        assert Collapse(t) == [' '] + Collapse(LStrip(rest));
        assert t == [t[0]] + rest && t[0] == ' ';
      } else {
        assert Collapse(t) == [t[0]] + Collapse(rest);
        assert t == [t[0]] + rest;
      }
    }
  }

  /** Normalizing an already-normalized text changes nothing. */
  lemma NormalizedIsFixed(t: string)
    requires Normalized(t)
    ensures ElementText(t) == t
  {
    CollapseFixed(t);
  }

  /** `get_element_text` is idempotent. */
  lemma ElementTextIdempotent(s: string)
    ensures ElementText(ElementText(s)) == ElementText(s)
  {
    NormalizedIsFixed(ElementText(s));
  }

  function LowerChar(c: char): char {
    if 'A' <= c <= 'Z' then (c as int + 32) as char else c
  }

  /** `lower()` on ASCII letters. */
  function Lower(s: string): (r: string)
    ensures |r| == |s|
    ensures forall i :: 0 <= i < |s| ==> r[i] == LowerChar(s[i])
  {
    if s == [] then [] else [LowerChar(s[0])] + Lower(s[1..])
  }

  /** `replace(c, "")`. */
  function Remove(s: string, c: char): (r: string)
    ensures c !in r
    ensures forall x :: x in r ==> x in s
  {
    if s == [] then []
    else if s[0] == c then Remove(s[1..], c)
    else [s[0]] + Remove(s[1..], c)
  }

  /** `text.strip().replace(" ", "").replace('"', "").lower()`. */
  function UpdatedMessage(s: string): string {
    Lower(Remove(Remove(Strip(s), ' '), '"'))
  }

  /** The updated message holds no blank and no double quote. */
  lemma UpdatedMessageClean(s: string)
    ensures ' ' !in UpdatedMessage(s) && '"' !in UpdatedMessage(s)
  {
    var t := Remove(Remove(Strip(s), ' '), '"');
    assert ' ' !in t by {
      forall x | x in t ensures x != ' ' {
        assert x in Remove(Strip(s), ' ');
      }
    }
    var r := Lower(t);
    forall i | 0 <= i < |r| ensures r[i] != ' ' && r[i] != '"' {
      assert t[i] in t;
    }
  }

  lemma LowerTail(s: string)
    requires s != []
    ensures Lower(s)[1..] == Lower(s[1..]) && Lower(s)[0] == LowerChar(s[0])
  {
  }

  lemma LowerInit(s: string)
    requires s != []
    ensures Lower(s)[..|s| - 1] == Lower(s[..|s| - 1])
  {
  }

  lemma SpaceLower(c: char)
    ensures IsSpace(LowerChar(c)) == IsSpace(c)
  {
  }

  lemma LStripStep(x: string)
    requires x != []
    ensures LStrip(x) == if IsSpace(x[0]) then LStrip(x[1..]) else x
  {
  }

  lemma {:induction false} LStripLower(s: string)
    ensures LStrip(Lower(s)) == Lower(LStrip(s))
    decreases |s|
  {
    if s != [] {
      LowerTail(s);
      SpaceLower(s[0]);
      LStripStep(s);
      LStripStep(Lower(s));
      if IsSpace(s[0]) {
        LStripLower(s[1..]);
      }
    }
  }

  lemma {:induction false} RStripLower(s: string)
    ensures RStrip(Lower(s)) == Lower(RStrip(s))
    decreases |s|
  {
    if s != [] {
      LowerInit(s);
      SpaceLower(s[|s| - 1]);
      var l := Lower(s);
      if IsSpace(s[|s| - 1]) {
        RStripLower(s[..|s| - 1]);
        assert RStrip(l) == RStrip(l[..|l| - 1]);
      } else {
        assert RStrip(l) == l;
      }
    }
  }

  /** `replace(c, "")` leaves a text without `c` unchanged. */
  lemma {:induction false} RemoveAbsent(s: string, c: char)
    requires c !in s
    ensures Remove(s, c) == s
    decreases |s|
  {
    if s != [] {
      assert c !in s[1..];
      RemoveAbsent(s[1..], c);
    }
  }

  /** `replace(c, "")` works piecewise, so it keeps every other character in order. */
  lemma {:induction false} RemoveConcat(a: string, b: string, c: char)
    ensures Remove(a + b, c) == Remove(a, c) + Remove(b, c)
    decreases |a|
  {
    if a == [] {
      assert a + b == b;
    } else {
      assert (a + b)[0] == a[0] && (a + b)[1..] == a[1..] + b;
      RemoveConcat(a[1..], b, c);
    }
  }

  lemma {:induction false} RemoveLower(s: string, c: char)
    requires !('A' <= c <= 'Z') && !('a' <= c <= 'z')
    ensures Remove(Lower(s), c) == Lower(Remove(s, c))
    decreases |s|
  {
    if s != [] {
      LowerTail(s);
      RemoveLower(s[1..], c);
      var l := Lower(s);
      assert (LowerChar(s[0]) == c) == (s[0] == c);
      if s[0] == c {
        assert Remove(l, c) == Remove(l[1..], c);
      } else {
        assert Remove(l, c) == [l[0]] + Remove(l[1..], c);
        assert Lower([s[0]] + Remove(s[1..], c)) == [LowerChar(s[0])] + Lower(Remove(s[1..], c));
      }
    }
  }

  lemma StripLower(s: string)
    ensures Strip(Lower(s)) == Lower(Strip(s))
  {
    LStripLower(s);
    RStripLower(LStrip(s));
  }

  lemma LowerLower(s: string)
    ensures Lower(Lower(s)) == Lower(s)
  {
  }

  /** Case does not matter to the updated message: comparing two messages with it is
      case-insensitive. */
  lemma UpdatedMessageCaseInsensitive(s: string)
    ensures UpdatedMessage(Lower(s)) == UpdatedMessage(s)
  {
    StripLower(s);
    var t := Strip(s);
    RemoveLower(t, ' ');
    RemoveLower(Remove(t, ' '), '"');
    LowerLower(Remove(Remove(t, ' '), '"'));
  }

  /** `strip().lower()`: the key on which the widgets compare option labels. */
  function Folded(s: string): string {
    Lower(Strip(s))
  }

  predicate IsPrefix(p: string, s: string) {
    |p| <= |s| && s[..|p|] == p
  }

  /** Python's `sub in s`. */
  predicate Contains(s: string, sub: string)
    decreases |s|
  {
    IsPrefix(sub, s) || (s != [] && Contains(s[1..], sub))
  }
}
