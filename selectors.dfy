/** The selector and element helpers of the extensions: IdToSelector, the null and
    trim rules of GetElementPropertyValueAsync, GetElementTextAsync and
    GetXPathTextValueAsync, and the fallback of ClickByElementEvenIfInvisible. */
module Selectors {
  import opened Base
  import opened Text
  import opened BrowserPage

  // ---------------------------------------------------------------------------
  // IdToSelector

  /** IdToSelector(id): every backslash doubled, then every colon escaped. The result
      is the per-character escape, one character longer per backslash and per colon,
      and it reads back to the id. */
  function IdToSelector(id: string): (selector: string)
    ensures selector == Escape(id)
    ensures |selector| == |id| + Count(id, '\\') + Count(id, ':')
    ensures Unescape(selector) == id
  {
    IdToSelectorIsEscape(id);
    EscapeLength(id);
    UnescapeEscape(id);
    ReplaceChar(ReplaceChar(id, '\\', "\\\\"), ':', "\\:")
  }

  /** The escape of one character on its own. */
  function EscapeChar(c: char): (e: string)
    ensures 1 <= |e| <= 2
    ensures |e| == 2 <==> c == '\\' || c == ':'
    ensures |e| == 2 ==> e == ['\\', c]
    ensures |e| == 1 ==> e == [c]
  {
    if c == '\\' then "\\\\" else if c == ':' then "\\:" else [c]
  }

  /** The character-by-character escape. */
  function Escape(s: string): string
  {
    if s == [] then [] else EscapeChar(s[0]) + Escape(s[1..])
  }

  /** Reading an escaped selector back: a backslash quotes the character after it. */
  function Unescape(t: string): string
    decreases |t|
  {
    if t == [] then []
    else if t[0] == '\\' && |t| >= 2 then [t[1]] + Unescape(t[2..])
    else [t[0]] + Unescape(t[1..])
  }

  /** The two chained replacements are one per-character map. */
  lemma {:induction false} IdToSelectorIsEscape(s: string)
    ensures ReplaceChar(ReplaceChar(s, '\\', "\\\\"), ':', "\\:") == Escape(s)
    decreases |s|
  {
    if s != [] {
      var first := if s[0] == '\\' then "\\\\" else [s[0]];
      var inner := ReplaceChar(s[1..], '\\', "\\\\");
      assert ReplaceChar(s, '\\', "\\\\") == first + inner;
      ReplaceCharAppend(first, inner, ':', "\\:");
      if s[0] == '\\' {
        ReplaceCharAbsent(first, ':', "\\:");
      } else {
        assert ReplaceChar(first, ':', "\\:") == (if s[0] == ':' then "\\:" else [s[0]]) + ReplaceChar([], ':', "\\:");
      }
      IdToSelectorIsEscape(s[1..]);
    }
  }

  /** Each backslash and each colon costs one extra character. */
  lemma {:induction false} EscapeLength(s: string)
    ensures |Escape(s)| == |s| + Count(s, '\\') + Count(s, ':')
    decreases |s|
  {
    if s != [] {
      EscapeLength(s[1..]);
    }
  }

  /** The escape loses nothing: it can be read back. */
  lemma {:induction false} UnescapeEscape(s: string)
    ensures Unescape(Escape(s)) == s
    decreases |s|
  {
    if s != [] {
      var e := EscapeChar(s[0]);
      var rest := Escape(s[1..]);
      UnescapeEscape(s[1..]);
      if |e| == 2 {
        assert (e + rest)[2..] == rest;
      } else {
        assert (e + rest)[1..] == rest;
      }
      assert [s[0]] + s[1..] == s;
    }
  }

  /** An id without backslash or colon is already a selector. */
  lemma PlainIdIsItsSelector(id: string)
    requires '\\' !in id && ':' !in id
    ensures IdToSelector(id) == id
  {
    ReplaceCharAbsent(id, '\\', "\\\\");
    ReplaceCharAbsent(id, ':', "\\:");
  }

  // ---------------------------------------------------------------------------
  // Property and text values of elements

  /** An element handle, reduced to its string-valued properties: the name of each
      property the page reports a string for, and that string. The core reads only
      textContent, which is a string or null; a name missing from the map reads as
      null. */
  type ElementProperties = map<string, string>

  const TextContent: string := "textContent"

  /** GetElementPropertyValueAsync(element, name): null stays null, a string is trimmed. */
  function GetElementPropertyValue(element: ElementProperties, name: string): (r: Option<string>)
    ensures r.None? <==> name !in element
    ensures r.Some? ==> r.value == Trim(element[name]) && Trim(r.value) == r.value
    ensures r.Some? ==> r.value == [] || (!IsWhiteSpace(r.value[0]) && !IsWhiteSpace(r.value[|r.value| - 1]))
  {
    if name in element then
      var v := element[name];
      TrimIdempotent(v);
      TrimEnds(v);
      Some(Trim(v))
    else None
  }

  /** GetElementTextAsync: the trimmed textContent. */
  function GetElementText(element: ElementProperties): (r: Option<string>)
    ensures r.None? <==> TextContent !in element
    ensures r.Some? ==> r.value == Trim(element[TextContent])
  {
    GetElementPropertyValue(element, TextContent)
  }

  /** GetXPathTextValueAsync(xPath), the XPath query having returned `nodes`: null
      for a null or empty result, otherwise the text of the first node. */
  function GetXPathTextValue(nodes: Option<seq<ElementProperties>>): (r: Option<string>)
    ensures (nodes.None? || nodes.value == []) ==> r.None?
    ensures nodes.Some? && nodes.value != [] ==> r == GetElementText(nodes.value[0])
    ensures r.Some? ==> Trim(r.value) == r.value
  {
    if nodes.None? || |nodes.value| == 0 then None
    else GetElementText(nodes.value[0])
  }

  /** Only the first node counts: later nodes never change the result. */
  lemma XPathFirstNodeOnly(first: ElementProperties, rest: seq<ElementProperties>)
    ensures GetXPathTextValue(Some([first] + rest)) == GetXPathTextValue(Some([first]))
  {
    assert ([first] + rest)[0] == first;
  }

  /** A first node whose text is white space only yields the empty string, not null. */
  lemma BlankTextIsEmptyNotNull(first: ElementProperties, rest: seq<ElementProperties>)
    requires TextContent in first
    requires forall i :: 0 <= i < |first[TextContent]| ==> IsWhiteSpace(first[TextContent][i])
    ensures GetXPathTextValue(Some([first] + rest)) == Some("")
  {
    assert ([first] + rest)[0] == first;
  }

  // ---------------------------------------------------------------------------
  // ClickByElementEvenIfInvisible

  /** The message fragment of PuppeteerSharp's "not visible or not an HTMLElement" error. */
  const NotVisibleFragment: string := "not visible or not an"

  /** Whether the catch clause of ClickByElementEvenIfInvisible takes the exception of
      ClickAsync. */
  predicate FallsBack(ex: Exception)
  {
    IsPuppeteerException(ex.kind) && Contains(ex.message, NotVisibleFragment)
  }

  /** The jQuery expression the fallback evaluates. */
  function JQueryClick(selector: string): (script: string)
    ensures Contains(script, selector)
  {
    ContainsInfix("$('", selector, "').click()");
    "$('" + selector + "').click()"
  }

  /** ClickByElementEvenIfInvisible(page, selector), ClickAsync having thrown `click`
      (None: it succeeded). The exception that leaves the method is returned. */
  method ClickByElementEvenIfInvisible(page: Page, selector: string, click: Option<Exception>)
    returns (thrown: Option<Exception>)
    modifies page
    ensures click.None? ==> page.trace == old(page.trace) + [Click(selector)] && thrown.None?
    ensures click.Some? && FallsBack(click.value) ==>
      page.trace == old(page.trace) + [Click(selector), Evaluate(JQueryClick(selector))] && thrown.None?
    ensures click.Some? && !FallsBack(click.value) ==>
      page.trace == old(page.trace) + [Click(selector)] && thrown == click
    ensures page.head == old(page.head) && page.body == old(page.body) && page.handlers == old(page.handlers)
  {
    page.Issue(Click(selector));
    thrown := None;
    if click.Some? {
      var ex := click.value;
      if IsPuppeteerException(ex.kind) && Contains(ex.message, NotVisibleFragment) {
        page.Issue(Evaluate(JQueryClick(selector)));
      } else {
        thrown := click;
      }
    }
  }

  /** The filter checks the exception class: a plain exception with the same message
      is not caught, a PuppeteerSharp timeout with it is. */
  lemma FallbackNeedsPuppeteerClass(a: string, b: string)
    ensures !FallsBack(Exception(SystemException, a + NotVisibleFragment + b, None))
    ensures FallsBack(Exception(WaitTaskTimeoutException, a + NotVisibleFragment + b, None))
  {
    ContainsInfix(a, NotVisibleFragment, b);
  }
}
