/**
 * The part of the DOM the component touches: elements with attributes,
 * `innerHTML` kept as text, a class list, child nodes, and the `max`/`value`
 * of a `<progress>`. Class lists follow `DOMTokenList` (section 7.1 of the
 * WHATWG DOM Standard): a set of tokens. `appendChild` of a node that is
 * already a child moves it to the end (section 4.2.3, mutation algorithms).
 */
module Dom {

  class Element {
    const tagName: string
    var attributes: map<string, string>
    var innerHTML: string
    var classList: set<string>
    var childNodes: seq<Element>
    var max: real      // used by <progress>
    var value: real    // used by <progress>

    /** `document.createElement(tagName)`. */
    constructor (tagName: string)
      ensures this.tagName == tagName
      ensures attributes == map[] && innerHTML == "" && classList == {} && childNodes == []
      ensures max == 1.0 && value == 0.0
    {
      this.tagName := tagName;
      attributes := map[];
      innerHTML := "";
      classList := {};
      childNodes := [];
      max := 1.0;
      value := 0.0;
    }

    method SetAttribute(name: string, v: string)
      modifies this`attributes
      ensures attributes == old(attributes)[name := v]
    {
      attributes := attributes[name := v];
    }

    /** `appendChild(child)`: the child ends up last, and only once. */
    method AppendChild(child: Element) returns (appended: Element)
      requires child != this
      modifies this`childNodes
      ensures childNodes == Without(old(childNodes), child) + [child]
      ensures appended == child
    {
      childNodes := Without(childNodes, child) + [child];
      appended := child;
    }

    /** `classList.add(...tokens)`. */
    method AddClasses(tokens: set<string>)
      modifies this`classList
      ensures classList == old(classList) + tokens
    {
      classList := classList + tokens;
    }

    /** `classList.toggle(token, force)`. */
    method ToggleClass(token: string, force: bool)
      modifies this`classList
      ensures classList == Toggled(old(classList), token, force)
    {
      classList := Toggled(classList, token, force);
    }

    /** `classList.remove(token)`. */
    method RemoveClass(token: string)
      modifies this`classList
      ensures classList == old(classList) - {token}
    {
      classList := classList - {token};
    }
  }

  /** `nodes` with every occurrence of `x` taken out, the rest in order. */
  function Without(nodes: seq<Element>, x: Element): (r: seq<Element>)
    ensures forall e :: e in r ==> e in nodes && e != x
    ensures forall e :: e in nodes && e != x ==> e in r
    ensures |r| <= |nodes|
    ensures x !in nodes ==> r == nodes
  {
    if nodes == [] then []
    else if nodes[0] == x then Without(nodes[1..], x)
    else [nodes[0]] + Without(nodes[1..], x)
  }

  /** Taking a node out of a concatenation takes it out of each part: the order is kept. */
  lemma {:induction false} WithoutAppend(s: seq<Element>, t: seq<Element>, x: Element)
    ensures Without(s + t, x) == Without(s, x) + Without(t, x)
    decreases |s|
  {
    if s == [] {
      assert s + t == t;
    } else {
      assert (s + t)[1..] == s[1..] + t;
      WithoutAppend(s[1..], t, x);
    }
  }

  /** A single node stays unless it is the one taken out. */
  lemma WithoutSingle(y: Element, x: Element)
    ensures Without([y], x) == if y == x then [] else [y]
  {
  }

  /** The token set after `toggle(token, force)`: `force` says whether the token is present. */
  function Toggled(tokens: set<string>, token: string, force: bool): (r: set<string>)
    ensures token in r <==> force
    ensures forall t :: t != token ==> (t in r <==> t in tokens)
  {
    if force then tokens + {token} else tokens - {token}
  }

  /** The selector `style[name="<name>"]`. */
  predicate IsStyleNamed(e: Element, name: string)
    reads e
  {
    e.tagName == "style" && "name" in e.attributes && e.attributes["name"] == name
  }

  /** The style nodes named `name` among `nodes`. */
  function StylesNamed(nodes: seq<Element>, name: string): set<Element>
    reads nodes
  {
    set e | e in nodes && IsStyleNamed(e, name)
  }

  /** Appending a style node named `name` (moving it if already there) adds it to the matches and keeps the rest. */
  lemma StylesAfterAppend(nodes: seq<Element>, x: Element, name: string)
    requires IsStyleNamed(x, name)
    ensures StylesNamed(Without(nodes, x) + [x], name) == StylesNamed(nodes, name) + {x}
  {
  }

  /** `querySelector` over `nodes` from index k: the index of the first match, or |nodes| when none. */
  function QuerySelectorFrom(nodes: seq<Element>, name: string, k: nat): (i: nat)
    requires k <= |nodes|
    reads nodes
    decreases |nodes| - k
    ensures k <= i <= |nodes|
    ensures i < |nodes| ==> IsStyleNamed(nodes[i], name)
    ensures forall j :: k <= j < i ==> !IsStyleNamed(nodes[j], name)
  {
    if k == |nodes| || IsStyleNamed(nodes[k], name) then k else QuerySelectorFrom(nodes, name, k + 1)
  }

  /** `querySelector('style[name="<name>"]')` over `nodes`. */
  function QuerySelector(nodes: seq<Element>, name: string): (i: nat)
    reads nodes
    ensures i <= |nodes|
    ensures i < |nodes| ==> nodes[i] in StylesNamed(nodes, name)
    ensures forall j :: 0 <= j < i ==> !IsStyleNamed(nodes[j], name)
    ensures i == |nodes| <==> StylesNamed(nodes, name) == {}
  {
    var i := QuerySelectorFrom(nodes, name, 0);
    if i == |nodes| then
      assert forall e :: e in nodes ==> !IsStyleNamed(e, name);
      i
    else
      i
  }
}
