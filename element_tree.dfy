/**
 * An abstract XML element tree in the shape ElementTree builds: the tag,
 * the attributes in insertion order, the optional text and the children.
 * Serialisation and escaping are not part of this model.
 */
module ElementTree {
  import opened Wrappers

  datatype Attribute = Attribute(name: string, value: string)

  datatype Element = Element(tag: string, attributes: seq<Attribute>, text: Option<string>, children: seq<Element>)

  /** An element with text and no attributes or children. */
  function Leaf(tag: string, text: string): Element {
    Element(tag, [], Some(text), [])
  }

  /** Element.get(name): the value of the first attribute called name. */
  function GetAttribute(attributes: seq<Attribute>, name: string): (r: Option<string>)
    ensures r.Some? <==> exists a :: a in attributes && a.name == name
    ensures r.Some? ==> Attribute(name, r.value) in attributes
  {
    if attributes == [] then None
    else if attributes[0].name == name then Some(attributes[0].value)
    else GetAttribute(attributes[1..], name)
  }

  /** Element.find(tag) over the children: the first child carrying tag. */
  function FindChild(children: seq<Element>, tag: string): (r: Option<Element>)
    ensures r.Some? ==> r.value in children && r.value.tag == tag
  {
    if children == [] then None
    else if children[0].tag == tag then Some(children[0])
    else FindChild(children[1..], tag)
  }

  /** Element.findall(tag) over the children: every child carrying tag, in order. */
  function FindAll(children: seq<Element>, tag: string): (r: seq<Element>)
    ensures |r| <= |children|
    ensures forall c :: c in r ==> c in children && c.tag == tag
  {
    if children == [] then []
    else (if children[0].tag == tag then [children[0]] else []) + FindAll(children[1..], tag)
  }

  /** The text of the first child carrying tag, as find(tag).text reads it. */
  function FindText(e: Element, tag: string): Option<string> {
    match FindChild(e.children, tag)
    case Some(c) => c.text
    case None => None
  }

  /** There is no child to find exactly when no child carries the tag. */
  lemma {:induction false} FindChildNone(children: seq<Element>, tag: string)
    ensures FindChild(children, tag).None? <==> forall c :: c in children ==> c.tag != tag
  {
    if children != [] {
      FindChildNone(children[1..], tag);
      assert forall c :: c in children <==> c == children[0] || c in children[1..];
    }
  }

  /** The first child carrying tag is the one at k when no earlier child carries it. */
  lemma {:induction false} FindChildAt(children: seq<Element>, k: nat, tag: string)
    requires k < |children| && children[k].tag == tag
    requires forall j :: 0 <= j < k ==> children[j].tag != tag
    ensures FindChild(children, tag) == Some(children[k])
  {
    if k > 0 {
      FindChildAt(children[1..], k - 1, tag);
    }
  }

  lemma {:induction false} FindAllAppend(a: seq<Element>, b: seq<Element>, tag: string)
    ensures FindAll(a + b, tag) == FindAll(a, tag) + FindAll(b, tag)
  {
    if a == [] {
      assert a + b == b;
    } else {
      assert (a + b)[0] == a[0];
      assert (a + b)[1..] == a[1..] + b;
      FindAllAppend(a[1..], b, tag);
    }
  }

  /** findall keeps every child when they all carry the tag, and none when none does. */
  lemma {:induction false} FindAllUniform(children: seq<Element>, tag: string)
    ensures (forall c :: c in children ==> c.tag == tag) ==> FindAll(children, tag) == children
    ensures (forall c :: c in children ==> c.tag != tag) ==> FindAll(children, tag) == []
  {
    if children != [] {
      assert forall c :: c in children[1..] ==> c in children;
      FindAllUniform(children[1..], tag);
    }
  }
}
