/** The part of System.Xml.Linq the entry points use: an element tree with
    attributes and text, Descendants(name) in document order, Element(name),
    Attribute(name) and the Value of an element (its concatenated text). */
module XmlTree {
  import opened Common

  datatype Attr = Attr(name: string, value: string)

  datatype XNode =
    | Element(tag: string, attributes: seq<Attr>, children: seq<XNode>)
    | Text(content: string)

  /** XElement.Attribute(name): None stands for the null the method returns. */
  function Attribute(n: XNode, name: string): (r: Option<string>)
    ensures r.Some? ==> n.Element? && Attr(name, r.value) in n.attributes
    ensures r.None? ==> !n.Element? || forall a :: a in n.attributes ==> a.name != name
  {
    if n.Text? then None else FirstAttribute(n.attributes, name)
  }

  function FirstAttribute(attrs: seq<Attr>, name: string): (r: Option<string>)
    ensures r.Some? ==> Attr(name, r.value) in attrs
    ensures r.None? ==> forall a :: a in attrs ==> a.name != name
  {
    if attrs == [] then None
    else if attrs[0].name == name then Some(attrs[0].value)
    else FirstAttribute(attrs[1..], name)
  }

  /** XElement.Value: the concatenation of every text node below the element. */
  function Value(n: XNode): string {
    match n
    case Text(s) => s
    case Element(_, _, cs) => ValueOf(cs)
  }

  function ValueOf(ns: seq<XNode>): string {
    if ns == [] then "" else Value(ns[0]) + ValueOf(ns[1..])
  }

  /** XElement.Descendants(tag): every element below `n` (not `n` itself)
      whose tag is `tag`, in document (pre-)order. */
  function Descendants(n: XNode, tag: string): (r: seq<XNode>)
    ensures forall d :: d in r ==> d.Element? && d.tag == tag
  {
    match n
    case Text(_) => []
    case Element(_, _, cs) => DescendantsOf(cs, tag)
  }

  function DescendantsOf(ns: seq<XNode>, tag: string): (r: seq<XNode>)
    ensures forall d :: d in r ==> d.Element? && d.tag == tag
  {
    if ns == [] then []
    else
      (if ns[0].Element? && ns[0].tag == tag then [ns[0]] else []) +
      Descendants(ns[0], tag) + DescendantsOf(ns[1..], tag)
  }

  /** XContainer.Element(tag): the first child element with that tag. */
  function ChildElement(n: XNode, tag: string): (r: Option<XNode>)
    ensures r.Some? ==> n.Element? && r.value in n.children && r.value.Element? && r.value.tag == tag
    ensures r.None? ==> !n.Element? || forall c :: c in n.children ==> !(c.Element? && c.tag == tag)
  {
    if n.Text? then None else FirstChild(n.children, tag)
  }

  function FirstChild(ns: seq<XNode>, tag: string): (r: Option<XNode>)
    ensures r.Some? ==> r.value in ns && r.value.Element? && r.value.tag == tag
    ensures r.None? ==> forall c :: c in ns ==> !(c.Element? && c.tag == tag)
  {
    if ns == [] then None
    else if ns[0].Element? && ns[0].tag == tag then Some(ns[0])
    else FirstChild(ns[1..], tag)
  }

  /** XDocument.Element(tag) on a parsed document: its root when the root
      carries that tag. */
  function RootElement(root: XNode, tag: string): (r: Option<XNode>)
    ensures r.Some? <==> root.Element? && root.tag == tag
    ensures r.Some? ==> r.value == root
  {
    if root.Element? && root.tag == tag then Some(root) else None
  }
}
