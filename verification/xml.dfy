/** The minimal XML renderer of the response negotiator (`to_xml` with its
    nested `render_node`). Dict keys become element names, list entries become
    `<item>` elements, scalars are written as their `str()` text with no
    escaping, and the whole payload sits in `<response><data>…</data></response>`. */
module Xml {
  import opened Strings
  import opened Payload

  const ItemName := "item"
  const DataName := "data"
  const DefaultRoot := "response"

  function OpenTag(name: string): string {
    "<" + name + ">"
  }

  function CloseTag(name: string): string {
    "</" + name + ">"
  }

  /** `render_node(key, value)`: one element named `key` whose content is the
      rendering of `value`. */
  function RenderNode(key: string, v: Value): (r: string)
    ensures StartsWith(r, OpenTag(key))
    ensures EndsWith(r, CloseTag(key))
    ensures |r| >= |OpenTag(key)| + |CloseTag(key)|
    decreases v
  {
    OpenTag(key) + RenderContent(v) + CloseTag(key)
  }

  /** What `render_node` writes between the tags. */
  function RenderContent(v: Value): string
    decreases v, 0
  {
    match v
    case Dict(fs) =>
      Concat(seq(|fs|, i requires 0 <= i < |fs| => RenderNode(fs[i].key, fs[i].value)))
    case List(xs) =>
      Concat(seq(|xs|, i requires 0 <= i < |xs| => RenderNode(ItemName, xs[i])))
    case Leaf(sc) => ScalarText(sc)
  }

  /** `to_xml(data, root)`. */
  function ToXml(data: Value, root: string): (r: string)
    ensures StartsWith(r, OpenTag(root) + OpenTag(DataName))
    ensures EndsWith(r, CloseTag(DataName) + CloseTag(root))
  {
    var inner := RenderNode(DataName, data);
    assert inner == OpenTag(DataName) + RenderContent(data) + CloseTag(DataName);
    OpenTag(root) + inner + CloseTag(root)
  }
}
