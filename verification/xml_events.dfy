/** A reference reading of the XML renderer's output as a stream of events
    (start tag, end tag, character data), a lexer that recovers that stream
    from text, and the structural facts the renderer guarantees: its output is
    the serialised event stream, the stream is well nested, a dict yields one
    child element per key in key order, a list yields one `<item>` per entry in
    list order, and for payloads whose keys and texts carry no markup the text
    lexes back to exactly that stream. Scalars are not escaped, so a text that
    contains markup changes the structure; `UnescapedTextBreaksNesting` shows it. */
module XmlEvents {
  import opened Strings
  import opened Payload
  import opened Xml

  datatype Event = Open(name: string) | Close(name: string) | Chars(text: string)

  function EventText(e: Event): string {
    match e
    case Open(n) => OpenTag(n)
    case Close(n) => CloseTag(n)
    case Chars(t) => t
  }

  function Serialize(es: seq<Event>): string {
    if |es| == 0 then "" else EventText(es[0]) + Serialize(es[1..])
  }

  function Flatten(blocks: seq<seq<Event>>): seq<Event> {
    if |blocks| == 0 then [] else blocks[0] + Flatten(blocks[1..])
  }

  /** The events of the element `render_node(key, v)` writes. */
  function Events(key: string, v: Value): seq<Event>
    decreases v
  {
    [Open(key)] + ContentEvents(v) + [Close(key)]
  }

  function ContentEvents(v: Value): seq<Event>
    decreases v, 0
  {
    match v
    case Dict(fs) =>
      Flatten(seq(|fs|, i requires 0 <= i < |fs| => Events(fs[i].key, fs[i].value)))
    case List(xs) =>
      Flatten(seq(|xs|, i requires 0 <= i < |xs| => Events(ItemName, xs[i])))
    case Leaf(sc) =>
      if ScalarText(sc) == "" then [] else [Chars(ScalarText(sc))]
  }

  /** The events of the whole document `to_xml(data, root)` writes. */
  function DocumentEvents(data: Value, root: string): seq<Event> {
    [Open(root)] + Events(DataName, data) + [Close(root)]
  }

  // ---------------------------------------------------------------------------
  // Rendering is serialising the event stream

  lemma {:induction false} SerializeAppend(a: seq<Event>, b: seq<Event>)
    ensures Serialize(a + b) == Serialize(a) + Serialize(b)
  {
    if |a| > 0 {
      assert (a + b)[1..] == a[1..] + b;
      SerializeAppend(a[1..], b);
    } else {
      assert a + b == b;
    }
  }

  lemma {:induction false} SerializeFlatten(blocks: seq<seq<Event>>)
    ensures Serialize(Flatten(blocks))
         == Concat(seq(|blocks|, i requires 0 <= i < |blocks| => Serialize(blocks[i])))
  {
    if |blocks| > 0 {
      var parts := seq(|blocks|, i requires 0 <= i < |blocks| => Serialize(blocks[i]));
      var tail := blocks[1..];
      var rest := seq(|tail|, i requires 0 <= i < |tail| => Serialize(tail[i]));
      assert parts[1..] == rest;
      assert Concat(parts) == parts[0] + Concat(rest);
      assert Flatten(blocks) == blocks[0] + Flatten(tail);
      SerializeAppend(blocks[0], Flatten(tail));
      SerializeFlatten(tail);
    }
  }

  lemma SerializeElement(key: string, content: seq<Event>)
    ensures Serialize([Open(key)] + content + [Close(key)])
         == OpenTag(key) + Serialize(content) + CloseTag(key)
  {
    SerializeAppend([Open(key)] + content, [Close(key)]);
    SerializeAppend([Open(key)], content);
  }

  /** `render_node` writes exactly the serialised event stream of the element. */
  lemma {:induction false} RenderIsSerializedEvents(key: string, v: Value)
    ensures RenderNode(key, v) == Serialize(Events(key, v))
    decreases v
  {
    ContentIsSerialized(v);
    SerializeElement(key, ContentEvents(v));
  }

  lemma {:induction false} ContentIsSerialized(v: Value)
    ensures RenderContent(v) == Serialize(ContentEvents(v))
    decreases v, 0
  {
    match v
    case Leaf(sc) =>
    case Dict(fs) =>
      var blocks := seq(|fs|, i requires 0 <= i < |fs| => Events(fs[i].key, fs[i].value));
      var parts := seq(|fs|, i requires 0 <= i < |fs| => RenderNode(fs[i].key, fs[i].value));
      forall i | 0 <= i < |fs|
        ensures parts[i] == Serialize(blocks[i])
      {
        RenderIsSerializedEvents(fs[i].key, fs[i].value);
      }
      SerializeFlatten(blocks);
      assert parts == seq(|blocks|, i requires 0 <= i < |blocks| => Serialize(blocks[i]));
    case List(xs) =>
      var blocks := seq(|xs|, i requires 0 <= i < |xs| => Events(ItemName, xs[i]));
      var parts := seq(|xs|, i requires 0 <= i < |xs| => RenderNode(ItemName, xs[i]));
      forall i | 0 <= i < |xs|
        ensures parts[i] == Serialize(blocks[i])
      {
        RenderIsSerializedEvents(ItemName, xs[i]);
      }
      SerializeFlatten(blocks);
      assert parts == seq(|blocks|, i requires 0 <= i < |blocks| => Serialize(blocks[i]));
  }

  /** `to_xml` writes exactly the serialised document event stream. */
  lemma ToXmlIsSerializedEvents(data: Value, root: string)
    ensures ToXml(data, root) == Serialize(DocumentEvents(data, root))
  {
    RenderIsSerializedEvents(DataName, data);
    SerializeElement(root, Events(DataName, data));
  }

  // ---------------------------------------------------------------------------
  // Well-nestedness: every end tag closes the innermost open element

  /** Runs the stream against a stack of open element names (innermost first)
      and tells whether every end tag matches and the stack ends empty. */
  function Check(es: seq<Event>, stack: seq<string>): bool {
    if |es| == 0 then |stack| == 0
    else match es[0]
      case Open(n) => Check(es[1..], [n] + stack)
      case Close(n) => |stack| > 0 && stack[0] == n && Check(es[1..], stack[1..])
      case Chars(_) => Check(es[1..], stack)
  }

  predicate WellNested(es: seq<Event>) {
    Check(es, [])
  }

  lemma {:induction false} FlattenTransparent(blocks: seq<seq<Event>>, rest: seq<Event>, stack: seq<string>)
    requires forall i, r, s :: 0 <= i < |blocks| ==> Check(blocks[i] + r, s) == Check(r, s)
    ensures Check(Flatten(blocks) + rest, stack) == Check(rest, stack)
  {
    if |blocks| > 0 {
      var tail := Flatten(blocks[1..]);
      assert Flatten(blocks) + rest == blocks[0] + (tail + rest);
      assert forall i, r, s :: 0 <= i < |blocks[1..]| ==> Check(blocks[1..][i] + r, s) == Check(r, s) by {
        forall i, r, s | 0 <= i < |blocks[1..]|
          ensures Check(blocks[1..][i] + r, s) == Check(r, s)
        {
          assert blocks[1..][i] == blocks[i + 1];
        }
      }
      FlattenTransparent(blocks[1..], rest, stack);
      assert Check(blocks[0] + (tail + rest), stack) == Check(tail + rest, stack);
    } else {
      assert Flatten(blocks) + rest == rest;
    }
  }

  /** A rendered element leaves the stack of open elements as it found it. */
  lemma {:induction false} ElementTransparent(key: string, v: Value, rest: seq<Event>, stack: seq<string>)
    ensures Check(Events(key, v) + rest, stack) == Check(rest, stack)
    decreases v
  {
    var c := ContentEvents(v);
    assert Events(key, v) + rest == [Open(key)] + (c + ([Close(key)] + rest));
    ContentTransparent(v, [Close(key)] + rest, [key] + stack);
    assert ([Close(key)] + rest)[1..] == rest;
  }

  lemma {:induction false} ContentTransparent(v: Value, rest: seq<Event>, stack: seq<string>)
    ensures Check(ContentEvents(v) + rest, stack) == Check(rest, stack)
    decreases v, 0
  {
    match v
    case Leaf(sc) =>
      if ScalarText(sc) != "" {
        assert ([Chars(ScalarText(sc))] + rest)[1..] == rest;
      } else {
        assert ContentEvents(v) + rest == rest;
      }
    case Dict(fs) =>
      var blocks := seq(|fs|, i requires 0 <= i < |fs| => Events(fs[i].key, fs[i].value));
      forall i, r, s | 0 <= i < |blocks|
        ensures Check(blocks[i] + r, s) == Check(r, s)
      {
        ElementTransparent(fs[i].key, fs[i].value, r, s);
      }
      FlattenTransparent(blocks, rest, stack);
    case List(xs) =>
      var blocks := seq(|xs|, i requires 0 <= i < |xs| => Events(ItemName, xs[i]));
      forall i, r, s | 0 <= i < |blocks|
        ensures Check(blocks[i] + r, s) == Check(r, s)
      {
        ElementTransparent(ItemName, xs[i], r, s);
      }
      FlattenTransparent(blocks, rest, stack);
  }

  /** Every document `to_xml` writes is well nested as an event stream. */
  lemma DocumentWellNested(data: Value, root: string)
    ensures WellNested(DocumentEvents(data, root))
  {
    var d := DocumentEvents(data, root);
    assert d == [Open(root)] + (Events(DataName, data) + [Close(root)]);
    assert d[1..] == Events(DataName, data) + [Close(root)];
    ElementTransparent(DataName, data, [Close(root)], [root]);
    assert [Close(root)][1..] == [];
    assert Check([Close(root)], [root]);
    assert d[0] == Open(root);
    assert [root] + [] == [root];
    assert Check(d, []) == Check(d[1..], [root]);
  }

  // ---------------------------------------------------------------------------
  // Child elements: the names of the elements directly inside an element

  /** Names of the start tags met at depth `depth` = 0, scanning left to right. */
  function TopOpens(es: seq<Event>, depth: int): seq<string> {
    if |es| == 0 then []
    else match es[0]
      case Open(n) => (if depth == 0 then [n] else []) + TopOpens(es[1..], depth + 1)
      case Close(_) => TopOpens(es[1..], depth - 1)
      case Chars(_) => TopOpens(es[1..], depth)
  }

  /** The names of the direct children of the element whose stream is `es`. */
  function ChildNames(es: seq<Event>): seq<string> {
    if |es| < 2 then [] else TopOpens(es[1..|es| - 1], 0)
  }

  lemma {:induction false} FlattenHidden(blocks: seq<seq<Event>>, rest: seq<Event>, depth: int)
    requires depth >= 1
    requires forall i, r, d :: 0 <= i < |blocks| && d >= 1 ==> TopOpens(blocks[i] + r, d) == TopOpens(r, d)
    ensures TopOpens(Flatten(blocks) + rest, depth) == TopOpens(rest, depth)
  {
    if |blocks| > 0 {
      var tail := Flatten(blocks[1..]);
      assert Flatten(blocks) + rest == blocks[0] + (tail + rest);
      forall i, r, d | 0 <= i < |blocks[1..]| && d >= 1
        ensures TopOpens(blocks[1..][i] + r, d) == TopOpens(r, d)
      {
        assert blocks[1..][i] == blocks[i + 1];
      }
      FlattenHidden(blocks[1..], rest, depth);
      assert TopOpens(blocks[0] + (tail + rest), depth) == TopOpens(tail + rest, depth);
    } else {
      assert Flatten(blocks) + rest == rest;
    }
  }

  /** The block shows as exactly one child, `name`, whatever follows it. */
  ghost predicate ShowsAs(block: seq<Event>, name: string) {
    forall r :: TopOpens(block + r, 0) == [name] + TopOpens(r, 0)
  }

  lemma {:induction false} FlattenNames(blocks: seq<seq<Event>>, names: seq<string>, rest: seq<Event>)
    requires |names| == |blocks|
    requires forall i :: 0 <= i < |blocks| ==> ShowsAs(blocks[i], names[i])
    ensures TopOpens(Flatten(blocks) + rest, 0) == names + TopOpens(rest, 0)
  {
    if |blocks| > 0 {
      var tail := Flatten(blocks[1..]);
      assert Flatten(blocks) + rest == blocks[0] + (tail + rest);
      assert forall i :: 0 <= i < |blocks[1..]| ==> blocks[1..][i] == blocks[i + 1] && names[1..][i] == names[i + 1];
      FlattenNames(blocks[1..], names[1..], rest);
      assert ShowsAs(blocks[0], names[0]);
      var later := TopOpens(tail + rest, 0);
      assert TopOpens(blocks[0] + (tail + rest), 0) == [names[0]] + later;
      assert [names[0]] + (names[1..] + TopOpens(rest, 0)) == names + TopOpens(rest, 0);
    } else {
      assert Flatten(blocks) + rest == rest;
    }
  }

  /** An element shows as one child, named by its key, at depth 0, and as no
      child at all deeper down. */
  lemma {:induction false} ElementShowsOnce(key: string, v: Value, rest: seq<Event>, depth: int)
    requires depth >= 0
    ensures TopOpens(Events(key, v) + rest, depth)
         == (if depth == 0 then [key] else []) + TopOpens(rest, depth)
    decreases v
  {
    var c := ContentEvents(v);
    assert Events(key, v) + rest == [Open(key)] + (c + ([Close(key)] + rest));
    ContentHidden(v, [Close(key)] + rest, depth + 1);
    assert ([Close(key)] + rest)[1..] == rest;
  }

  lemma {:induction false} ContentHidden(v: Value, rest: seq<Event>, depth: int)
    requires depth >= 1
    ensures TopOpens(ContentEvents(v) + rest, depth) == TopOpens(rest, depth)
    decreases v, 0
  {
    match v
    case Leaf(sc) =>
      if ScalarText(sc) != "" {
        assert ([Chars(ScalarText(sc))] + rest)[1..] == rest;
      } else {
        assert ContentEvents(v) + rest == rest;
      }
    case Dict(fs) =>
      var blocks := seq(|fs|, i requires 0 <= i < |fs| => Events(fs[i].key, fs[i].value));
      forall i, r, d | 0 <= i < |blocks| && d >= 1
        ensures TopOpens(blocks[i] + r, d) == TopOpens(r, d)
      {
        ElementShowsOnce(fs[i].key, fs[i].value, r, d);
      }
      FlattenHidden(blocks, rest, depth);
    case List(xs) =>
      var blocks := seq(|xs|, i requires 0 <= i < |xs| => Events(ItemName, xs[i]));
      forall i, r, d | 0 <= i < |blocks| && d >= 1
        ensures TopOpens(blocks[i] + r, d) == TopOpens(r, d)
      {
        ElementShowsOnce(ItemName, xs[i], r, d);
      }
      FlattenHidden(blocks, rest, depth);
  }

  /** A dict renders one child element per key, in key order. */
  lemma DictChildren(key: string, fs: seq<Field>)
    ensures ChildNames(Events(key, Dict(fs))) == Keys(fs)
  {
    var blocks := seq(|fs|, i requires 0 <= i < |fs| => Events(fs[i].key, fs[i].value));
    var es := Events(key, Dict(fs));
    assert es[1..|es| - 1] == ContentEvents(Dict(fs));
    assert ContentEvents(Dict(fs)) == Flatten(blocks) + [];
    forall i | 0 <= i < |blocks|
      ensures ShowsAs(blocks[i], Keys(fs)[i])
    {
      forall r ensures TopOpens(blocks[i] + r, 0) == [Keys(fs)[i]] + TopOpens(r, 0) {
        ElementShowsOnce(fs[i].key, fs[i].value, r, 0);
      }
    }
    FlattenNames(blocks, Keys(fs), []);
  }

  /** A list renders exactly one child per entry, each named `item`. */
  lemma ListChildren(key: string, xs: seq<Value>)
    ensures ChildNames(Events(key, List(xs))) == seq(|xs|, _ => ItemName)
  {
    var blocks := seq(|xs|, i requires 0 <= i < |xs| => Events(ItemName, xs[i]));
    var names := seq(|xs|, _ => ItemName);
    var es := Events(key, List(xs));
    assert es[1..|es| - 1] == ContentEvents(List(xs));
    assert ContentEvents(List(xs)) == Flatten(blocks) + [];
    forall i | 0 <= i < |blocks|
      ensures ShowsAs(blocks[i], names[i])
    {
      forall r ensures TopOpens(blocks[i] + r, 0) == [names[i]] + TopOpens(r, 0) {
        ElementShowsOnce(ItemName, xs[i], r, 0);
      }
    }
    FlattenNames(blocks, names, []);
  }

  /** A scalar renders no child element. */
  lemma LeafChildren(key: string, sc: Scalar)
    ensures ChildNames(Events(key, Leaf(sc))) == []
  {
    var es := Events(key, Leaf(sc));
    var c := ContentEvents(Leaf(sc));
    assert es[1..|es| - 1] == c;
    if |c| > 0 {
      assert c[0].Chars? && c[1..] == [];
      assert TopOpens(c, 0) == TopOpens(c[1..], 0);
    }
  }

  /** Appending an entry to a list appends its `<item>` element after the
      renderings of the earlier entries; the earlier ones are unchanged. */
  lemma ListAppendRendering(key: string, xs: seq<Value>, x: Value)
    ensures RenderNode(key, List(xs + [x]))
         == OpenTag(key) + RenderContent(List(xs)) + RenderNode(ItemName, x) + CloseTag(key)
  {
    var e := RenderNode(ItemName, x);
    var c := RenderContent(List(xs));
    ItemRenderingsAppend(xs, x);
    ConcatAppend(ItemRenderings(xs), [e]);
    assert Concat([e]) == e + Concat([]);
    assert RenderContent(List(xs + [x])) == c + e;
    AppendAssoc(OpenTag(key), c, e, CloseTag(key));
  }

  /** The `<item>` element of each entry, in order. */
  function ItemRenderings(xs: seq<Value>): (r: seq<string>)
    ensures |r| == |xs|
    ensures Concat(r) == RenderContent(List(xs))
  {
    seq(|xs|, i requires 0 <= i < |xs| => RenderNode(ItemName, xs[i]))
  }

  lemma ItemRenderingsAppend(xs: seq<Value>, x: Value)
    ensures ItemRenderings(xs + [x]) == ItemRenderings(xs) + [RenderNode(ItemName, x)]
  {
    var ys := xs + [x];
    forall i | 0 <= i < |xs|
      ensures ItemRenderings(ys)[i] == ItemRenderings(xs)[i]
    {
      assert ys[i] == xs[i];
    }
  }

  /** Appending a field to a dict appends its element after the renderings of
      the earlier fields; the earlier ones are unchanged. */
  lemma DictAppendRendering(key: string, fs: seq<Field>, f: Field)
    ensures RenderNode(key, Dict(fs + [f]))
         == OpenTag(key) + RenderContent(Dict(fs)) + RenderNode(f.key, f.value) + CloseTag(key)
  {
    var x := RenderNode(f.key, f.value);
    var c := RenderContent(Dict(fs));
    FieldRenderingsAppend(fs, f);
    ConcatAppend(FieldRenderings(fs), [x]);
    assert Concat([x]) == x + Concat([]);
    assert RenderContent(Dict(fs + [f])) == c + x;
    AppendAssoc(OpenTag(key), c, x, CloseTag(key));
  }

  lemma AppendAssoc(a: string, b: string, c: string, d: string)
    ensures a + (b + c) + d == a + b + c + d
  {
  }

  /** The element of each field, in order. */
  function FieldRenderings(fs: seq<Field>): (r: seq<string>)
    ensures |r| == |fs|
    ensures Concat(r) == RenderContent(Dict(fs))
  {
    seq(|fs|, i requires 0 <= i < |fs| => RenderNode(fs[i].key, fs[i].value))
  }

  lemma FieldRenderingsAppend(fs: seq<Field>, f: Field)
    ensures FieldRenderings(fs + [f]) == FieldRenderings(fs) + [RenderNode(f.key, f.value)]
  {
    var gs := fs + [f];
    forall i | 0 <= i < |fs|
      ensures FieldRenderings(gs)[i] == FieldRenderings(fs)[i]
    {
      assert gs[i] == fs[i];
    }
  }

  // ---------------------------------------------------------------------------
  // Reading the text back

  /** Splits text into tags and character data: `<name>` is a start tag,
      `</name>` an end tag, anything up to the next `<` is character data, and
      an unterminated `<` makes the rest character data. */
  function Lex(s: string): seq<Event>
    decreases |s|
  {
    if |s| == 0 then []
    else if s[0] == '<' then
      var j := Find(s, '>', 1);
      if j == |s| then [Chars(s)]
      else if j >= 2 && s[1] == '/' then [Close(s[2..j])] + Lex(s[j + 1..])
      else [Open(s[1..j])] + Lex(s[j + 1..])
    else
      var j := Find(s, '<', 0);
      [Chars(s[..j])] + Lex(s[j..])
  }

  /** A name that reads back as itself inside a tag. */
  predicate NameClean(n: string) {
    '>' !in n && (|n| == 0 || n[0] != '/')
  }

  /** Character data that reads back as itself. */
  predicate TextClean(t: string) {
    '<' !in t
  }

  predicate EventClean(e: Event) {
    match e
    case Open(n) => NameClean(n)
    case Close(n) => NameClean(n)
    case Chars(t) => t != "" && TextClean(t)
  }

  /** Every event reads back as itself and no two character-data events touch. */
  predicate Clean(es: seq<Event>) {
    |es| == 0 ||
    (EventClean(es[0]) && (es[0].Chars? && |es| > 1 ==> !es[1].Chars?) && Clean(es[1..]))
  }

  /** A payload whose keys and scalar texts carry no markup. */
  predicate PayloadClean(v: Value) {
    match v
    case Leaf(sc) => TextClean(ScalarText(sc))
    case Dict(fs) => forall i :: 0 <= i < |fs| ==> NameClean(fs[i].key) && PayloadClean(fs[i].value)
    case List(xs) => forall i :: 0 <= i < |xs| ==> PayloadClean(xs[i])
  }

  lemma SerializeStartsWithTag(es: seq<Event>)
    requires |es| > 0 && !es[0].Chars?
    ensures |Serialize(es)| > 0 && Serialize(es)[0] == '<'
  {
  }

  lemma LexOpen(n: string, tail: string)
    requires NameClean(n)
    ensures Lex(OpenTag(n) + tail) == [Open(n)] + Lex(tail)
  {
    var s := OpenTag(n) + tail;
    var j := |n| + 1;
    FindIs(s, '>', 1, j);
    assert s[1..j] == n;
    assert s[j + 1..] == tail;
    assert s[0] == '<';
    assert |n| > 0 ==> s[1] == n[0];
  }

  lemma LexClose(n: string, tail: string)
    requires NameClean(n)
    ensures Lex(CloseTag(n) + tail) == [Close(n)] + Lex(tail)
  {
    var s := CloseTag(n) + tail;
    var j := |n| + 2;
    FindIs(s, '>', 1, j);
    assert s[2..j] == n;
    assert s[j + 1..] == tail;
    assert s[0] == '<' && s[1] == '/';
  }

  lemma LexChars(t: string, tail: string)
    requires t != "" && TextClean(t)
    requires |tail| > 0 ==> tail[0] == '<'
    ensures Lex(t + tail) == [Chars(t)] + Lex(tail)
  {
    var s := t + tail;
    var j := |t|;
    FindIs(s, '<', 0, j);
    assert s[..j] == t;
    assert s[j..] == tail;
    assert s[0] == t[0];
  }

  /** Lexing the serialisation of a clean stream gives the stream back. */
  lemma {:induction false} LexSerialize(es: seq<Event>)
    requires Clean(es)
    ensures Lex(Serialize(es)) == es
  {
    if |es| > 0 {
      var tail := Serialize(es[1..]);
      LexSerialize(es[1..]);
      match es[0]
      case Open(n) =>
        LexOpen(n, tail);
      case Close(n) =>
        LexClose(n, tail);
      case Chars(t) =>
        if |es| > 1 {
          SerializeStartsWithTag(es[1..]);
        }
        LexChars(t, tail);
    }
  }

  lemma {:induction false} CleanAppend(a: seq<Event>, b: seq<Event>)
    requires Clean(a) && Clean(b)
    requires |a| == 0 || |b| == 0 || !(a[|a| - 1].Chars? && b[0].Chars?)
    ensures Clean(a + b)
  {
    if |a| == 0 {
      assert a + b == b;
    } else {
      assert (a + b)[1..] == a[1..] + b;
      CleanAppend(a[1..], b);
    }
  }

  lemma {:induction false} FlattenClean(blocks: seq<seq<Event>>)
    requires forall i :: 0 <= i < |blocks| ==>
      Clean(blocks[i]) && |blocks[i]| > 0 && blocks[i][0].Open? && blocks[i][|blocks[i]| - 1].Close?
    ensures Clean(Flatten(blocks))
    ensures |Flatten(blocks)| > 0 ==> Flatten(blocks)[0].Open? && Flatten(blocks)[|Flatten(blocks)| - 1].Close?
  {
    if |blocks| > 0 {
      var tail := Flatten(blocks[1..]);
      assert forall i :: 0 <= i < |blocks[1..]| ==> blocks[1..][i] == blocks[i + 1];
      FlattenClean(blocks[1..]);
      CleanAppend(blocks[0], tail);
    }
  }

  /** A clean payload under a clean key renders to a clean stream. */
  lemma {:induction false} EventsClean(key: string, v: Value)
    requires NameClean(key) && PayloadClean(v)
    ensures Clean(Events(key, v))
    decreases v
  {
    var c := ContentEvents(v);
    ContentClean(v);
    assert Clean([Close(key)]);
    CleanAppend(c, [Close(key)]);
    assert Clean([Open(key)]);
    CleanAppend([Open(key)], c + [Close(key)]);
    assert Events(key, v) == [Open(key)] + (c + [Close(key)]);
  }

  lemma {:induction false} ContentClean(v: Value)
    requires PayloadClean(v)
    ensures Clean(ContentEvents(v))
    ensures |ContentEvents(v)| > 0 && !v.Leaf? ==>
      ContentEvents(v)[0].Open? && ContentEvents(v)[|ContentEvents(v)| - 1].Close?
    decreases v, 0
  {
    match v
    case Leaf(sc) =>
      if ScalarText(sc) != "" {
        assert Clean([Chars(ScalarText(sc))][1..]);
      }
    case Dict(fs) =>
      var blocks := seq(|fs|, i requires 0 <= i < |fs| => Events(fs[i].key, fs[i].value));
      forall i | 0 <= i < |blocks|
        ensures Clean(blocks[i]) && |blocks[i]| > 0 && blocks[i][0].Open? && blocks[i][|blocks[i]| - 1].Close?
      {
        EventsClean(fs[i].key, fs[i].value);
      }
      FlattenClean(blocks);
    case List(xs) =>
      var blocks := seq(|xs|, i requires 0 <= i < |xs| => Events(ItemName, xs[i]));
      forall i | 0 <= i < |blocks|
        ensures Clean(blocks[i]) && |blocks[i]| > 0 && blocks[i][0].Open? && blocks[i][|blocks[i]| - 1].Close?
      {
        EventsClean(ItemName, xs[i]);
      }
      FlattenClean(blocks);
  }

  /** For a payload whose keys and texts carry no markup, the XML text reads
      back as exactly the document's event stream; so the text is well nested,
      and the children visible in it are the ones the lemmas above describe. */
  lemma ToXmlReadsBack(data: Value, root: string)
    requires NameClean(root) && PayloadClean(data)
    ensures Lex(ToXml(data, root)) == DocumentEvents(data, root)
    ensures WellNested(Lex(ToXml(data, root)))
  {
    ToXmlIsSerializedEvents(data, root);
    EventsClean(DataName, data);
    var e := Events(DataName, data);
    assert Clean([Close(root)]);
    CleanAppend(e, [Close(root)]);
    assert Clean([Open(root)]);
    CleanAppend([Open(root)], e + [Close(root)]);
    assert DocumentEvents(data, root) == [Open(root)] + (e + [Close(root)]);
    LexSerialize(DocumentEvents(data, root));
    DocumentWellNested(data, root);
  }

  /** The stream read back from a document whose data is the string `</data>`. */
  function EarlyCloseEvents(): seq<Event> {
    [Open(DefaultRoot), Open(DataName), Close(DataName), Close(DataName), Close(DefaultRoot)]
  }

  /** The five tags the rendering and the event stream both spell out. */
  function EarlyCloseTags(): string {
    OpenTag(DefaultRoot) + (OpenTag(DataName) + (CloseTag(DataName) + (CloseTag(DataName) + CloseTag(DefaultRoot))))
  }

  lemma EarlyCloseRendered()
    ensures ToXml(Leaf(Str("</data>")), DefaultRoot) == EarlyCloseTags()
  {
    var o, d, c, e := OpenTag(DefaultRoot), OpenTag(DataName), CloseTag(DataName), CloseTag(DefaultRoot);
    assert RenderContent(Leaf(Str("</data>"))) == c;
    assert ToXml(Leaf(Str("</data>")), DefaultRoot) == o + (d + c + c) + e;
    AppendAssoc(d, c, c, e);
    assert o + (d + c + c) + e == o + (d + c + c + e);
  }

  lemma EarlyCloseSerialized()
    ensures Serialize(EarlyCloseEvents()) == EarlyCloseTags()
  {
    var es := EarlyCloseEvents();
    assert Serialize(es[4..]) == CloseTag(DefaultRoot) + Serialize([]);
    assert Serialize(es[3..]) == CloseTag(DataName) + Serialize(es[4..]);
    assert Serialize(es[2..]) == CloseTag(DataName) + Serialize(es[3..]);
    assert Serialize(es[1..]) == OpenTag(DataName) + Serialize(es[2..]);
  }

  lemma EarlyCloseText()
    ensures ToXml(Leaf(Str("</data>")), DefaultRoot) == Serialize(EarlyCloseEvents())
  {
    EarlyCloseRendered();
    EarlyCloseSerialized();
  }

  lemma EarlyCloseClean()
    ensures Clean(EarlyCloseEvents())
  {
  }

  lemma EarlyCloseNotNested()
    ensures !WellNested(EarlyCloseEvents())
  {
    var es := EarlyCloseEvents();
    assert !Check(es[3..], [DefaultRoot]);
    assert Check(es[2..], [DataName, DefaultRoot]) == Check(es[3..], [DefaultRoot]);
    assert Check(es[1..], [DefaultRoot]) == Check(es[2..], [DataName, DefaultRoot]);
    assert [DefaultRoot] + [] == [DefaultRoot];
    assert Check(es, []) == Check(es[1..], [DefaultRoot]);
  }

  /** Scalars are written verbatim: a string that itself looks like an end tag
      closes `<data>` early, and the text read back is no longer well nested. */
  lemma UnescapedTextBreaksNesting()
    ensures Lex(ToXml(Leaf(Str("</data>")), DefaultRoot)) == EarlyCloseEvents()
    ensures !WellNested(Lex(ToXml(Leaf(Str("</data>")), DefaultRoot)))
  {
    EarlyCloseText();
    EarlyCloseClean();
    LexSerialize(EarlyCloseEvents());
    EarlyCloseNotNested();
  }
}
