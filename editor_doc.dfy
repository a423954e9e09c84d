/** The part of the rich-text editor the custom nodes of `src/components/extensions/` touch: a
    document as a list of top-level blocks, the editor that holds it, and the HTML element a
    node renders to. A position is the index of a top-level block, and an atomic node occupies
    one position. */
module EditorDoc {
  import opened Common

  /** The blocks the custom nodes make; `Other` stands for every block of other types. */
  datatype Block =
    | AiPrompt(onSubmit: Option<string>)
    | Callout(emoji: string, calloutType: string, text: string)
    | Toggle(open: bool, children: seq<Block>)
    | Image(width: Option<string>)
    | Paragraph(text: string)
    | Other(name: string)

  /** The node size of an atom, the only kind of node deleted by position here. */
  const AtomSize := 1

  /** The document with the `size` positions from `from` removed and `content` put there. */
  function Splice(doc: seq<Block>, from: nat, size: nat, content: seq<Block>): (r: seq<Block>)
    requires from + size <= |doc|
    ensures |r| == |doc| - size + |content|
    ensures r[..from] == doc[..from]
    ensures r[from..from + |content|] == content
    ensures r[from + |content|..] == doc[from + size..]
  {
    doc[..from] + content + doc[from + size..]
  }

  /** Deleting an atom and putting it back gives the document back. */
  lemma {:induction false} SpliceRestores(doc: seq<Block>, pos: nat)
    requires pos < |doc|
    ensures Splice(Splice(doc, pos, AtomSize, []), pos, 0, [doc[pos]]) == doc
  {
    var removed := Splice(doc, pos, AtomSize, []);
    assert removed == doc[..pos] + doc[pos + 1..];
    assert removed[..pos] == doc[..pos] && removed[pos..] == doc[pos + 1..];
    assert doc == doc[..pos] + [doc[pos]] + doc[pos + 1..];
  }

  /** The editor: its document and the selection's position. */
  class Editor {
    var doc: seq<Block>
    var cursor: nat

    predicate Valid()
      reads this
    {
      cursor <= |doc|
    }

    constructor (doc0: seq<Block>, cursor0: nat)
      requires cursor0 <= |doc0|
      ensures Valid() && doc == doc0 && cursor == cursor0
    {
      doc := doc0;
      cursor := cursor0;
    }

    /** `deleteRange({ from, to: from + size })` then `insertContentAt(from, content)`. */
    method ReplaceRange(from: nat, size: nat, content: seq<Block>)
      modifies this
      requires Valid() && from + size <= |doc|
      ensures Valid() && doc == Splice(old(doc), from, size, content) && cursor == from + |content|
    {
      doc := Splice(doc, from, size, content);
      cursor := from + |content|;
    }

    /** `insertContent(content)` at the selection. */
    method InsertContent(content: seq<Block>)
      modifies this
      requires Valid()
      ensures Valid() && doc == Splice(old(doc), old(cursor), 0, content) && cursor == old(cursor) + |content|
    {
      doc := Splice(doc, cursor, 0, content);
      cursor := cursor + |content|;
    }

    /** A node view's `updateAttributes`: the block at `pos` replaced by the updated one. */
    method SetBlock(pos: nat, b: Block)
      modifies this
      requires Valid() && pos < |doc|
      ensures Valid() && doc == old(doc)[pos := b] && cursor == old(cursor)
    {
      doc := doc[pos := b];
    }
  }

  /** An HTML element as a node renders it, or as a parse rule sees it. */
  datatype Element = Element(tag: string, attrs: map<string, string>)

  /** `mergeAttributes(a, b)` for attributes other than `class` and `style`: a key of `b` wins. */
  function MergeAttributes(a: map<string, string>, b: map<string, string>): (r: map<string, string>)
    ensures r.Keys == a.Keys + b.Keys
    ensures forall k :: k in b ==> r[k] == b[k]
    ensures forall k :: k in a && k !in b ==> r[k] == a[k]
  {
    a + b
  }

  /** A parse rule: a tag, and optionally an attribute the element must have, with a value it
      must equal when one is given (`div[data-ai-prompt]`, `div[data-type="callout"]`). */
  datatype Rule = Rule(tag: string, attr: Option<string>, value: Option<string>)

  predicate Matches(rule: Rule, e: Element)
  {
    && e.tag == rule.tag
    && (rule.attr.Some? ==> (rule.attr.value in e.attrs
                           && (rule.value.Some? ==> e.attrs[rule.attr.value] == rule.value.value)))
  }

  /** The element a node renders: `tag` with the node's HTML attributes merged with `marker`. */
  function RenderWith(tag: string, attrs: map<string, string>, marker: map<string, string>): (e: Element)
    ensures e.tag == tag && marker.Keys <= e.attrs.Keys
    ensures forall k :: k in marker ==> e.attrs[k] == marker[k]
  {
    Element(tag, MergeAttributes(attrs, marker))
  }

  /** A rendering whose marker satisfies a rule parses back under that rule, whatever attributes
      the node carried, including ones that clash with the marker. */
  lemma {:induction false} RenderedMatches(rule: Rule, attrs: map<string, string>, marker: map<string, string>)
    requires rule.attr.Some? ==> (rule.attr.value in marker
                                  && (rule.value.Some? ==> marker[rule.attr.value] == rule.value.value))
    ensures Matches(rule, RenderWith(rule.tag, attrs, marker))
  {
    var e := RenderWith(rule.tag, attrs, marker);
    if rule.attr.Some? {
      assert rule.attr.value in e.attrs;
    }
  }
}
