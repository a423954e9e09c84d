/** The toggle block (`src/components/extensions/ToggleNode.jsx`): a wrapper around one or more
    blocks with an `open` attribute that its button flips. While it is closed only the first
    child block, which serves as its heading, is shown. */
module ToggleNode {
  import opened Common
  import opened EditorDoc

  const DefaultOpen := true

  /** The content expression `block+`, at every depth: a toggle holds at least one block. */
  predicate WellFormed(b: Block)
    decreases b
  {
    match b
    case Toggle(_, children) =>
      |children| > 0 && forall i :: 0 <= i < |children| ==> WellFormed(children[i])
    case _ => true
  }

  /** A toggle made around `children`, open by default. */
  function NewToggle(children: seq<Block>): (b: Block)
    requires |children| > 0 && forall i :: 0 <= i < |children| ==> WellFormed(children[i])
    ensures b.Toggle? && b.open == DefaultOpen && b.children == children && WellFormed(b)
  {
    Toggle(DefaultOpen, children)
  }

  /** The button's update: `open` becomes its negation and the children stay. */
  function Flip(b: Block): (r: Block)
    requires b.Toggle?
    ensures r.Toggle? && r.open == !b.open && r.children == b.children
  {
    b.(open := !b.open)
  }

  /** Two clicks give back the toggle, and a click keeps it well formed. */
  lemma {:induction false} FlipTwice(b: Block)
    requires b.Toggle?
    ensures Flip(Flip(b)) == b
    ensures WellFormed(Flip(b)) <==> WellFormed(b)
  {
  }

  /** The button: the toggle at `pos` flips and every other block stays. */
  method HandleToggle(editor: Editor, pos: nat)
    modifies editor
    requires editor.Valid() && pos < |editor.doc| && editor.doc[pos].Toggle?
    ensures editor.Valid() && editor.doc == old(editor.doc)[pos := Flip(old(editor.doc)[pos])]
    ensures editor.doc[pos].open == !old(editor.doc)[pos].open
  {
    editor.SetBlock(pos, Flip(editor.doc[pos]));
  }

  /** The class names the view's wrapper carries. */
  function WrapperClasses(open: bool): (r: seq<string>)
    ensures "toggle-wrapper" in r
    ensures "is-open" in r <==> open
    ensures "open" !in r
  {
    ["toggle-wrapper"] + (if open then ["is-open"] else [])
  }

  /** Whether child `i` of a toggle is hidden: a later child of a wrapper without `is-open`. */
  predicate ChildHidden(classes: seq<string>, i: nat)
  {
    i > 0 && "is-open" !in classes
  }

  /** The visibility policy: the first child always shows, and a later one is hidden exactly when
      the toggle is closed. */
  lemma {:induction false} VisibilityPolicy(open: bool, i: nat)
    ensures !ChildHidden(WrapperClasses(open), 0)
    ensures i > 0 ==> (ChildHidden(WrapperClasses(open), i) <==> !open)
  {
    var classes := WrapperClasses(open);
    if open {
      assert classes[1] == "is-open";
    }
  }

  /** The policy as the source's stylesheet note writes it, keyed on an `open` class. */
  predicate ChildHiddenAsDocumented(classes: seq<string>, i: nat)
  {
    i > 0 && "open" !in classes
  }

  /** The wrapper never has an `open` class, so the documented rule hides the later children of
      an open toggle too. */
  lemma {:induction false} DocumentedRuleHidesOpenToggle()
    ensures ChildHiddenAsDocumented(WrapperClasses(true), 1)
    ensures !ChildHidden(WrapperClasses(true), 1)
  {
    var classes := WrapperClasses(true);
    assert classes[1] == "is-open";
  }

  /** The parse rule `details`, and rendering, which adds no marker. */
  const ParseRule := Rule("details", None, None)

  function Render(attrs: map<string, string>): (e: Element)
    ensures e.tag == "details" && e.attrs == attrs
  {
    RenderWith("details", attrs, map[])
  }

  lemma {:induction false} RenderParses(attrs: map<string, string>)
    ensures Matches(ParseRule, Render(attrs))
  {
    RenderedMatches(ParseRule, attrs, map[]);
  }
}
