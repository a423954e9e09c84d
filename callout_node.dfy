/** The callout block (`src/components/extensions/CalloutNode.jsx`): an emoji, a type and inline
    text, with a picker that sets the emoji. */
module CalloutNode {
  import opened Common
  import opened EditorDoc

  /** The emojis the picker offers, in order. */
  const Emojis: seq<string> := ["💡", "⚠️", "ℹ️", "✅", "❌", "🔥", "⭐", "📝", "🎯", "💬"]

  const DefaultEmoji := "💡"
  const DefaultType := "info"
  /** The text a callout inserted by `setCallout` starts with. */
  const Placeholder := "Type your callout here..."

  /** The emoji and the type the view shows for a node's attributes. */
  function ShownEmoji(b: Block): (r: string)
    requires b.Callout?
    ensures r != ""
    ensures b.emoji != "" ==> r == b.emoji
  {
    OrText(Some(b.emoji), DefaultEmoji)
  }

  function ShownType(b: Block): (r: string)
    requires b.Callout?
    ensures r != ""
    ensures b.calloutType != "" ==> r == b.calloutType
  {
    OrText(Some(b.calloutType), DefaultType)
  }

  /** The picker offers ten distinct, non-empty emojis, the default first. */
  lemma {:induction false} EmojisWellFormed()
    ensures |Emojis| == 10 && Emojis[0] == DefaultEmoji
    ensures forall i :: 0 <= i < |Emojis| ==> Emojis[i] != ""
    ensures forall i, j :: 0 <= i < j < |Emojis| ==> Emojis[i] != Emojis[j]
  {
  }

  /** The callout `setCallout(attributes)` inserts: an absent attribute takes its default. */
  function NewCallout(emoji: Option<string>, calloutType: Option<string>): (b: Block)
    ensures b.Callout? && b.text == Placeholder
    ensures b.emoji == emoji.GetOr(DefaultEmoji) && b.calloutType == calloutType.GetOr(DefaultType)
  {
    Callout(emoji.GetOr(DefaultEmoji), calloutType.GetOr(DefaultType), Placeholder)
  }

  /** A callout inserted without attributes shows the default emoji and type. */
  lemma {:induction false} NewCalloutShowsDefaults()
    ensures ShownEmoji(NewCallout(None, None)) == DefaultEmoji
    ensures ShownType(NewCallout(None, None)) == DefaultType
  {
  }

  /** `setCallout`: one callout goes in at the selection and nothing else changes. */
  method SetCallout(editor: Editor, emoji: Option<string>, calloutType: Option<string>)
    modifies editor
    requires editor.Valid()
    ensures editor.Valid()
    ensures editor.doc == old(editor.doc)[..old(editor.cursor)] + [NewCallout(emoji, calloutType)]
                          + old(editor.doc)[old(editor.cursor)..]
  {
    editor.InsertContent([NewCallout(emoji, calloutType)]);
  }

  /** The parse rule `div[data-type="callout"]` and the marker the node renders with. */
  const ParseRule := Rule("div", Some("data-type"), Some("callout"))
  const Marker: map<string, string> := map["data-type" := "callout"]

  function Render(attrs: map<string, string>): (e: Element)
    ensures e.tag == "div" && "data-type" in e.attrs && e.attrs["data-type"] == "callout"
  {
    RenderWith("div", attrs, Marker)
  }

  /** Every rendering parses back as a callout, even if the node carried a `data-type` of its own. */
  lemma {:induction false} RenderParses(attrs: map<string, string>)
    ensures Matches(ParseRule, Render(attrs))
  {
    RenderedMatches(ParseRule, attrs, Marker);
  }

  /** The view's own state: whether the picker is open. */
  class CalloutView {
    var showEmojiPicker: bool

    constructor ()
      ensures !showEmojiPicker
    {
      showEmojiPicker := false;
    }

    /** The emoji button shows or hides the picker. */
    method TogglePicker()
      modifies this
      ensures showEmojiPicker == !old(showEmojiPicker)
    {
      showEmojiPicker := !showEmojiPicker;
    }

    /** Picking one of the offered emojis sets the node's emoji and closes the picker. */
    method HandleEmojiClick(editor: Editor, pos: nat, emoji: string)
      modifies this, editor
      requires showEmojiPicker && emoji in Emojis
      requires editor.Valid() && pos < |editor.doc| && editor.doc[pos].Callout?
      ensures !showEmojiPicker && editor.Valid()
      ensures editor.doc == old(editor.doc)[pos := old(editor.doc)[pos].(emoji := emoji)]
      ensures ShownEmoji(editor.doc[pos]) == emoji
    {
      EmojisWellFormed();
      editor.SetBlock(pos, editor.doc[pos].(emoji := emoji));
      showEmojiPicker := false;
    }
  }
}
