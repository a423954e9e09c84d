/** The inline AI prompt block (`src/components/extensions/AiPromptNode.jsx`): an atomic node whose
    view holds the prompt being typed, a loading flag and an error, and which replaces itself in
    the document with the response of a named handler. */
module AiPromptNode {
  import opened Common
  import opened Text
  import opened EditorDoc

  /** The node as inserted without attributes: `onSubmit` defaults to null. */
  const DefaultNode: Block := AiPrompt(None)

  /** The parse rule `div[data-ai-prompt]` and the marker attribute the node renders with. */
  const ParseRule := Rule("div", Some("data-ai-prompt"), None)
  const Marker: map<string, string> := map["data-ai-prompt" := ""]

  function Render(attrs: map<string, string>): (e: Element)
    ensures e.tag == "div" && "data-ai-prompt" in e.attrs
  {
    RenderWith("div", attrs, Marker)
  }

  /** Every rendering of the node parses back as the node. */
  lemma {:induction false} RenderParses(attrs: map<string, string>)
    ensures Matches(ParseRule, Render(attrs))
  {
    RenderedMatches(ParseRule, attrs, Marker);
  }

  /** Submitting does nothing while the trimmed prompt is empty or a request is running; the send
      button is disabled in exactly these cases. */
  predicate Blocked(prompt: string, loading: bool)
  {
    Trim(prompt) == [] || loading
  }

  /** Whether `onSubmit` names a function the page defines (`handlers` are the names it defines). */
  predicate HandlerFound(onSubmit: Option<string>, handlers: set<string>)
  {
    onSubmit.Some? && onSubmit.value != "" && onSubmit.value in handlers
  }

  /** What a key press in the prompt does. */
  datatype KeyAction = Submit | Remove | Ignore

  function KeyEffect(key: string, shift: bool): (r: KeyAction)
    ensures r == Submit <==> key == "Enter" && !shift
    ensures r == Remove <==> key == "Escape"
  {
    if key == "Enter" && !shift then Submit
    else if key == "Escape" then Remove
    else Ignore
  }

  /** The error the corrected submit reports when no handler answers. */
  const NoHandlerMessage := "No AI handler is available"

  class PromptView {
    var prompt: string
    var loading: bool
    var error: Option<string>

    constructor ()
      ensures prompt == "" && !loading && error.None?
    {
      prompt := "";
      loading := false;
      error := None;
    }

    /** Typing, which the input accepts only while no request is running. */
    method EditPrompt(text: string)
      modifies this
      requires !loading
      ensures prompt == text && !loading && error == old(error)
    {
      prompt := text;
    }

    /** Submit as written: past the guard it starts loading and clears the error, and it calls out
        only when the handler exists; otherwise nothing else happens and loading never ends. */
    method HandleSubmitAsWritten(onSubmit: Option<string>, handlers: set<string>) returns (calls: bool)
      modifies this
      ensures prompt == old(prompt)
      ensures Blocked(old(prompt), old(loading)) ==> !calls && loading == old(loading) && error == old(error)
      ensures !Blocked(old(prompt), old(loading)) ==>
                loading && error.None? && (calls <==> HandlerFound(onSubmit, handlers))
    {
      if Blocked(prompt, loading) {
        return false;
      }
      loading := true;
      error := None;
      calls := HandlerFound(onSubmit, handlers);
    }

    /** Submit as intended: a missing handler ends the request with an error, as a failed one does. */
    method HandleSubmit(onSubmit: Option<string>, handlers: set<string>) returns (calls: bool)
      modifies this
      ensures prompt == old(prompt)
      ensures Blocked(old(prompt), old(loading)) ==> !calls && loading == old(loading) && error == old(error)
      ensures !Blocked(old(prompt), old(loading)) ==> (calls <==> HandlerFound(onSubmit, handlers))
      ensures !Blocked(old(prompt), old(loading)) && calls ==> loading && error.None?
      ensures !Blocked(old(prompt), old(loading)) && !calls ==> !loading && error == Some(NoHandlerMessage)
    {
      var blocked := Blocked(prompt, loading);
      calls := HandleSubmitAsWritten(onSubmit, handlers);
      if !blocked && !calls {
        FinishFailure(NoHandlerMessage);
      }
    }

    /** The handler answered: the node at `pos`, one position wide, is replaced by the response
        and the rest of the document is kept. */
    method FinishSuccess(editor: Editor, pos: nat, response: seq<Block>)
      modifies editor
      requires loading && editor.Valid() && pos < |editor.doc| && editor.doc[pos].AiPrompt?
      ensures editor.Valid() && editor.doc == Splice(old(editor.doc), pos, AtomSize, response)
      ensures editor.doc[..pos] == old(editor.doc)[..pos]
      ensures editor.doc[pos..pos + |response|] == response
      ensures editor.doc[pos + |response|..] == old(editor.doc)[pos + 1..]
    {
      editor.ReplaceRange(pos, AtomSize, response);
    }

    /** The handler failed: the node stays and shows the message. */
    method FinishFailure(message: string)
      modifies this
      ensures prompt == old(prompt) && !loading && error == Some(message)
    {
      error := Some(message);
      loading := false;
    }

    /** Cancel deletes the node and nothing else. */
    method HandleCancel(editor: Editor, pos: nat)
      modifies editor
      requires editor.Valid() && pos < |editor.doc| && editor.doc[pos].AiPrompt?
      ensures editor.Valid() && editor.doc == old(editor.doc)[..pos] + old(editor.doc)[pos + 1..]
    {
      editor.ReplaceRange(pos, AtomSize, []);
    }

    /** A key press: Enter without Shift submits (as written), Escape deletes the node, and any
        other key changes nothing. */
    method HandleKeyDown(key: string, shift: bool, onSubmit: Option<string>, handlers: set<string>,
                         editor: Editor, pos: nat) returns (calls: bool)
      modifies this, editor
      requires editor.Valid() && pos < |editor.doc| && editor.doc[pos].AiPrompt?
      ensures editor.Valid() && prompt == old(prompt)
      ensures calls <==> key == "Enter" && !shift && !Blocked(old(prompt), old(loading)) && HandlerFound(onSubmit, handlers)
      ensures key == "Enter" && !shift && !Blocked(old(prompt), old(loading)) ==> loading && error.None?
      ensures KeyEffect(key, shift) == Remove ==> editor.doc == old(editor.doc)[..pos] + old(editor.doc)[pos + 1..]
      ensures KeyEffect(key, shift) != Remove ==> editor.doc == old(editor.doc)
      ensures KeyEffect(key, shift) != Submit || Blocked(old(prompt), old(loading)) ==> loading == old(loading) && error == old(error)
    {
      calls := false;
      match KeyEffect(key, shift) {
        case Submit =>
          calls := HandleSubmitAsWritten(onSubmit, handlers);
        case Remove =>
          HandleCancel(editor, pos);
        case Ignore =>
      }
    }
  }

  /** Any non-blank prompt submitted to a node inserted without a handler, as written: the view is
      left loading with no error, so its input and send button stay disabled. */
  method MissingHandlerAsWritten(prompt: string) returns (loading: bool, error: Option<string>)
    requires Trim(prompt) != []
    ensures loading && error.None?
  {
    var v := new PromptView();
    v.EditPrompt(prompt);
    var calls := v.HandleSubmitAsWritten(DefaultNode.onSubmit, {});
    loading, error := v.loading, v.error;
  }

  /** The same, as intended: the request ends with an error and the input is usable again. */
  method MissingHandler(prompt: string) returns (loading: bool, error: Option<string>)
    requires Trim(prompt) != []
    ensures !loading && error == Some(NoHandlerMessage)
  {
    var v := new PromptView();
    v.EditPrompt(prompt);
    var calls := v.HandleSubmit(DefaultNode.onSubmit, {});
    loading, error := v.loading, v.error;
  }
}
