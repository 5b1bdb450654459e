/** The JsonViewer component: the document's six state fields and the
    handlers that update them. */
module Controller {
  import opened JsonModel
  import opened TextUtil
  import TreeView

  const EditorTab: string := "editor"
  const ViewerTab: string := "viewer"

  const InvalidJsonFormat: string := "Invalid JSON format"
  const PleaseEnterUrl: string := "Please enter a URL"
  const LoadFailed: string := "Failed to load JSON from URL. Make sure the URL is accessible and returns valid JSON."
  const NotJsonData: string := "URL did not return valid JSON data"
  const PasteFailed: string := "Failed to paste from clipboard"

  /** What the request to the relay endpoint yields: the response body, or a
      failure (the request rejected, a non-OK status, or the body unreadable),
      all of which reach the same catch. */
  datatype RelayResponse = Body(text: string) | Failed

  /** The messages the error slot can hold; "" is no error. */
  predicate KnownError(e: string) {
    e == "" || e == InvalidJsonFormat || e == PleaseEnterUrl || e == LoadFailed
    || e == NotJsonData || e == PasteFailed
  }

  /** What the viewer box holds. */
  datatype ViewerContent =
    | RootNode(node: TreeView.ChildNode)  // <TreeNode name="root" …/>
    | BareText(text: string)              // a falsy number rendered as text by React
    | Empty

  /** `{parsedJson && (<TreeNode name="root" …/>)}`: a truthy value gets a root
      TreeNode; a falsy one is the expression's own value, of which React
      renders the number 0 as the text "0" and null, false and "" as nothing. */
  function ViewerBox(parsed: JsonValue): (content: ViewerContent)
    ensures content.RootNode? ==> content.node == TreeView.ChildNode("root", parsed, 0)
    ensures parsed.IsComposite() ==> content.RootNode?
    ensures parsed == Bool(true) || (parsed.Num? && parsed.text != "0") || (parsed.Str? && parsed.s != "") ==>
              content.RootNode?
    ensures parsed == Num("0") ==> content == BareText("0")
    ensures parsed.Null? || parsed == Bool(false) || parsed == Str("") ==> content == Empty
  {
    if Truthy(parsed) then RootNode(TreeView.ChildNode("root", parsed, 0))
    else if parsed.Num? then BareText(parsed.text)
    else Empty
  }

  class JsonViewer {
    const codec: Codec

    var inputJson: string
    var parsedJson: JsonValue
    var error: string
    var url: string
    var activeTab: string
    var isLoading: bool

    /** The text whose parse produced parsedJson. */
    ghost var parsedFrom: string

    /** parsedJson is null or a value the parser returned, and the error slot
        holds one of the component's messages. */
    ghost predicate Valid()
      reads this
    {
      (parsedJson == Null || codec.parse(parsedFrom) == Some(parsedJson))
      && KnownError(error)
    }

    constructor (codec: Codec)
      ensures Valid() && this.codec == codec
      ensures inputJson == "" && parsedJson == Null && error == "" && url == ""
      ensures activeTab == EditorTab && !isLoading
    {
      this.codec := codec;
      inputJson := "";
      parsedJson := Null;
      error := "";
      url := "";
      activeTab := EditorTab;
      isLoading := false;
      parsedFrom := "";
    }

    /** processJson: on a successful parse, store the value and clear the
        error; otherwise report the format error and drop the old value. */
    method ProcessJson(jsonString: string) returns (ok: bool)
      requires Valid()
      modifies this`parsedJson, this`error, this`parsedFrom
      ensures Valid()
      ensures ok <==> codec.parse(jsonString).Some?
      ensures ok ==> parsedJson == codec.parse(jsonString).value && parsedFrom == jsonString && error == ""
      ensures !ok ==> parsedJson == Null && error == InvalidJsonFormat
      ensures inputJson == old(inputJson) && url == old(url)
      ensures activeTab == old(activeTab) && isLoading == old(isLoading)
    {
      match codec.parse(jsonString)
      case Some(parsed) =>
        parsedJson := parsed;
        parsedFrom := jsonString;
        error := "";
        ok := true;
      case None =>
        error := InvalidJsonFormat;
        parsedJson := Null;
        ok := false;
    }

    /** handleTabChange: switching to the viewer first parses the editor's
        text; any other tab is simply selected. */
    method HandleTabChange(value: string)
      requires Valid()
      modifies this`parsedJson, this`error, this`parsedFrom, this`activeTab
      ensures Valid()
      ensures activeTab == value
      ensures value == ViewerTab && codec.parse(inputJson).Some? ==>
                parsedJson == codec.parse(inputJson).value && parsedFrom == inputJson && error == ""
      ensures value == ViewerTab && codec.parse(inputJson).None? ==>
                parsedJson == Null && error == InvalidJsonFormat
      ensures value != ViewerTab ==> parsedJson == old(parsedJson) && error == old(error)
      ensures inputJson == old(inputJson) && url == old(url) && isLoading == old(isLoading)
    {
      if value == ViewerTab {
        var _ := ProcessJson(inputJson);
      }
      activeTab := value;
    }

    /** The shared body of beautifyJson and uglifyJson: re-serialise the
        editor's text with the given indent, or report the format error. */
    method Reformat(indent: nat)
      requires Valid()
      modifies this`inputJson, this`error
      ensures Valid()
      ensures codec.parse(old(inputJson)).None? ==>
                inputJson == old(inputJson) && error == InvalidJsonFormat
      ensures codec.parse(old(inputJson)).Some? ==>
                inputJson == codec.stringify(codec.parse(old(inputJson)).value, indent) && error == ""
      ensures parsedJson == old(parsedJson) && url == old(url)
      ensures activeTab == old(activeTab) && isLoading == old(isLoading)
    {
      match codec.parse(inputJson)
      case Some(parsed) =>
        inputJson := codec.stringify(parsed, indent);
        error := "";
      case None =>
        error := InvalidJsonFormat;
    }

    /** beautifyJson: JSON.stringify(parsed, null, 2). */
    method BeautifyJson()
      requires Valid()
      modifies this`inputJson, this`error
      ensures Valid()
      ensures codec.parse(old(inputJson)).None? ==>
                inputJson == old(inputJson) && error == InvalidJsonFormat
      ensures codec.parse(old(inputJson)).Some? ==>
                inputJson == codec.stringify(codec.parse(old(inputJson)).value, 2) && error == ""
      ensures parsedJson == old(parsedJson) && url == old(url)
      ensures activeTab == old(activeTab) && isLoading == old(isLoading)
    {
      Reformat(2);
    }

    /** uglifyJson: JSON.stringify(parsed), the compact form. */
    method UglifyJson()
      requires Valid()
      modifies this`inputJson, this`error
      ensures Valid()
      ensures codec.parse(old(inputJson)).None? ==>
                inputJson == old(inputJson) && error == InvalidJsonFormat
      ensures codec.parse(old(inputJson)).Some? ==>
                inputJson == codec.stringify(codec.parse(old(inputJson)).value, 0) && error == ""
      ensures parsedJson == old(parsedJson) && url == old(url)
      ensures activeTab == old(activeTab) && isLoading == old(isLoading)
    {
      Reformat(0);
    }

    /** handlePaste, with the clipboard read given as its result (None when
        the platform refuses). A successful paste leaves the error as it was. */
    method HandlePaste(clipboard: Option<string>)
      requires Valid()
      modifies this`inputJson, this`error
      ensures Valid()
      ensures clipboard.Some? ==> inputJson == clipboard.value && error == old(error)
      ensures clipboard.None? ==> inputJson == old(inputJson) && error == PasteFailed
      ensures parsedJson == old(parsedJson) && url == old(url)
      ensures activeTab == old(activeTab) && isLoading == old(isLoading)
    {
      match clipboard
      case Some(text) =>
        inputJson := text;
      case None =>
        error := PasteFailed;
    }

    /** handleClear: empties the text, the parsed value, the error and the
        URL; the tab and the loading flag stay. */
    method HandleClear()
      requires Valid()
      modifies this`inputJson, this`parsedJson, this`error, this`url
      ensures Valid()
      ensures inputJson == "" && parsedJson == Null && error == "" && url == ""
      ensures activeTab == old(activeTab) && isLoading == old(isLoading)
    {
      inputJson := "";
      parsedJson := Null;
      error := "";
      url := "";
    }

    /** The textarea's onChange: the new text is stored, not parsed. */
    method EditInput(text: string)
      requires Valid()
      modifies this`inputJson
      ensures Valid() && inputJson == text
      ensures parsedJson == old(parsedJson) && error == old(error) && url == old(url)
      ensures activeTab == old(activeTab) && isLoading == old(isLoading)
    {
      inputJson := text;
    }

    /** The URL field's onChange. */
    method EditUrl(text: string)
      requires Valid()
      modifies this`url
      ensures Valid() && url == text
      ensures inputJson == old(inputJson) && parsedJson == old(parsedJson) && error == old(error)
      ensures activeTab == old(activeTab) && isLoading == old(isLoading)
    {
      url := text;
    }

    /** loadFromUrl up to its first await: a blank URL (empty or made only
        of whitespace) is refused with a message and nothing else changes; otherwise loading starts, the error
        is cleared and the trimmed URL is what the relay is asked for. */
    method StartLoad() returns (request: Option<string>)
      requires Valid()
      modifies this`error, this`isLoading
      ensures Valid()
      ensures request.None? <==> AllWhitespace(url)
      ensures request.None? ==> error == PleaseEnterUrl && isLoading == old(isLoading)
      ensures request.Some? ==> request.value == Trim(url) && error == "" && isLoading
      ensures inputJson == old(inputJson) && parsedJson == old(parsedJson)
      ensures url == old(url) && activeTab == old(activeTab)
    {
      var trimmed := Trim(url);
      TrimEmptyIffBlank(url);
      if trimmed == "" {
        error := PleaseEnterUrl;
        request := None;
      } else {
        isLoading := true;
        error := "";
        request := Some(trimmed);
      }
    }

    /** loadFromUrl after the relay has answered: a failed request reports the
        generic message, a body that does not parse reports that it is not
        JSON, and a good body replaces the editor's text and, on the viewer
        tab, is parsed for display. Loading ends on every path. */
    method FinishLoad(response: RelayResponse)
      requires Valid()
      modifies this`inputJson, this`parsedJson, this`error, this`parsedFrom, this`isLoading
      ensures Valid()
      ensures !isLoading
      ensures response.Failed? ==>
                error == LoadFailed && inputJson == old(inputJson) && parsedJson == old(parsedJson)
      ensures response.Body? && codec.parse(response.text).None? ==>
                error == NotJsonData && inputJson == old(inputJson) && parsedJson == old(parsedJson)
      ensures response.Body? && codec.parse(response.text).Some? ==>
                inputJson == response.text
                && (activeTab == ViewerTab ==>
                      parsedJson == codec.parse(response.text).value && parsedFrom == response.text && error == "")
                && (activeTab != ViewerTab ==> parsedJson == old(parsedJson) && error == old(error))
      ensures url == old(url) && activeTab == old(activeTab)
    {
      match response {
        case Failed =>
          error := LoadFailed;
        case Body(text) =>
          match codec.parse(text) {
            case Some(_) =>
              inputJson := text;
              if activeTab == ViewerTab {
                var _ := ProcessJson(text);
              }
            case None =>
              error := NotJsonData;
          }
      }
      isLoading := false;
    }

    /** loadFromUrl as one step, with the relay endpoint given as a function
        of the URL it is sent. Returns the URL sent, None when none was. */
    method LoadFromUrl(relay: string -> RelayResponse) returns (request: Option<string>)
      requires Valid()
      modifies this`inputJson, this`parsedJson, this`error, this`parsedFrom, this`isLoading
      ensures Valid()
      ensures request.None? <==> AllWhitespace(url)
      ensures request.None? ==>
                error == PleaseEnterUrl && isLoading == old(isLoading)
                && inputJson == old(inputJson) && parsedJson == old(parsedJson)
      ensures request.Some? ==> request.value == Trim(url) && !isLoading
      ensures request.Some? && relay(request.value).Failed? ==>
                error == LoadFailed && inputJson == old(inputJson) && parsedJson == old(parsedJson)
      ensures request.Some? && relay(request.value).Body? && codec.parse(relay(request.value).text).None? ==>
                error == NotJsonData && inputJson == old(inputJson) && parsedJson == old(parsedJson)
      ensures request.Some? && relay(request.value).Body? && codec.parse(relay(request.value).text).Some? ==>
                inputJson == relay(request.value).text && error == ""
                && (activeTab == ViewerTab ==> parsedJson == codec.parse(inputJson).value)
                && (activeTab != ViewerTab ==> parsedJson == old(parsedJson))
      ensures url == old(url) && activeTab == old(activeTab)
    {
      request := StartLoad();
      if request.Some? {
        FinishLoad(relay(request.value));
      }
    }
  }
}
