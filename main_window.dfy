/**
 * The pure parts of the main window: the text of the error dialog, the text copied to the
 * clipboard, the serialisation of an exception chain, and the navigation-tag mapping.
 */
module MainWindow {
  import opened Wrappers
  import opened Strings

  /**
   * A .NET exception as far as the window reads it: whether it is a `COMException`, its
   * `Message`, its `StackTrace` (`null` when never thrown) and its `InnerException`.
   */
  datatype Exception = Exception(isCom: bool, message: string, stackTrace: Option<string>, inner: Option<Exception>)

  const WclUnstableText: string := "The WCL is in an unstable state.\n" + "Rebooting the machine will restart the WCL."
  const RpcUnavailable: string := "the rpc server is unavailable"

  /** The `ex?.Message ?? string.Empty` of an optional exception. */
  function MessageOrEmpty(ex: Option<Exception>): string {
    if ex.Some? then ex.value.message else ""
  }

  /** Whether the exception is the COM fault that signals an unstable WCL. */
  predicate IsRpcUnavailable(ex: Option<Exception>, containsIgnoringCase: (string, string) -> bool) {
    ex.Some? && ex.value.isCom && containsIgnoringCase(ex.value.message, RpcUnavailable)
  }

  /**
   * The message `ShowException` puts in its dialog. `containsIgnoringCase` stands for
   * `string.Contains` under the current culture ignoring case.
   */
  function DialogMessage(ex: Option<Exception>, optionalMessage: Option<string>,
                         containsIgnoringCase: (string, string) -> bool): (msg: string)
    ensures optionalMessage.Some? ==> msg == optionalMessage.value
    ensures optionalMessage.None? && IsRpcUnavailable(ex, containsIgnoringCase) ==> msg == WclUnstableText
    ensures optionalMessage.None? && !IsRpcUnavailable(ex, containsIgnoringCase) ==>
              |msg| >= 7 && msg[..7] == "Error:\n" && msg[7..] == MessageOrEmpty(ex)
  {
    if optionalMessage.Some? then optionalMessage.value
    else if IsRpcUnavailable(ex, containsIgnoringCase) then WclUnstableText
    else
      var suffix := match optionalMessage case Some(m) => "\n" + m case None => "";
      "Error:\n" + MessageOrEmpty(ex) + suffix
  }

  /** An optional message hides the exception entirely: the dialog shows the same text for any exception. */
  lemma OptionalMessageWins(ex1: Option<Exception>, ex2: Option<Exception>, message: string,
                            contains: (string, string) -> bool)
    ensures DialogMessage(ex1, Some(message), contains) == DialogMessage(ex2, Some(message), contains) == message
  {
  }

  /** Without an optional message, the error text is never the WCL text. */
  lemma ErrorTextDistinct(ex: Option<Exception>, contains: (string, string) -> bool)
    requires !IsRpcUnavailable(ex, contains)
    ensures DialogMessage(ex, None, contains) != WclUnstableText
  {
    assert DialogMessage(ex, None, contains)[0] != WclUnstableText[0];
  }

  /** Two error texts agree exactly when the exception messages do: the dialog loses nothing. */
  lemma ErrorTextInjective(ex1: Option<Exception>, ex2: Option<Exception>, contains: (string, string) -> bool)
    requires !IsRpcUnavailable(ex1, contains) && !IsRpcUnavailable(ex2, contains)
    ensures DialogMessage(ex1, None, contains) == DialogMessage(ex2, None, contains)
            <==> MessageOrEmpty(ex1) == MessageOrEmpty(ex2)
  {
    var m1, m2 := DialogMessage(ex1, None, contains), DialogMessage(ex2, None, contains);
    if m1 == m2 {
      assert m1[7..] == m2[7..];
    }
  }

  /** The `Message: … StackTrace: …` block of one exception, without its inner part. */
  function Block(ex: Exception): string {
    "Message: " + ex.message + "\nStackTrace: " + (if ex.stackTrace.Some? then ex.stackTrace.value else "") + "\n"
  }

  /**
   * `GetExceptionDetails`: the block of the exception followed, when there is an inner
   * exception, by `Inner Exception:` and the details of the inner one.
   */
  function ExceptionDetails(ex: Exception): (details: string)
    ensures |details| >= |Block(ex)| && details[..|Block(ex)|] == Block(ex)
    ensures ex.inner.None? <==> details == Block(ex)
    decreases ex
  {
    var innerExceptionData := if ex.inner.None? then "" else "Inner Exception:\n" + ExceptionDetails(ex.inner.value);
    Block(ex) + innerExceptionData
  }

  /** The exception followed by its inner exceptions, outermost first. */
  function Chain(ex: Exception): (chain: seq<Exception>)
    ensures |chain| >= 1 && chain[0] == ex
    decreases ex
  {
    if ex.inner.None? then [ex] else [ex] + Chain(ex.inner.value)
  }

  /** A chain links each exception to the next by `InnerException` and ends at one without. */
  lemma {:induction false} ChainLinks(ex: Exception)
    ensures var chain := Chain(ex);
            (forall i :: 0 <= i < |chain| - 1 ==> chain[i].inner == Some(chain[i + 1]))
            && chain[|chain| - 1].inner.None?
    decreases ex
  {
    if ex.inner.Some? {
      var rest := Chain(ex.inner.value);
      ChainLinks(ex.inner.value);
      assert Chain(ex) == [ex] + rest;
      forall i | 1 <= i < |rest| ensures Chain(ex)[i].inner == Some(Chain(ex)[i + 1]) {
        assert Chain(ex)[i] == rest[i - 1];
      }
    }
  }

  /** The blocks of a chain, separated by `Inner Exception:` lines. */
  function JoinBlocks(chain: seq<Exception>): string
    requires |chain| >= 1
  {
    if |chain| == 1 then Block(chain[0]) else Block(chain[0]) + "Inner Exception:\n" + JoinBlocks(chain[1..])
  }

  /** The details hold exactly one block per exception of the chain, outermost first. */
  lemma {:induction false} DetailsOfChain(ex: Exception)
    ensures ExceptionDetails(ex) == JoinBlocks(Chain(ex))
    decreases ex
  {
    if ex.inner.Some? {
      var rest := Chain(ex.inner.value);
      DetailsOfChain(ex.inner.value);
      assert Chain(ex) == [ex] + rest;
      assert ([ex] + rest)[1..] == rest;
    }
  }

  /**
   * `CopyExceptionToClipboard`: the optional message and a newline unless it is null or white
   * space, then the details of the exception when there is one.
   */
  function ClipboardText(ex: Option<Exception>, optionalMessage: Option<string>): (text: string)
    ensures ex.None? && IsNullOrWhiteSpace(optionalMessage) ==> text == ""
    ensures ex.None? && !IsNullOrWhiteSpace(optionalMessage) ==> text == optionalMessage.value + "\n"
    ensures ex.Some? && IsNullOrWhiteSpace(optionalMessage) ==> text == ExceptionDetails(ex.value)
    ensures ex.Some? && !IsNullOrWhiteSpace(optionalMessage) ==>
              text == optionalMessage.value + "\n" + ExceptionDetails(ex.value)
  {
    var exceptionDetails := if IsNullOrWhiteSpace(optionalMessage) then "" else optionalMessage.value + "\n";
    if ex.Some? then exceptionDetails + ExceptionDetails(ex.value) else exceptionDetails
  }

  /** A message of white space only is dropped from the clipboard: the text begins with the first block. */
  lemma BlankMessageDropped(ex: Exception, blank: string)
    requires forall i :: 0 <= i < |blank| ==> IsWhiteSpace(blank[i])
    ensures ClipboardText(Some(ex), Some(blank)) == ClipboardText(Some(ex), None)
    ensures ClipboardText(Some(ex), None)[..|Block(ex)|] == Block(ex)
  {
  }

  /** The two pages the window can show. */
  datatype PageType = TextRecognizerPage | TranslatorPage

  /** A selected navigation item; `tag` is `None` for a missing or non-string `Tag`. */
  datatype ItemContainer = ItemContainer(tag: Option<string>)

  /** The page a selection change navigates to, if any (`NavView_SelectionChanged`). */
  function NavigationTarget(container: Option<ItemContainer>): (r: Option<PageType>)
    ensures r == Some(TextRecognizerPage) <==> container.Some? && container.value.tag == Some("TextRecognizer")
    ensures r == Some(TranslatorPage) <==> container.Some? && container.value.tag == Some("Translator")
    ensures r.None? <==> container.None? || (container.value.tag != Some("TextRecognizer")
                                             && container.value.tag != Some("Translator"))
  {
    if container.None? then None
    else match container.value.tag
      case Some("TextRecognizer") => Some(TextRecognizerPage)
      case Some("Translator") => Some(TranslatorPage)
      case _ => None
  }

  /** The tag of the navigation item for a page. */
  function TagOf(page: PageType): string {
    match page
    case TextRecognizerPage => "TextRecognizer"
    case TranslatorPage => "Translator"
  }

  /** Each page is reached from its own tag, and from no other. */
  lemma TagRoundTrip(page: PageType, tag: string)
    ensures NavigationTarget(Some(ItemContainer(Some(TagOf(page))))) == Some(page)
    ensures NavigationTarget(Some(ItemContainer(Some(tag)))) == Some(page) ==> tag == TagOf(page)
  {
  }

  /** The root frame, seen through the pages it has been navigated to. */
  class Frame {
    var history: seq<PageType>

    constructor ()
      ensures history == []
    {
      history := [];
    }

    method Navigate(page: PageType)
      modifies this
      ensures history == old(history) + [page]
    {
      history := history + [page];
    }
  }

  /** The main window and its root frame. */
  class Window {
    const rootFrame: Frame

    /** The window opens on the text-recognizer page. */
    constructor ()
      ensures fresh(rootFrame) && rootFrame.history == [TextRecognizerPage]
    {
      rootFrame := new Frame();
      new;
      rootFrame.Navigate(TextRecognizerPage);
    }

    /** `NavView_SelectionChanged`: one navigation for a known tag, none otherwise. */
    method NavViewSelectionChanged(container: Option<ItemContainer>)
      modifies rootFrame
      ensures var target := NavigationTarget(container);
              rootFrame.history == old(rootFrame.history) + (if target.Some? then [target.value] else [])
    {
      if container.Some? {
        match container.value.tag {
          case Some("TextRecognizer") =>
            rootFrame.Navigate(TextRecognizerPage);
          case Some("Translator") =>
            rootFrame.Navigate(TranslatorPage);
          case _ =>
        }
      }
    }
  }
}
