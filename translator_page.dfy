/**
 * The translator page: the character counter under the input box, the guards before a
 * translation starts, the prompts a translation sends, and the reset when it is cancelled.
 */
module Pages {
  import opened Wrappers
  import opened Strings

  datatype Visibility = Visible | Collapsed

  /** The selected item of the language box: a language name, or an item of another type. */
  datatype LanguageItem = Language(name: string) | OtherItem

  /** The two chat messages a translation sends to the language model. */
  datatype PromptRequest = PromptRequest(systemPrompt: string, userPrompt: string)

  const DefaultMaxLength: nat := 10000

  const SystemPrompt: string :=
    "You translate user provided text. Do not reply with any extraneous content besides the translated text itself."

  const UserPromptHead: string := "Translate the following text to "

  /** The user prompt of a translation into `language`. */
  function UserPrompt(language: string, text: string): string {
    UserPromptHead + language + ": '" + text + "'"
  }

  const MaxReachedSuffix: string := ". Max characters reached."

  /** The counter shown under the input box for a non-empty input of `n` characters. */
  function CounterText(n: nat): string {
    NatToString(n) + " of " + NatToString(DefaultMaxLength) + (if n >= DefaultMaxLength then MaxReachedSuffix else "")
  }

  /** The counter starts with the input length in decimal, which reads back as that length. */
  lemma CounterReadsBack(n: nat)
    ensures LeadingDigits(CounterText(n)) == NatToString(n)
    ensures DigitsValue(LeadingDigits(CounterText(n))) == n
  {
    var rest := CounterSplit(n);
    LeadingDigitsOfConcat(NatToString(n), rest);
    NatToStringRoundTrip(n);
  }

  /** The counter is the length in decimal followed by text that starts with a space. */
  lemma CounterSplit(n: nat) returns (rest: string)
    ensures CounterText(n) == NatToString(n) + rest && rest != [] && rest[0] == ' '
  {
    var d, tail := NatToString(n), NatToString(DefaultMaxLength) + (if n >= DefaultMaxLength then MaxReachedSuffix else "");
    rest := " of " + tail;
    assert CounterText(n) == d + " of " + tail == d + rest;
  }

  /** The limit is shown as `10000`. */
  lemma MaxLengthText()
    ensures NatToString(DefaultMaxLength) == "10000"
  {
    assert NatToString(1) == "1";
    assert NatToString(10) == "10";
    assert NatToString(100) == "100";
    assert NatToString(1000) == "1000";
  }

  /** The limit warning ends the counter exactly from the limit on. */
  lemma CounterWarnsAtLimit(n: nat)
    ensures n >= DefaultMaxLength <==> |CounterText(n)| == |NatToString(n)| + 9 + |MaxReachedSuffix|
    ensures var c := CounterText(n);
            n >= DefaultMaxLength <==> |c| >= |MaxReachedSuffix| && c[|c| - |MaxReachedSuffix|..] == MaxReachedSuffix
  {
    MaxLengthText();
    var c := CounterText(n);
    if n >= DefaultMaxLength {
      assert c == (NatToString(n) + " of " + NatToString(DefaultMaxLength)) + MaxReachedSuffix;
    } else {
      assert c == NatToString(n) + " of " + "10000";
      assert c[|c| - 1] == '0';
    }
  }

  /**
   * The prompt ends with the text in single quotes, after the language: from the prompt and
   * the language, the text is recovered.
   */
  lemma UserPromptRecoversText(language: string, text: string)
    ensures var p := UserPrompt(language, text);
            var start := |UserPromptHead| + |language| + 3;
            |p| == start + |text| + 1 && p[start..|p| - 1] == text && p[..|UserPromptHead|] == UserPromptHead
            && p[start - 1] == '\'' && p[|p| - 1] == '\''
  {
    var p := UserPrompt(language, text);
    var start := |UserPromptHead| + |language| + 3;
    assert p == (UserPromptHead + language + ": '") + text + "'";
    assert p[start..|p| - 1] == text;
    assert p == UserPromptHead + (language + ": '" + text + "'");
  }

  /** Prompts for languages of the same length coincide only for the same language and text. */
  lemma UserPromptInjective(l1: string, t1: string, l2: string, t2: string)
    requires |l1| == |l2|
    requires UserPrompt(l1, t1) == UserPrompt(l2, t2)
    ensures l1 == l2 && t1 == t2
  {
    UserPromptRecoversText(l1, t1);
    UserPromptRecoversText(l2, t2);
    var p := UserPrompt(l1, t1);
    assert p == UserPromptHead + l1 + (": '" + t1 + "'");
    assert p == UserPromptHead + l2 + (": '" + t2 + "'");
    assert l1 == p[|UserPromptHead|..|UserPromptHead| + |l1|];
    assert l2 == p[|UserPromptHead|..|UserPromptHead| + |l2|];
  }

  /** The page's controls and fields, as the handlers below read and set them. */
  class TranslatorPage {
    /** `InputTextBox.Text` and `InputTextBox.Description`. */
    var inputText: string
    var description: string
    /** `TranslateButton.IsEnabled` and `TranslateButton.Visibility`. */
    var translateEnabled: bool
    var translateVisibility: Visibility
    /** `StopBtn.Visibility`. */
    var stopVisibility: Visibility
    /** The `isProgressVisible` field behind `IsProgressVisible`. */
    var isProgressVisible: bool
    /** Whether `cts` holds a `CancellationTokenSource`. */
    var hasTokenSource: bool
    /** Whether `chatClient` is set. */
    var hasChatClient: bool
    /** `LanguageBox.SelectedItem`. */
    var selectedItem: Option<LanguageItem>
    /** `TranslatedTextBlock.Text`. */
    var translatedText: string
    /** The translations started, each with the prompts it sends. */
    var requests: seq<PromptRequest>

    /**
     * A loaded page. The button states come from the page's markup and are parameters; the
     * text controls start empty; `cts` is `null` and `isProgressVisible` false, as C# fields
     * start.
     */
    constructor (hasChatClient: bool, selectedItem: Option<LanguageItem>,
                 translateEnabled: bool, translateVisibility: Visibility, stopVisibility: Visibility)
      ensures inputText == "" && description == "" && translatedText == "" && requests == []
      ensures this.translateEnabled == translateEnabled && this.translateVisibility == translateVisibility
      ensures this.stopVisibility == stopVisibility
      ensures !isProgressVisible && !hasTokenSource
      ensures this.hasChatClient == hasChatClient && this.selectedItem == selectedItem
    {
      inputText := "";
      description := "";
      this.translateEnabled := translateEnabled;
      this.translateVisibility := translateVisibility;
      this.stopVisibility := stopVisibility;
      isProgressVisible := false;
      hasTokenSource := false;
      this.hasChatClient := hasChatClient;
      this.selectedItem := selectedItem;
      translatedText := "";
      requests := [];
    }

    /** The user edits the input box. */
    method SetInput(text: string)
      modifies this
      ensures inputText == text
      ensures description == old(description) && translateEnabled == old(translateEnabled)
      ensures translateVisibility == old(translateVisibility) && stopVisibility == old(stopVisibility)
      ensures isProgressVisible == old(isProgressVisible) && hasTokenSource == old(hasTokenSource)
      ensures hasChatClient == old(hasChatClient) && selectedItem == old(selectedItem)
      ensures translatedText == old(translatedText) && requests == old(requests)
    {
      inputText := text;
    }

    /**
     * `InputBox_Changed`: a non-empty input shows the counter and enables the button up to
     * the limit; an empty one clears the counter and shows the button, leaving it as
     * enabled or disabled as it was.
     */
    method InputBoxChanged()
      modifies this
      ensures Utf16Length(inputText) > 0 ==>
                description == CounterText(Utf16Length(inputText))
                && translateEnabled == (Utf16Length(inputText) <= DefaultMaxLength)
                && translateVisibility == old(translateVisibility)
      ensures Utf16Length(inputText) == 0 ==>
                description == "" && translateEnabled == old(translateEnabled) && translateVisibility == Visible
      ensures inputText == old(inputText) && stopVisibility == old(stopVisibility)
      ensures isProgressVisible == old(isProgressVisible) && hasTokenSource == old(hasTokenSource)
      ensures hasChatClient == old(hasChatClient) && selectedItem == old(selectedItem)
      ensures translatedText == old(translatedText) && requests == old(requests)
    {
      var inputLength := Utf16Length(inputText);
      if inputLength > 0 {
        if inputLength >= DefaultMaxLength {
          description := NatToString(inputLength) + " of " + NatToString(DefaultMaxLength) + MaxReachedSuffix;
        } else {
          description := NatToString(inputLength) + " of " + NatToString(DefaultMaxLength);
          assert description == description + "";
        }
        translateEnabled := inputLength <= DefaultMaxLength;
      } else {
        description := "";
        translateVisibility := Visible;
      }
    }

    /**
     * `TranslateText`: nothing without a chat client or a selected language; for a language
     * name, the output is cleared and a translation is started with its two prompts.
     */
    method TranslateText(text: string)
      modifies this
      ensures var starts := hasChatClient && selectedItem.Some? && selectedItem.value.Language?;
              (starts ==> translatedText == ""
                          && requests == old(requests) + [PromptRequest(SystemPrompt, UserPrompt(selectedItem.value.name, text))])
              && (!starts ==> translatedText == old(translatedText) && requests == old(requests))
      ensures inputText == old(inputText) && description == old(description)
      ensures translateEnabled == old(translateEnabled) && translateVisibility == old(translateVisibility)
      ensures stopVisibility == old(stopVisibility) && isProgressVisible == old(isProgressVisible)
      ensures hasTokenSource == old(hasTokenSource)
      ensures hasChatClient == old(hasChatClient) && selectedItem == old(selectedItem)
    {
      if !hasChatClient || selectedItem.None? {
        return;
      }
      if selectedItem.value.Language? {
        var language := selectedItem.value.name;
        translatedText := "";
        requests := requests + [PromptRequest(SystemPrompt, UserPrompt(language, text))];
      }
    }

    /**
     * `TranslateButton_Click`: with a non-empty input, hide the button, show progress and the
     * stop button, and translate the input; with an empty one, change nothing.
     */
    method TranslateButtonClick()
      modifies this
      ensures Utf16Length(old(inputText)) == 0 ==>
                translateVisibility == old(translateVisibility) && stopVisibility == old(stopVisibility)
                && isProgressVisible == old(isProgressVisible)
                && translatedText == old(translatedText) && requests == old(requests)
      ensures Utf16Length(old(inputText)) > 0 ==>
                translateVisibility == Collapsed && stopVisibility == Visible && isProgressVisible
                && var starts := hasChatClient && selectedItem.Some? && selectedItem.value.Language?;
                   (starts ==> translatedText == ""
                               && requests == old(requests) + [PromptRequest(SystemPrompt, UserPrompt(selectedItem.value.name, inputText))])
                   && (!starts ==> translatedText == old(translatedText) && requests == old(requests))
      ensures inputText == old(inputText) && description == old(description)
      ensures translateEnabled == old(translateEnabled) && hasTokenSource == old(hasTokenSource)
      ensures hasChatClient == old(hasChatClient) && selectedItem == old(selectedItem)
    {
      if Utf16Length(inputText) > 0 {
        translateVisibility := Collapsed;
        isProgressVisible := true;
        stopVisibility := Visible;
        TranslateText(inputText);
      }
    }

    /** `CancelTranslation`: back to the idle controls, with the token source cancelled and dropped. */
    method CancelTranslation()
      modifies this
      ensures stopVisibility == Collapsed && !isProgressVisible && translateVisibility == Visible && !hasTokenSource
      ensures inputText == old(inputText) && description == old(description)
      ensures translateEnabled == old(translateEnabled)
      ensures hasChatClient == old(hasChatClient) && selectedItem == old(selectedItem)
      ensures translatedText == old(translatedText) && requests == old(requests)
    {
      stopVisibility := Collapsed;
      isProgressVisible := false;
      translateVisibility := Visible;
      hasTokenSource := false;
    }
  }

  /**
   * Typing `text` into a loaded page, clicking and cancelling. The counter reads back the
   * UTF-16 length, the button is enabled exactly up to the limit, and the click, issued
   * whether or not the button is enabled, starts one translation exactly when the text is
   * non-empty; cancelling leaves the page idle.
   */
  method TypeTranslateCancel(text: string, language: string) returns (page: TranslatorPage)
    ensures |text| > 0 ==> DigitsValue(LeadingDigits(page.description)) == Utf16Length(text)
                           && page.translateEnabled == (Utf16Length(text) <= DefaultMaxLength)
    ensures |text| == 0 ==> page.description == "" && page.requests == []
    ensures |text| > 0 ==> page.requests == [PromptRequest(SystemPrompt, UserPrompt(language, text))]
    ensures page.stopVisibility == Collapsed && page.translateVisibility == Visible && !page.isProgressVisible
  {
    page := new TranslatorPage(true, Some(Language(language)), true, Visible, Collapsed);
    page.SetInput(text);
    page.InputBoxChanged();
    page.TranslateButtonClick();
    page.CancelTranslation();
    if |text| > 0 {
      CounterReadsBack(Utf16Length(text));
    }
  }

  /** One character outside the Basic Multilingual Plane is counted as two, as `Text.Length` does. */
  lemma SupplementaryCountsTwice(c: char)
    requires IsSupplementary(c)
    ensures Utf16Length([c]) == 2
    ensures CounterText(Utf16Length([c])) == "2 of 10000"
  {
    assert [c][..0] == [];
    MaxLengthText();
  }

  /** 5000 such characters already reach the limit, and 5001 disable the button. */
  lemma SupplementaryReachLimit(s: string)
    requires |s| >= 5000 && forall i :: 0 <= i < |s| ==> IsSupplementary(s[i])
    ensures Utf16Length(s) == 2 * |s| && Utf16Length(s) >= DefaultMaxLength
    ensures |s| > 5000 ==> Utf16Length(s) > DefaultMaxLength
  {
    AllSupplementaryDoubles(s);
  }

  lemma {:induction false} AllSupplementaryDoubles(s: string)
    requires forall i :: 0 <= i < |s| ==> IsSupplementary(s[i])
    ensures Utf16Length(s) == 2 * |s|
  {
    if s != [] {
      var n := |s| - 1;
      assert forall i :: 0 <= i < n ==> s[..n][i] == s[i];
      AllSupplementaryDoubles(s[..n]);
    }
  }
}
