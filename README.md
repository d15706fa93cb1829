# OCR and Translator sample: execution providers, error texts and the translator page

This project is a Dafny model of the logic at the centre of a WinUI sample application. The application does text recognition and translation with an on-device language model.

The model covers three parts:

- **`Util/WinMLHelpers.cs`** connects an ONNX Runtime session to hardware.
  - `GetEpDeviceMap` groups the enumerated execution-provider devices by provider name, ignoring case.
  - `AppendExecutionProviderFromEpName` picks a provider's devices and options and appends them to the session options.
  - `GetCompiledModel` keeps a per-device compiled copy of a model next to the model, and compiles it only on a cache miss.
- **`MainWindow.xaml.cs`** builds text and navigates:
  - the message shown in the error dialog;
  - the text copied to the clipboard;
  - the serialisation of an exception and its inner exceptions;
  - the navigation-tag mapping.
- **`Pages/Translatorpage.xaml.cs`** holds the translator page's handlers:
  - the character counter under the input box;
  - the guards before a translation starts;
  - the prompts sent to the model;
  - the reset on cancellation.

The modules follow the source files:

- `Wrappers` holds `Option`, which stands for C# `null`.
- `Strings` holds ordinal case folding, white space, decimal rendering of lengths, and its read-back.
- `Paths` is a separator model of the `System.IO.Path` calls.
- `WinMLHelpers`, `MainWindow` and `Pages` model the three source files.

Where the source changes state, the model changes it too:

- **`GetEpDeviceMap`** is a loop over the device list that files each device into a map. It is proved to build `IsGroupingOf` the input, which is a loop-free statement of the grouping, and the lemmas about `IsGroupingOf` then give the partition and order properties.
- **Session options, the file system and the compiler options** are classes whose methods record what the runtime would be asked to do.
- **The translator page** is a class whose fields are the controls its handlers set.

The decision in `AppendExecutionProviderFromEpName` is also stated as a function, `ResolveProvider`, and the method is proved to perform the append that `ResolveProvider` chooses.

Dictionary keys use `StringComparer.OrdinalIgnoreCase`. The model represents this as a map keyed by the ASCII upper-case form of the name (`Strings.Fold`). Each map entry keeps the spelling of the first device inserted under that key, just as the dictionary does.

## Model

| member | source | states |
|---|---|---|
| Strings.FoldChar | Util/WinMLHelpers.cs:74 | the folded character is never an ASCII lower-case letter; lower-case letters move down by 32 and all other characters stay as they are |
| Strings.Fold | Util/WinMLHelpers.cs:74 | folding keeps the length and folds position by position |
| Strings.FoldIdempotent | Util/WinMLHelpers.cs:74 | folding twice is folding once, so a folded key is its own key |
| Strings.IsNullOrWhiteSpace | MainWindow.xaml.cs:66 | true exactly for `null` or a string made only of white-space characters |
| Strings.AllWhiteSpace | MainWindow.xaml.cs:66 | true exactly when every character is white space |
| Strings.Utf16Length | Pages/Translatorpage.xaml.cs:177 | `Text.Length` counts UTF-16 code units: at least one and at most two per character |
| Strings.Utf16LengthOfBmp | Pages/Translatorpage.xaml.cs:177 | the UTF-16 length equals the number of characters exactly when none lies outside the Basic Multilingual Plane |
| Strings.Utf16LengthConcat | Pages/Translatorpage.xaml.cs:177 | the UTF-16 length of a concatenation is the sum of the lengths |
| Strings.DigitChar | Pages/Translatorpage.xaml.cs:182-186 | a digit below ten is rendered as a decimal digit character |
| Strings.NatToString | Pages/Translatorpage.xaml.cs:182-186 | the rendering of a length is a non-empty run of decimal digits, with no leading zero unless the number is 0 |
| Strings.NatToStringRoundTrip | Pages/Translatorpage.xaml.cs:182-186 | reading the digits back gives the number rendered |
| Strings.NatToStringInjective | Pages/Translatorpage.xaml.cs:182-186 | different lengths are rendered differently |
| Strings.LeadingDigits | Pages/Translatorpage.xaml.cs:182-186 | the longest run of digits that starts the text: a prefix made of digits, followed by a non-digit or the end |
| Strings.LeadingDigitsOfConcat | Pages/Translatorpage.xaml.cs:182-186 | a run of digits followed by a non-digit is exactly the leading run |
| Paths.LastSeparator | Util/WinMLHelpers.cs:52 | the position of the last `\` or `/`, or -1; nothing after it is a separator |
| Paths.LastDot | Util/WinMLHelpers.cs:52 | the position of the last dot, or -1; nothing after it is a dot |
| Paths.GetDirectoryName | Util/WinMLHelpers.cs:52 | definition of `Path.GetDirectoryName` on separators: `null` for an empty path, `""` without a separator, else the part before the last separator; its properties are `DirectoryOfJoin` and `CompiledPathNaming` |
| Paths.GetFileName | Util/WinMLHelpers.cs:52 | definition of `Path.GetFileName`: the part after the last separator; its properties are `FileNameHasNoSeparator` and `FileNameAfterPrefix` |
| Paths.GetFileNameWithoutExtension | Util/WinMLHelpers.cs:52 | definition of `Path.GetFileNameWithoutExtension`: the file name up to its last dot; its properties are `FileNameHasNoSeparator` and `StemBeforeExtension` |
| Paths.Combine | Util/WinMLHelpers.cs:52 | definition of `Path.Combine` of two parts: one separator between them unless a side is empty, the second is rooted, or the first ends in a separator; its properties are `DirectoryOfJoin` and `CompiledPathNaming` |
| Paths.LastSeparatorUnique | Util/WinMLHelpers.cs:52 | any position with the properties of the last separator is the one found |
| Paths.LastDotUnique | Util/WinMLHelpers.cs:52 | any position with the properties of the last dot is the one found |
| Paths.FileNameHasNoSeparator | Util/WinMLHelpers.cs:52 | a file name, with or without its extension, contains no separator |
| Paths.FileNameAfterPrefix | Util/WinMLHelpers.cs:52 | after a directory prefix that ends in a separator, the file name is the rest of the path |
| Paths.LastDotBeforeExtension | Util/WinMLHelpers.cs:52 | helper step for `StemBeforeExtension`: in `base.ext` with a dot-free extension, the last dot is the one after `base` |
| Paths.BaseBeforeDot | Util/WinMLHelpers.cs:52 | helper step for `StemBeforeExtension`: `base.ext` begins with `base` |
| Paths.StemBeforeExtension | Util/WinMLHelpers.cs:52 | the name without extension of `dir\base.ext` is `base` |
| Paths.DirectoryOfJoin | Util/WinMLHelpers.cs:52 | the directory of `dir\name` is `dir` |
| WinMLHelpers.KeysOf | Util/WinMLHelpers.cs:76-87 | definition of the keys the loop creates: the folded names of the devices; characterised by `KeysOfMembers` |
| WinMLHelpers.Matching | Util/WinMLHelpers.cs:76-87 | definition of the list one key collects: the devices of that folded name in enumeration order; characterised by `MatchingMembers`, `MatchingHead` and `MatchingConcat` |
| WinMLHelpers.IsGroupingOf | Util/WinMLHelpers.cs:76-87 | loop-free definition of the dictionary the loop must build: the keys of `KeysOf`, each stored under the first spelling seen and holding `Matching`; `GetEpDeviceMap` is proved to meet it |
| WinMLHelpers.FileDevice | Util/WinMLHelpers.cs:78-86 | definition of one loop body: `TryGetValue` under the folded name, a new list stored under the device's spelling on a miss, then `Add`; proved by `GroupingSnoc` and `SumSizesFile` to keep the grouping and add one device |
| WinMLHelpers.KeysOfMembers | Util/WinMLHelpers.cs:76-87 | the keys are exactly the folded names of the enumerated devices |
| WinMLHelpers.MatchingMembers | Util/WinMLHelpers.cs:76-87 | a group holds only enumerated devices whose name folds to its key, and no more devices than were enumerated |
| WinMLHelpers.FirstIndex | Util/WinMLHelpers.cs:80-84 | finds the position of the first device with a given folded name; no earlier device has that name |
| WinMLHelpers.GetEpDeviceMap | Util/WinMLHelpers.cs:70-90 | the loop builds the grouping of the enumeration: one entry per name ignoring case, keyed by the spelling first seen, holding that name's devices; the group sizes sum to the number of devices |
| WinMLHelpers.FiledAllIsGrouping | Util/WinMLHelpers.cs:76-87 | filing the devices one by one, as the loop body does, yields the grouping of the whole enumeration |
| WinMLHelpers.FiledAllSize | Util/WinMLHelpers.cs:76-87 | after filing the devices one by one, the lists hold exactly as many devices as were enumerated |
| WinMLHelpers.GroupingSnoc | Util/WinMLHelpers.cs:78-86 | filing one more device keeps the map the grouping of what has been seen |
| WinMLHelpers.GroupingSnocAt | Util/WinMLHelpers.cs:80-86 | after filing a device, each key's entry keeps its first spelling and gains the device exactly when its name matches |
| WinMLHelpers.SumSizesRemove | Util/WinMLHelpers.cs:76-87 | the total list size does not depend on the order in which keys are taken |
| WinMLHelpers.SumSizesFile | Util/WinMLHelpers.cs:86 | each `value.Add(device)` adds one to the total list size |
| WinMLHelpers.FirstIndexUnique | Util/WinMLHelpers.cs:80-84 | a matching position with no earlier match is the first position |
| WinMLHelpers.MatchingAbsent | Util/WinMLHelpers.cs:80 | a name that was never enumerated has no devices |
| WinMLHelpers.MatchingContains | Util/WinMLHelpers.cs:86 | every device is in the group for its own name |
| WinMLHelpers.MatchingHead | Util/WinMLHelpers.cs:80-86 | a group is non-empty and starts with the first device of that name |
| WinMLHelpers.GroupingPartition | Util/WinMLHelpers.cs:76-87 | no group is empty; each key is the folded form of its stored spelling; each device lies in exactly the group whose key matches its name ignoring case |
| WinMLHelpers.MatchingConcat | Util/WinMLHelpers.cs:76-86 | grouping keeps enumeration order: the group of a concatenation is the first part's group followed by the second part's group |
| WinMLHelpers.MatchingSingle | Util/WinMLHelpers.cs:78-86 | a single device forms only the group of its own name |
| WinMLHelpers.SessionOptions.constructor | Util/WinMLHelpers.cs:10 | fresh session options have nothing appended |
| WinMLHelpers.SessionOptions.AppendExecutionProvider | Util/WinMLHelpers.cs:29-43 | one append adds exactly that device list and those options to the log |
| WinMLHelpers.FirstOfType | Util/WinMLHelpers.cs:32 | `null` exactly when no device's type equals the hint; otherwise the first device whose type equals it, compared ordinally |
| WinMLHelpers.AsReferences | Util/WinMLHelpers.cs:43 | every device of the group is passed, in order |
| WinMLHelpers.SelectAttachment | Util/WinMLHelpers.cs:23-44 | the `switch` compares ordinally. DirectML gets `[devices[0]]`, OpenVINO gets `[first device of the type or null]`, everything else gets all devices. The options are `htp_performance_mode = high_performance` exactly for `QNNExecutionProvider` and empty otherwise. Selected devices come from the group |
| WinMLHelpers.ResolveProvider | Util/WinMLHelpers.cs:10-48 | `CPU` (ordinal) succeeds with no append. A name that matches no enumerated device, ignoring case, fails. Any other name appends what `SelectAttachment` chooses from that name's group, and every device appended has that name ignoring case |
| WinMLHelpers.AppendExecutionProviderFromEpName | Util/WinMLHelpers.cs:10-48 | returns false exactly for an unsupported name; appends exactly once when a device list is chosen and never otherwise; `devices[0]` is safe because groups are non-empty |
| WinMLHelpers.CpuIgnoresEnvironment | Util/WinMLHelpers.cs:12-16 | the CPU result is the same whatever the environment enumerates |
| WinMLHelpers.DmlPicksFirstEnumerated | Util/WinMLHelpers.cs:26-30 | with several DirectML devices, the one appended is the first enumerated, with no options |
| WinMLHelpers.CaseOnlyMatchTakesDefault | Util/WinMLHelpers.cs:21-44 | `dmlexecutionprovider` is found by the case-insensitive lookup but falls to `default` and appends every DirectML device |
| WinMLHelpers.OpenVinoWithoutMatchAppendsNull | Util/WinMLHelpers.cs:31-34 | an OpenVINO request whose hint matches no device still succeeds, appending a single `null` device |
| WinMLHelpers.QnnSingleDevice | Util/WinMLHelpers.cs:35-44 | a single QNN device is appended with the HTP performance option |
| WinMLHelpers.CaseVariantsShareGroup | Util/WinMLHelpers.cs:74-86 | two devices whose names are equal ignoring case land in the same group |
| WinMLHelpers.NpuEpVariants | Util/WinMLHelpers.cs:74 | `NpuEp` and `npuep` are one key |
| WinMLHelpers.CompiledModelPath | Util/WinMLHelpers.cs:52 | definition of the cache path: `Combine` of the model's directory (or `""` for `null`) and its stem, followed by `.<device>.onnx`; its properties are `CompiledPathNaming` and `CompiledPathOfEmptyStem` |
| WinMLHelpers.CompiledPathNaming | Util/WinMLHelpers.cs:52 | the cached file is named `<stem>.<device>.onnx`; its own stem is `<stem>.<device>`; it sits in the model's directory, or with no directory when the model has none |
| WinMLHelpers.CompiledPathOfEmptyStem | Util/WinMLHelpers.cs:52 | a model named only `.onnx` has an empty stem, so its compiled form `models.npu.onnx` lands beside the directory instead of inside it |
| WinMLHelpers.FileSystem.constructor | Util/WinMLHelpers.cs:54 | the disk starts with the given files and no compilation runs |
| WinMLHelpers.FileSystem.Delete | Util/WinMLHelpers.cs:54 | a deletion removes just that path |
| WinMLHelpers.ModelCompilationOptions.constructor | Util/WinMLHelpers.cs:56 | new compilation options have no paths set |
| WinMLHelpers.ModelCompilationOptions.SetInputModelPath | Util/WinMLHelpers.cs:57 | sets the input path and leaves the output path alone |
| WinMLHelpers.ModelCompilationOptions.SetOutputModelPath | Util/WinMLHelpers.cs:58 | sets the output path and leaves the input path alone |
| WinMLHelpers.ModelCompilationOptions.CompileModel | Util/WinMLHelpers.cs:59 | records one run from the input to the output; the output file exists afterwards exactly when the compiler produced it |
| WinMLHelpers.GetCompiledModel | Util/WinMLHelpers.cs:50-68 | on a hit, the compiler is not invoked and nothing changes. On a miss, it is invoked exactly once, from the model to the compiled path. The result is the compiled path if that file exists afterwards, and `null` otherwise |
| WinMLHelpers.GetCompiledModelTwice | Util/WinMLHelpers.cs:50-68 | after a successful first call, the second returns the same path; the run log gains at most the first call's compilation (none when the file was already cached), and the disk gains just the compiled path. After a failed first call, the run log gains two compilations of the model into the compiled path, and the second result and the disk depend only on whether the second run produced the file |
| WinMLHelpers.CacheStepTwice | Util/WinMLHelpers.cs:54-67 | for any cached path, two cache steps in a row give that exact run log, result and disk |
| WinMLHelpers.GetCompiledModelAfterDelete | Util/WinMLHelpers.cs:54-60 | deleting the compiled file makes the next call compile again |
| MainWindow.IsRpcUnavailable | MainWindow.xaml.cs:30-31 | definition of the `when` guard: a non-null `COMException` whose message contains the RPC text ignoring case; used by `DialogMessage` |
| MainWindow.DialogMessage | MainWindow.xaml.cs:29-34 | a non-null optional message is shown verbatim. Otherwise a COM exception whose message contains "the rpc server is unavailable" shows the WCL text. Any other case shows `Error:` and a newline followed by the exception message (empty for no exception); the optional-message suffix is always empty on that branch |
| MainWindow.OptionalMessageWins | MainWindow.xaml.cs:29 | with an optional message, the exception does not matter |
| MainWindow.ErrorTextDistinct | MainWindow.xaml.cs:30-33 | without an optional message, an exception that is not the RPC fault never yields the WCL text |
| MainWindow.ErrorTextInjective | MainWindow.xaml.cs:33 | two error texts are equal exactly when the exception messages are, so the dialog keeps the message intact |
| MainWindow.Block | MainWindow.xaml.cs:82-84 | definition of the interpolated `Message: … StackTrace: …` block, with an absent stack trace shown empty; `ExceptionDetails` and `DetailsOfChain` state where it appears |
| MainWindow.ExceptionDetails | MainWindow.xaml.cs:78-86 | the details begin with the `Message:`/`StackTrace:` block of the exception, and are just that block exactly when there is no inner exception |
| MainWindow.Chain | MainWindow.xaml.cs:80-81 | the chain of an exception is non-empty and starts with it |
| MainWindow.ChainLinks | MainWindow.xaml.cs:80-81 | each exception in the chain is followed by its inner exception, and the chain ends with one that has none, so the recursion ends |
| MainWindow.DetailsOfChain | MainWindow.xaml.cs:78-86 | the details are one block per exception of the chain, outermost first, separated by `Inner Exception:` lines |
| MainWindow.ClipboardText | MainWindow.xaml.cs:64-76 | the optional message and a newline come first, unless the message is null or white space; the exception details follow only when there is an exception |
| MainWindow.BlankMessageDropped | MainWindow.xaml.cs:66 | a message that is only white space is dropped, and the text begins with the first exception block |
| MainWindow.NavigationTarget | MainWindow.xaml.cs:88-103 | tag `TextRecognizer` goes to the text-recognizer page and `Translator` to the translator page; any other tag, or no container, navigates nowhere |
| MainWindow.TagRoundTrip | MainWindow.xaml.cs:92-100 | each page is reached from its own tag and from no other |
| MainWindow.Frame.constructor | MainWindow.xaml.cs:23-24 | a new frame has shown no page |
| MainWindow.Frame.Navigate | MainWindow.xaml.cs:95-99 | a navigation adds the page to the history |
| MainWindow.Window.constructor | MainWindow.xaml.cs:20-25 | the window opens on the text-recognizer page |
| MainWindow.Window.NavViewSelectionChanged | MainWindow.xaml.cs:88-103 | a known tag navigates once; anything else leaves the frame alone |
| Pages.UserPrompt | Pages/Translatorpage.xaml.cs:81 | definition of the interpolated user prompt; its properties are `UserPromptRecoversText` and `UserPromptInjective` |
| Pages.CounterText | Pages/Translatorpage.xaml.cs:182-186 | definition of the counter text for a length; its properties are `CounterReadsBack`, `CounterWarnsAtLimit` and `MaxLengthText` |
| Pages.CounterReadsBack | Pages/Translatorpage.xaml.cs:180-187 | the counter starts with the input length in decimal, and that reads back as the length |
| Pages.MaxLengthText | Pages/Translatorpage.xaml.cs:180-186 | the limit is rendered as `10000` |
| Pages.CounterWarnsAtLimit | Pages/Translatorpage.xaml.cs:180-187 | the counter ends in `. Max characters reached.` exactly from 10000 characters on, and is then exactly that suffix longer |
| Pages.UserPromptRecoversText | Pages/Translatorpage.xaml.cs:81 | the user prompt starts with `Translate the following text to ` and ends with the text in single quotes, so the text can be recovered from the prompt and the language |
| Pages.UserPromptInjective | Pages/Translatorpage.xaml.cs:81 | for languages of the same length, equal prompts mean the same language and the same text |
| Pages.TranslatorPage.constructor | Pages/Translatorpage.xaml.cs:20-28 | a page starts with the given chat client, selected item and button states; the text boxes and output are empty, no translation has started, there is no token source and no progress |
| Pages.TranslatorPage.SetInput | Pages/Translatorpage.xaml.cs:175-177 | typing changes only the text box's text |
| Pages.TranslatorPage.InputBoxChanged | Pages/Translatorpage.xaml.cs:175-196 | lengths are UTF-16 code units. Non-empty input shows `n of 10000`, plus `. Max characters reached.` from 10000 on, and enables the button exactly up to 10000. Empty input clears the counter and shows the button, leaving enablement as it was |
| Pages.TranslatorPage.TranslateText | Pages/Translatorpage.xaml.cs:66-81 | with no chat client or no selected item, nothing happens. For a language name, the output is cleared and one translation starts with the fixed system prompt and `Translate the following text to {language}: '{text}'`. Any other item starts nothing |
| Pages.TranslatorPage.TranslateButtonClick | Pages/Translatorpage.xaml.cs:118-127 | with empty input (UTF-16 length 0) nothing changes; otherwise the button is hidden, progress and the stop button are shown, and the input is translated |
| Pages.TranslatorPage.CancelTranslation | Pages/Translatorpage.xaml.cs:129-137 | afterwards the stop button is collapsed, progress is off, the translate button is visible and there is no token source; nothing else changes |
| Pages.TypeTranslateCancel | Pages/Translatorpage.xaml.cs:118-196 | typing, clicking and cancelling: the counter reads back the UTF-16 length and the button is enabled exactly up to the limit; the click, issued whatever the button's state, starts one translation, with the prompt for that text, exactly when the text is non-empty, and the page ends idle |
| Pages.SupplementaryCountsTwice | Pages/Translatorpage.xaml.cs:177-186 | a character outside the Basic Multilingual Plane counts as two, so the counter shows `2 of 10000` |
| Pages.SupplementaryReachLimit | Pages/Translatorpage.xaml.cs:177-189 | 5000 such characters already reach the limit, and more than 5000 disable the button |
| Pages.AllSupplementaryDoubles | Pages/Translatorpage.xaml.cs:177 | a text made only of such characters has twice as many code units as characters |

## Left out

- ONNX Runtime itself is not modelled. This covers enumeration (`GetEpDevices`), `AppendExecutionProvider` and `CompileModel`. An environment is the list of devices it enumerates; an append is recorded in a log; a compile run either writes its output or does not, as a parameter decides. Faults that the runtime raises, for example on a `null` OpenVINO device or a bad model, are not modelled.
- The environment is always passed explicitly. The default `OrtEnv.Instance()` for a missing environment (Util/WinMLHelpers.cs:18, 72) is a process-wide singleton and is outside the model.
- The `using` disposal of the compilation options is not modelled.
- Concurrent calls of `GetCompiledModel` are not modelled.
- `File.Exists` is membership in a set of paths.
- Strings.Fold: `OrdinalIgnoreCase` is modelled for ASCII letters only. Other letters compare ordinally in the model.
- Paths.GetDirectoryName: a path whose only separator comes first gives `""` here, not the root `\`. Forward slashes are not rewritten to backslashes, and drive letters, UNC prefixes and trailing separators get no special treatment. `Paths.Combine` treats a second part as rooted only when it starts with a separator.
- WinMLHelpers.CompiledPathNaming: proved only when the device suffix has no separator and the model's stem is non-empty. The empty-stem case is shown separately by `CompiledPathOfEmptyStem`.
- MainWindow.DialogMessage: the culture-sensitive, case-insensitive `Contains` is the parameter `containsIgnoringCase`. Culture rules are not modelled.
- The dialog itself is not modelled: showing it, its buttons, copying to the clipboard, and the "Reload" navigation (MainWindow.xaml.cs:36-61, 73-75). `ClipboardText` is the text that would be copied.
- MainWindow.ExceptionDetails: the line breaks of the multi-line string (MainWindow.xaml.cs:82-84) depend on how the source file is saved; the model uses `\n`. An exception's `Message` is taken to be non-null.
- The `DataContext` view model (ViewModels/CopilotRootViewModel.cs) is not modelled, and neither is `Util/HardwareAccelerator.cs`, because no modelled logic uses them.
- The translation body that `Task.Run` starts (Pages/Translatorpage.xaml.cs:76-115) is not modelled: creating the token source, streaming the reply into the output, hiding progress on the first part, and restoring the buttons at the end. `TranslateText` records the prompts of the translation it starts.
- The `IsProgressVisible` setter also queues an update of the progress bar and stop icon on the UI thread. Only the field is modelled.
- `OnNavigatedTo` is not modelled: the delay, creating the chat client, and setting `MaxLength` to 10000. The chat client's presence is a constructor argument; `InputBoxChanged` handles any length.
- `CleanUp` and `StopBtn_Click` just call `CancelTranslation` (and dispose the client), so they are not modelled separately.
- The list of languages in the language box is not modelled. The selected item is either a language name or an item of some other type.
- The initial `IsEnabled` and `Visibility` of the translate and stop buttons come from the page's markup, which is not part of this model. They are constructor parameters. The empty initial `Text` and `Description` of the text controls are the WinUI defaults.
- Strings are sequences of Unicode scalar values. `Text.Length` is modelled as the UTF-16 length (`Strings.Utf16Length`), which counts a character outside the Basic Multilingual Plane twice. Unpaired surrogates cannot occur in the model.
