# react-chatbot-kit: chat core in Dafny

A model of the decision logic of react-chatbot-kit's chat window, taken out of its JSX:

- **Transcript dispatch** (`Chat`): each message is classified bot, then user, then custom, else nothing is rendered. A bot bubble receives the message's own `withAvatar` when the message carries one, `false` included; otherwise it gets the `showAvatar` rule. The element spreads the message's fields after the computed `withAvatar`, so the message's value wins. Widgets come from the registry: a bot or custom message asks for one only when its `widget` is set, and a bot widget is shown only once `loading` is false. A user message always asks. Rendering a message gives a `Slot`: the fragment key, the nodes, and the registry calls made (`lookups`), so "never asks the registry" can be stated.
- **Header and placeholder defaults** (`Chat.HeaderText`, `Chat.Header`, `Chat.Placeholder`).
- **Submission** (`Chat.AfterSubmit`): the validator-or-files acceptance rule, append-then-clear, and one recorded parser call `parse(text, files)`, which prefers the `parse` prop over `messageParser.parse`.
- **Pending files** (`ChatInputContainer`): upload with the 5-file rejection notice, removal with `Array.prototype.slice` semantics, and the preview-strip-or-textarea form with its disabled flags.
- **User bubble** (`UserChatMessage`): custom component, else attachment grid, else text, plus the avatar choice.
- **The conversation object** (`ChatSession.Conversation`): a class whose methods `Submit`, `Upload`, `RemoveFile`, `ChangeInput` and `Dispatch` change its fields step by step. Each is proved equal to the matching pure transition. `ChatSession.Run` plays any sequence of form events. Lemmas about it show that history only grows, and that the disabled flags freeze the conversation.

The kit's `chatUtils` helpers are not part of this model: `botMessage`, `userMessage`, `customMessage` and `createChatMessage`. They are function-valued parameters: `Chat.RenderEnv` and `ChatTypes.MessageFactory`. Four more collaborators are opaque parameters too:
- `widgetRegistry.getWidget`;
- the custom message renderers;
- the custom components;
- `URL.createObjectURL`, an opaque value per file.

Three behaviours of the code a reader may not expect:
- **Upload cap.** The 5-file cap is checked on each selection, not on the merged total (`ChatInputContainer.UploadTotalNotCapped`: 3 + 4 = 7 pending files).
- **Removal out of range.** Removing at an index past the end returns an equal list, because of `slice`. It is not a caller error.
- **Disabled flags.** The flags only disable the DOM controls; the handlers never check them. The model therefore gates events through `ChatSession.Available`, which lemma `ChatSession.AvailableMatchesForm` reads off the rendered form.

`showAvatar` tests the previous message's `type === 'bot'` directly, not the `botMessage` predicate, and the model keeps that distinction (`Message.kind`). An unclassifiable message renders as `None`, the `undefined` of the source's `map` callback.

## Model

| member | source | states |
|---|---|---|
| UserChatMessage.Images | src/components/UserChatMessage/UserChatMessage.tsx:39-49 | one image per attachment, in attachment order, keyed by position, with the file's preview source and name |
| UserChatMessage.RenderedMessage | src/components/UserChatMessage/UserChatMessage.tsx:22-61 | custom component applied to the text alone if present; else the attachment grid (exactly one image per attachment, in order) when attachments are non-empty; else the text bubble |
| UserChatMessage.UserAvatar | src/components/UserChatMessage/UserChatMessage.tsx:66-76 | the custom avatar exactly when `userAvatar` is provided, else the default user icon |
| UserChatMessage.Render | src/components/UserChatMessage/UserChatMessage.tsx:63-78 | the view pairs the chosen body with the chosen avatar |
| UserChatMessage.CustomIgnoresAttachments | src/components/UserChatMessage/UserChatMessage.tsx:23-27 | with a custom component, the attachments have no influence on the bubble |
| UserChatMessage.TextShownIff | src/components/UserChatMessage/UserChatMessage.tsx:29-60 | the text bubble is rendered iff there is no custom component and attachments are absent or empty |
| ChatInputContainer.Slice | src/components/ChatInputContainer/ChatInputContainer.tsx:64-67 | `slice` with non-negative bounds: the in-range subsequence, empty past the end or for crossed bounds |
| ChatInputContainer.RemoveAt | src/components/ChatInputContainer/ChatInputContainer.tsx:62-70 | in range: `prev[..i] + prev[i+1..]` and one shorter; at or past the length: equal to `prev` |
| ChatInputContainer.RemoveAtKeepsOthers | src/components/ChatInputContainer/ChatInputContainer.tsx:62-69 | files before the index stay in place, later ones shift down by one, and the multiset loses exactly the removed file |
| ChatInputContainer.MergeFiles | src/components/ChatInputContainer/ChatInputContainer.tsx:54-59 | the new files when nothing was pending, else previous files followed by the new ones |
| ChatInputContainer.AfterUpload | src/components/ChatInputContainer/ChatInputContainer.tsx:36-60 | no file list: nothing changes; more than 5: pending files unchanged and exactly one bot notice "You can upload up to 5 files." appended; otherwise pending files become the merge and nothing else changes |
| ChatInputContainer.AfterRemove | src/components/ChatInputContainer/ChatInputContainer.tsx:62-70 | pending files become `RemoveAt(prev, index)` and nothing else changes |
| ChatInputContainer.UploadTotalNotCapped | src/components/ChatInputContainer/ChatInputContainer.tsx:43-59 | 3 pending files plus a selection of 4 are accepted and give 7 |
| ChatInputContainer.RemoveUndoesUpload | src/components/ChatInputContainer/ChatInputContainer.tsx:54-69 | removing the last position after uploading one file restores the previous session exactly |
| ChatInputContainer.UploadPreservesOrder | src/components/ChatInputContainer/ChatInputContainer.tsx:54-59 | after an accepted upload the previous files come first in order and the new files last in order, lengths adding up |
| ChatInputContainer.Previews | src/components/ChatInputContainer/ChatInputContainer.tsx:94-127 | one preview per pending file, in order, each carrying its own index for its remove button |
| ChatInputContainer.Form | src/components/ChatInputContainer/ChatInputContainer.tsx:72-173 | preview strip iff files are pending (one preview per file, in order), else the textarea bound to the input and placeholder; textarea, send button and `is-disabled` class follow `isInputDisabled`; attach button and file input follow `isFileInputDisabled` |
| Chat.Classify | src/components/Chat/Chat.tsx:100-125 | bot, else user, else custom, else unrenderable, each case stated as an iff over the three predicates |
| Chat.ShowAvatar | src/components/Chat/Chat.tsx:89-98 | index 0 shows the avatar; at i > 0 it is hidden iff message i-1 has type "bot" and no widget |
| Chat.BotAvatar | src/components/Chat/Chat.tsx:179-184 | the local `withAvatar`: `true` when the message's is true, else the `ShowAvatar` rule (overridden in the element, see `BubbleAvatar`) |
| Chat.BubbleAvatar | src/components/Chat/Chat.tsx:186-229 | the prop the bubble receives: the message's own `withAvatar` whenever present (spread after the computed value), the `ShowAvatar` rule when absent |
| Chat.ExplicitFalseOverridesRule | src/components/Chat/Chat.tsx:179-224 | an explicit `withAvatar: false` gives the bubble `false`; it differs from the local value exactly where the rule would show the avatar |
| Chat.ExplicitFalseAfterUserMessage | src/components/Chat/Chat.tsx:186-208 | after a user message, a bot message with `withAvatar: false` is rendered without avatar although the rule shows one |
| Chat.RenderChatbotMessage | src/components/Chat/Chat.tsx:178-230 | bubble first with the avatar flag `BubbleAvatar`; the registry is asked once iff `widget` is set; the widget node follows iff `widget` is set, `loading` is false and the lookup returns an element |
| Chat.RenderUserMessage | src/components/Chat/Chat.tsx:158-176 | the registry is always asked once; the user bubble, followed by the widget iff the lookup returns one |
| Chat.RenderCustomMessage | src/components/Chat/Chat.tsx:128-156 | the tag's renderer output first; the registry is asked iff `widget` is set; the widget follows iff set and found |
| Chat.RenderMessage | src/components/Chat/Chat.tsx:100-125 | nothing exactly for an unclassifiable message; a bot, user or custom message is built by the bot, user or custom renderer respectively, in a fragment keyed by the message id |
| Chat.RenderFrom | src/components/Chat/Chat.tsx:100-126 | one slot per message from the start position on, slot k rendered from message start + k |
| Chat.RenderMessages | src/components/Chat/Chat.tsx:100-126 | one slot per message, slot k rendered from message k |
| Chat.RenderedKeysUnique | src/components/Chat/Chat.tsx:101-124 | distinct message ids give distinct fragment keys |
| Chat.BotWithoutWidgetIgnoresRegistry | src/components/Chat/Chat.tsx:219-229 | a bot message without `widget` makes no registry call and renders identically under any registry |
| Chat.LoadingBotShowsNoWidget | src/components/Chat/Chat.tsx:211-214 | a loading bot message shows no widget node |
| Chat.NoWidgetsNoLookups | src/components/Chat/Chat.tsx:128-229 | a transcript of non-user messages without widgets makes no registry call at all |
| Chat.HeaderText | src/components/Chat/Chat.tsx:275-278 | `headerText` if truthy, else "Conversation with " followed by the bot name; never empty |
| Chat.Header | src/components/Chat/Chat.tsx:288-296 | a custom header component replaces the default header text |
| Chat.Placeholder | src/components/Chat/Chat.tsx:280-283 | `placeholderText` if truthy, else "Write your message here" |
| Chat.Accepts | src/components/Chat/Chat.tsx:235-244 | with no validator every submission is accepted; attached files make it accepted; a false validator without files rejects it |
| Chat.Target | src/components/Chat/Chat.tsx:238-248 | the parser call goes to the `parse` prop iff it is given, else to `messageParser.parse` |
| Chat.AfterSubmit | src/components/Chat/Chat.tsx:232-268 | rejected: nothing changes; accepted: exactly one user message from (input, files) appended after the earlier ones, input "" and files null, one scroll requested, one parser call with the pre-submit (input, files) to `parse` when given, else `messageParser.parse` |
| Chat.SubmitChangesIffAccepted | src/components/Chat/Chat.tsx:235-249 | the transcript and the parser log each grow by one iff the submission is accepted |
| Chat.FilesBypassValidator | src/components/Chat/Chat.tsx:236-241 | with a file attached the message is appended and parsed with the files regardless of the validator |
| Chat.EmptySubmissionWithoutValidator | src/components/Chat/Chat.tsx:243-248 | with no validator, empty text and no files still append a message and call the parser |
| Chat.SubmittedMessageRenderedLast | src/components/Chat/Chat.tsx:252-259 | after an accepted submission earlier messages are unchanged, the last slot is the new message's, and a user-classified one gets the user bubble |
| ChatSession.AvailableMatchesForm | src/components/ChatInputContainer/ChatInputContainer.tsx:84-162 | an event is available iff the rendered form shows its control enabled (textarea, send button, file input, the preview's remove button) |
| ChatSession.Available | src/components/ChatInputContainer/ChatInputContainer.tsx:84-162 | a remove event needs a shown preview at that index; a disabled input offers only upload and removal; a disabled file input offers no upload; pending files hide the textarea |
| ChatSession.Step | src/components/ChatInputContainer/ChatInputContainer.tsx:36-136 | typing sets the input; submit, upload and removal make `AfterSubmit`, `AfterUpload` and `AfterRemove` |
| ChatSession.Run | src/components/ChatInputContainer/ChatInputContainer.tsx:82-162 | the empty run changes nothing; each event of a run takes its step when available and is ignored otherwise |
| ChatSession.RunConcat | src/components/ChatInputContainer/ChatInputContainer.tsx:82-162 | running two event sequences in turn equals running their concatenation |
| ChatSession.StepAppendsOnly | src/components/ChatInputContainer/ChatInputContainer.tsx:36-70 | one available event keeps the transcript and parser log as prefixes, adds no more parser calls than messages, keeps the flags |
| ChatSession.RunAppendsOnly | src/components/Chat/Chat.tsx:232-268 | the same over any sequence of events |
| ChatSession.InputDisabledRunParsesNothing | src/components/ChatInputContainer/ChatInputContainer.tsx:137-162 | while `isInputDisabled` no event types, submits, scrolls or calls a parser |
| ChatSession.DisabledRunKeepsState | src/components/ChatInputContainer/ChatInputContainer.tsx:145-162 | with both flags set, no event changes the application state or the parser log |
| ChatSession.Conversation.constructor | src/components/Chat/Chat.tsx:72-73 | input starts empty, pending files null, no parser calls, no scrolls |
| ChatSession.Conversation.ChangeInput | src/components/ChatInputContainer/ChatInputContainer.tsx:136 | only the input changes, to the typed text |
| ChatSession.Conversation.HandleValidMessage | src/components/Chat/Chat.tsx:252-268 | appends the user message from the current input and files, requests a scroll, clears input and files |
| ChatSession.Conversation.CallParser | src/components/Chat/Chat.tsx:238-248 | records exactly one call, to `parse` when given, else to `messageParser.parse` |
| ChatSession.Conversation.Submit | src/components/Chat/Chat.tsx:232-250 | the new state is `Chat.AfterSubmit` of the old one |
| ChatSession.Conversation.Upload | src/components/ChatInputContainer/ChatInputContainer.tsx:36-60 | the new state is `ChatInputContainer.AfterUpload` of the old one |
| ChatSession.Conversation.RemoveFile | src/components/ChatInputContainer/ChatInputContainer.tsx:62-70 | the new state is `ChatInputContainer.AfterRemove` of the old one |
| ChatSession.Conversation.Dispatch | src/components/ChatInputContainer/ChatInputContainer.tsx:82-162 | an available event makes its step; an unavailable one changes nothing |

## Left out

- Preview URL creation (`URL.createObjectURL`): a browser API; it is a per-file parameter `preview`. The source never revokes these URLs, so no release discipline exists to model.
- Deferred scroll (`setTimeout`, and the `useEffect` scroll after every render unless `disableScrollToBottom`): a timer and DOM side effect. Only the request made by an accepted submission is counted (`scrollRequests`).
- `widgetRegistry.getWidget`, `messageParser`, `actionProvider`, the custom message renderers and the custom components: foreign callables. They are opaque function parameters, and the parsers are a call log.
- `botMessage`, `userMessage`, `customMessage`, `createChatMessage` and `callIfExists` from chatUtils: their bodies are not part of this model. The fresh ids that `createChatMessage` presumably assigns are therefore not modelled (`RenderedKeysUnique` assumes distinct ids).
- React `setState` batching and the stale reads of `state.messages` in place of `prevState.messages`: transitions are sequential and atomic.
- The props handed to `ChatbotMessage` and to custom renderers are not modelled except for the message, the avatar flag, the state and the payload. The rest (`setState`, `scrollIntoView`, `actions`, `actionProvider`, `customStyles`, `widgetRegistry`) are passed through unchanged. The props spread from the message other than `withAvatar` may override the explicit ones in the same way. That override is modelled only for `withAvatar`, since `ChatbotMessage` is not part of this model.
- A message whose `withAvatar` key holds `undefined` is modelled as one without the key (`None`). In the source the spread would then hand `undefined` to the bubble rather than the computed value.
- Markup and styling: CSS classes other than `is-disabled`, inline styles, `customButtonStyle`, icons other than the send icon, and the `messageHistory` HTML blob.
- The commented-out form inside `Chat.tsx`: dead code.
- `handleRemoveFile` on null pending files throws in the source. `RemoveFile` therefore requires pending files; the form offers a remove button only when files are shown.
- Negative indices to `slice`: the remove index comes from `map` and is never negative, so `Slice` takes natural numbers.
- The accepted file types (`.png,.jpg,.jpeg`) are a browser filter on the file picker and are not modelled.
