# Bubble chat widget: a Dafny model of the `Chat` component

The repository is an embeddable React chat widget. A floating button opens and
closes a panel. In the panel the user types text, attaches files and sends
them into a conversation log. Attachments are shown as an inline picture, an
audio player, a video player or a download link, chosen by the file's media
type. The floating button and the panel sit on the right for a right-to-left
layout and on the left otherwise.

All of this logic lives in one component, `src/Chat.tsx`. The model has six
modules:

- `ChatTypes` (`types.dfy`): the session role (`userType`), a picked file
  (display name and media type string) and a committed message.
- `JsTrim` (`trim.dfy`): ECMAScript's `String.prototype.trim`, which the send
  guard uses. It strips the white space and line terminator characters the
  standard defines.
- `Renderer` (`renderer.dfy`): the major type (`split('/')[0]`), the four
  attachment conditions, the attachment tint, and the own/other choice for a
  message bubble.
- `ChatState` (`state.dfy`): the five state fields as one value. Each event
  handler is a function from the old state to the new one. `Run` handles a
  whole sequence of events. The lemmas state what the handlers promise, both
  for one event and for any sequence of events.
- `View` (`view.dfy`): the render tree reduced to enums. It gives the anchor
  side, the button icon, whether the panel is shown, and the list of rendered
  messages.
- `Widget` (`widget.dfy`): the component as a class `Chat`. Its fields are the
  component state. Its methods are the handlers: each replaces only the fields
  its `modifies` names. Each states the new state field by field and also as
  `Snapshot() == <transition>(old(Snapshot()))`, which links it to the lemmas
  of `ChatState`. `Valid()` is the invariant that every logged message was sent
  by this session and is not empty.

The clock reading used as a message id (`Date.now()`) is a parameter `now` of
the send and key handlers. The file picker's result is a parameter of type
`Option<seq<File>>`: `None` stands for a change event without a file list.

Two things the code does not guarantee:

- Message ids are not unique or strictly increasing. They are whatever the
  clock reads. `ChatState.SameReadingSameId` shows two sends that log the same
  id. `ChatState.SendKeepsIdsIncreasing` shows that ids stay increasing when
  the clock reading exceeds every logged id. `ChatState.CommittedIdsIncreasingIff`
  shows that, for a send that passes the guard, ids stay increasing exactly
  when the reading exceeds the last logged id.
- The layout direction is any string, not only `ltr` or `rtl`. Only the exact
  string `rtl` anchors right. Before the direction effect first runs, the state
  is `ltr`, so the widget is anchored left whatever the prop says.

## Model

| member | source | states |
|---|---|---|
| `JsTrim.TrimStart` | src/Chat.tsx:40 | the result is a suffix of the input, everything dropped is white space, and the result is empty or starts with a visible character |
| `JsTrim.TrimEnd` | src/Chat.tsx:40 | the result is a prefix of the input, everything dropped is white space, and the result is empty or ends with a visible character |
| `JsTrim.TrimEmptyIffAllWhitespace` | src/Chat.tsx:40 | `inputValue.trim()` is empty exactly when every character of the text is white space |
| `Renderer.MajorType` | src/Chat.tsx:90 | the major type is a prefix of the type string, holds no slash, and is either the whole string or ends where the first slash is |
| `Renderer.MajorTypeBeforeSlash` | src/Chat.tsx:90 | for any slash-free `p`, the major type of `p/rest` is `p`, whatever `rest` holds |
| `Renderer.MajorTypeWithoutSlash` | src/Chat.tsx:90 | a type string without a slash is its own major type |
| `Renderer.ExactlyOneVariantShown` | src/Chat.tsx:93-104 | the four element conditions emit exactly one element for every type string: picture, audio, video or download link, the one the reference classification picks |
| `Renderer.ClassifyFallbackExamples` | src/Chat.tsx:102-104 | the empty type and the slash-less unknown type `xyz` both fall back to the download link |
| `Renderer.ClassifyImagePng` | src/Chat.tsx:90-95 | `image/png` is shown as an inline picture |
| `Renderer.RenderMessage` | src/Chat.tsx:64-87 | the bubble is the session's own exactly when the message's sender equals `userType`; the content is shown as stored; every attachment is rendered in order and classified by its own type |
| `Renderer.AttachmentsIgnoreSender` | src/Chat.tsx:78-103 | attachment rendering does not depend on the message's sender; every attachment gets the tint of the session's `userType` |
| `JsTrim.Trim` | src/Chat.tsx:40 | the result is no longer than the text and is empty or starts and ends with a visible character; `TrimEmptyIffAllWhitespace` gives when it is empty |
| `Renderer.ShownVariants` | src/Chat.tsx:93-103 | the four independent element conditions emit exactly one element for any major type; `ExactlyOneVariantShown` says which |
| `Renderer.Classify` | src/Chat.tsx:90-103 | picture, audio or video exactly when the major type is `image`, `audio` or `video`, and the download link otherwise |
| `Renderer.TintFor` | src/Chat.tsx:94-103 | no contract of its own: `AttachmentsIgnoreSender` states that every attachment gets this tint, taken from the session role alone |
| `Renderer.RenderFile` | src/Chat.tsx:89-107 | no contract of its own: `RenderMessage` and `AttachmentsIgnoreSender` state its variant, tint and file for every attachment |
| `ChatState.Toggle` | src/Chat.tsx:25-27 | no contract of its own: `ToggleFlipsVisibility` and `TogglesByParity` specify it |
| `ChatState.SyncDirection` | src/Chat.tsx:29-31 | no contract of its own: `DirectionOnlyFromProp` and `AnchorFollowsDirection` specify it |
| `ChatState.PickFiles` | src/Chat.tsx:33-37 | no contract of its own: `PickFilesAppends` and `PicksAccumulate` specify it |
| `ChatState.SetInput` | src/Chat.tsx:171 | no contract of its own: `SetInputReplaces` specifies it |
| `ChatState.CanSend` | src/Chat.tsx:40 | the guard passes exactly when the text is not all white space or some file is picked |
| `ChatState.Send` | src/Chat.tsx:39-56 | no contract of its own: `SendNoOpIffEmptyDraft` and `SendCommitsDraft` specify it |
| `ChatState.KeyPress` | src/Chat.tsx:58-62 | no contract of its own: `KeyPressOnlyEnter` specifies it |
| `View.Anchor` | src/Chat.tsx:113 | no contract of its own: `View.Render` and `AnchorFollowsDirection` state that only the exact string `rtl` anchors right, for the button at line 113 and the panel at line 144 |
| `ChatState.ToggleFlipsVisibility` | src/Chat.tsx:18-27 | the widget starts closed, a toggle negates visibility and changes nothing else, and two toggles restore the state |
| `ChatState.TogglesByParity` | src/Chat.tsx:25-27 | after n clicks on the chat buttons visibility is as before when n is even and negated when n is odd; nothing else changes |
| `ChatState.DirectionOnlyFromProp` | src/Chat.tsx:22-31 | no handler other than the direction effect changes the layout direction, over any sequence of events |
| `ChatState.PickFilesAppends` | src/Chat.tsx:33-37 | a picked list is appended after the earlier selection in order, duplicates kept (multiset sum); no file list leaves the state unchanged |
| `ChatState.PicksAccumulate` | src/Chat.tsx:33-37 | any number of picks accumulate: the draft holds the earlier selection followed by every pick in call order, and nothing else changes |
| `ChatState.SetInputReplaces` | src/Chat.tsx:168-171 | typing replaces the draft text verbatim and changes nothing else |
| `ChatState.SendNoOpIffEmptyDraft` | src/Chat.tsx:39-56 | sending leaves the whole state unchanged if and only if the text is all white space and no file is picked |
| `ChatState.SendCommitsDraft` | src/Chat.tsx:39-51 | a send past the guard appends exactly one message, keeps the old log as a prefix, takes the untrimmed text, the session role and the picked files in order, and clears text and files together; visibility and layout stay |
| `ChatState.KeyPressOnlyEnter` | src/Chat.tsx:58-62 | the Enter key acts exactly as the send handler; any other key leaves the state unchanged |
| `ChatState.StepPreservesInv` | src/Chat.tsx:39-50 | every handler keeps the log made only of non-empty messages sent by the session's role |
| `ChatState.RunPreservesInv` | src/Chat.tsx:39-50 | the same invariant holds after any sequence of events |
| `ChatState.LogAppendOnly` | src/Chat.tsx:47-48 | over any sequence of events the old log stays a prefix, and each send click or key press adds at most one message |
| `ChatState.SendKeepsIdsIncreasing` | src/Chat.tsx:41-47 | ids stay strictly increasing when the clock reading exceeds every logged id |
| `ChatState.CommittedIdsIncreasingIff` | src/Chat.tsx:41-48 | for a send that passes the guard, starting from increasing ids, the log stays increasing if and only if the clock reading exceeds the last logged id |
| `ChatState.SameReadingSameId` | src/Chat.tsx:42 | two sends with the same clock reading log two messages with equal ids |
| `ChatState.LoggedMessagesRenderOwn` | src/Chat.tsx:65-69 | within one session every logged message renders as the session's own bubble |
| `View.Render` | src/Chat.tsx:109-175 | the panel is shown and the button shows the close icon exactly when the widget is open; the button is anchored right exactly for `rtl`; the panel shares the button's side and lists every logged message rendered in order |
| `View.AnchorFollowsDirection` | src/Chat.tsx:22-31 | before the direction effect the widget is anchored left; after it, it is anchored right exactly when the prop is `rtl`, and stays so under any other events |
| `View.TwoTogglesClosePanel` | src/Chat.tsx:143-152 | the panel is absent at start, present after one click and absent again after two |
| `Widget.Chat.constructor` | src/Chat.tsx:17-23 | a new component is closed, with empty draft and log and direction `ltr`, and satisfies the invariant |
| `Widget.Chat.SyncLayoutDirection` | src/Chat.tsx:29-31 | the effect copies the `direction` prop into the layout state and changes nothing else |
| `Widget.Chat.ReceiveDirection` | src/Chat.tsx:29-31 | a new `direction` prop updates the layout state only when it differs from the previous prop |
| `Widget.Chat.ToggleChat` | src/Chat.tsx:25-27 | visibility is negated unconditionally; nothing else changes |
| `Widget.Chat.HandleFileChange` | src/Chat.tsx:33-37 | the selection becomes the old selection followed by the picked files; without a file list it is unchanged |
| `Widget.Chat.SetInputValue` | src/Chat.tsx:168-171 | the draft text becomes the typed value |
| `Widget.Chat.HandleMessageSend` | src/Chat.tsx:39-56 | with a blank draft and no files nothing changes; otherwise one message is appended and text and files are cleared; the invariant is kept |
| `Widget.Chat.HandleKeyPress` | src/Chat.tsx:58-62 | Enter sends; any other key leaves log, text and files unchanged |

## Left out

- Markup, Tailwind class strings, inline colours and SVG icons (src/Chat.tsx:109-202): only the choices they encode are modelled, as enums: side, icon, tint, own or other bubble, and element kind.
- `URL.createObjectURL` and the bytes of a file: a file is its name and media type string.
- The scroll to the bottom after a send (src/Chat.tsx:52-54): it manipulates the DOM. It also runs before React re-renders, so nothing about the new message being in view is claimed.
- `Date.now()`: the clock reading is a parameter `now`. No uniqueness or ordering of ids is claimed beyond what the clock provides.
- The file input's `accept` filter (src/Chat.tsx:180): the browser applies it; the handler takes whatever list it receives.
- `JsTrim.IsWhitespace`: JavaScript strings are UTF-16 code units, while the model's characters are Unicode scalar values. The white space set is the standard's, applied per character.
- The `userType` prop is fixed for the component's lifetime. A host that re-renders with another `userType` would change how earlier messages are styled; that is not modelled.
- The `username` and `avatarURL` props are only displayed (src/Chat.tsx:148-149). They are not modelled.
- Step and Run: they accept typing, file picks, send clicks and key presses while the panel is closed, although the inputs and the send button are mounted only while it is open (src/Chat.tsx:143-200). This only adds runs that cannot happen, so every lemma about runs still holds of the real ones.
- React's batching and stale closures: the handlers are modelled as running one after another, each seeing the state the previous one left.
- The optional `files` field of `Message` (src/Chat.tsx:14) is always set by the only code that creates messages, so the model's messages always carry a list, possibly empty.
- src/App.tsx (it only mounts the component with fixed props) and tailwind.config.js (styling configuration).
