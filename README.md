# A verified model of the DevChat client logic

DevChat is a Slack-like chat client built with React, Redux and Firebase. The
backend does the real work: persistence, ordering, presence and authentication.
This project models the deterministic local logic around it and proves what that
logic promises. It covers five pieces:

- the Redux store (`src/reducers/index.js`): the user, channel and colour slices
  and their combination — module `Reducers`;
- the avatar-URL normaliser (`src/helper/file.js`) — module `AvatarUrl`;
- the Messages view (`src/components/Messages/Messages.js`) — module `Messages`:
  - the distinct-author label and the per-author post tally;
  - the listener registry;
  - the typing-user list;
  - message loading, search and the channel name;
- the message composer (`src/components/Messages/MessageForm.js`) — module `MessageForm`:
  - shortcode-to-emoji substitution and the message record;
  - the send and typing-marker rules;
  - the upload path and the upload state;
- the sign-in form (`src/components/Auth/Login.js`) — module `Login`.

Modules `Common` and `Entities` hold the shared pieces. `Common` has an optional
value, the error record, substring search, filter, findIndex and decimal
rendering. `Entities` has the records the backend stores.

Pure code is modelled as functions and lemmas. Components whose handlers call
`setState` are classes (`Messages.MessagesView`, `MessageForm.Composer`,
`Login.LoginForm`) whose methods update their fields. Each backend write a
handler issues is returned as a value (a `Message`, a `StarWrite`, a
`TypingMarker`, `Credentials`, a `Reducers.Action`). Each backend callback is a
method of its own, such as `OnSendSucceeded`, `OnSendFailed` and `OnUploadFailed`.
The `reduce` folds of countUniqueUsers and countUserPosts are loops. Each is
proved against the recursive function that specifies it. The search's fold is
the recursive `Filter`.

## Model

| member | source | states |
|---|---|---|
| Reducers.InitialStoreValues | src/reducers/index.js:5-8 | The user slice starts with no user and loading; the channel slice (lines 32-36) with no channel, public, no tallies; the colours (lines 60-63) with "#4c3c4c" and "#eee"; Redux's own init action leaves that store as it is |
| Reducers.UserReducer | src/reducers/index.js:10-30 | user_reducer. SET_USER ends loading and stores the payload user: uid, name and e-mail are unchanged, and only the photo URL goes through the normaliser (same length). CLEAR_USER keeps the current user and only clears the loading flag. Any other action leaves the slice as it is |
| Reducers.ChannelReducer | src/reducers/index.js:38-58 | channel_reducer: each channel action sets its own field to the payload, and a field changes only under its own action |
| Reducers.ColorsReducer | src/reducers/index.js:65-75 | colors_reducer: SET_COLORS replaces both colours with the payload, whatever they were; any other action leaves them |
| Reducers.UnhandledActionIsIdentity | src/reducers/index.js:27-28 | An action type that no reducer handles returns the whole store unchanged (also lines 55-56 and 72-73) |
| Reducers.StepIdempotent | src/reducers/index.js:10-75 | Dispatching any action twice gives the store that dispatching it once gives |
| Reducers.Step | src/reducers/index.js:77-81 | rootReducer: one dispatch on the combined store; an action aimed at one slice leaves the other two slices unchanged |
| AvatarUrl.ReformatAvatarUrl | src/helper/file.js:5-7 | null stays null, length is preserved, a URL without "/com" is returned unchanged, and otherwise the result is the input with just the '/' of the first "/com" turned into '.' |
| AvatarUrl.ReplaceIsUpdate | src/helper/file.js:6 | Replacing one occurrence of "/com" by ".com" is the same as rewriting its '/' alone |
| AvatarUrl.ReformatRemovesFirstOccurrence | src/helper/file.js:6 | After the rewrite no "/com" starts at or before the first match, and the text after it is untouched |
| AvatarUrl.ReformatFirstSlashCom | src/helper/file.js:6 | With no '/' before it, pre + "/com" + post becomes pre + ".com" + post |
| AvatarUrl.ReformatNotIdempotent | src/helper/file.js:6 | Only the first occurrence is replaced: a second application rewrites the next "/com", so the normaliser is not idempotent |
| Common.FindFirst | src/helper/file.js:6 | The index found is an occurrence of the pattern with no earlier one; no index means no occurrence anywhere (the search `replace` and `includes` perform) |
| Common.FindIndex | src/components/Messages/Messages.js:61-65 | findIndex: -1 exactly when no element satisfies the predicate, otherwise the first index that does |
| Common.DecimalStringInjective | src/components/Messages/Messages.js:231 | The decimal rendering in the label tells different counts apart |
| Messages.Dedup | src/components/Messages/Messages.js:224-229 | The unique-author list holds exactly the names of the messages, each once |
| Messages.DedupFirstAppearance | src/components/Messages/Messages.js:224-229 | The unique authors are listed in the order of their first message |
| Messages.DedupLength | src/components/Messages/Messages.js:224-229 | The unique-author list is as long as the set of distinct names is large |
| Messages.UniqueCountOrderIndependent | src/components/Messages/Messages.js:224-229 | Two message lists with the same authors, counted with multiplicity, have the same unique-author count whatever their order |
| Messages.UsersLabel | src/components/Messages/Messages.js:230-231 | The label of countUniqueUsers: the count in decimal, then " user", then an "s" exactly when the count is not 1 (zero included) |
| Messages.UsersLabelInjective | src/components/Messages/Messages.js:230-231 | Different counts give different labels |
| Messages.CountUniqueUsers | src/components/Messages/Messages.js:223-233 | The label computed by the loop is the label for the number of distinct author names |
| Messages.Tally | src/components/Messages/Messages.js:236-246 | The reduce of countUserPosts, one message at a time; every entry has a count of at least one (its full contract is TallyCorrect) |
| Messages.TallyCorrect | src/components/Messages/Messages.js:235-246 | The tally has an entry for exactly the author names; each count is the number of that author's messages; the avatar is the one of the author's first message |
| Messages.TallySumIsMessageCount | src/components/Messages/Messages.js:235-246 | The counts over the authors add up to the number of messages |
| Messages.CountUserPosts | src/components/Messages/Messages.js:235-248 | The loop builds the tally that `Tally` specifies |
| Messages.Registered | src/components/Messages/Messages.js:60-71 | addToListeners records the triple: the registry is unchanged when an equal triple is there, otherwise it grows by exactly that one; what was there stays a prefix, and no duplicate is ever introduced |
| Messages.MountListeners | src/components/Messages/Messages.js:77-80 | The listeners addListeners registers (the addToListeners calls at lines 134, 96 and 105), in this order: message child_added, then typing child_added, then typing child_removed, all keyed by the channel id; the three are distinct |
| Messages.MountRegistry | src/components/Messages/Messages.js:34-41 | The corrected mount: the three addToListeners calls, each seeing the registry the previous one left; the old registry stays a prefix, and at most one entry is added per listener |
| Messages.MountRegistryBatched | src/components/Messages/Messages.js:34-41 | The mount as written: every call extends the same snapshot and the last write wins, so at most one listener is added, and it is one of the pending ones |
| Messages.MountRegistryComplete | src/components/Messages/Messages.js:34-41 | Registering listeners one after the other keeps the registry duplicate-free and records exactly the old and the pending listeners |
| Messages.MountRegistryBatchedLeaks | src/components/Messages/Messages.js:34-41 | With React's batched updates only the last of the three listeners is recorded; the message listener is missing, while sequential registration records it |
| Messages.WithoutTypingUser | src/components/Messages/Messages.js:98-104 | The typing list after child_removed: exactly the entries with another id, each kept as often as it occurred; the same list when none has that id |
| Messages.WithoutTypingUserKeepsOrder | src/components/Messages/Messages.js:101 | The removal keeps the order of the remaining entries (it distributes over concatenation) |
| Messages.SearchHit | src/components/Messages/Messages.js:209-212 | The reduce's test: a match in non-empty content is a hit; a match of the author name is a hit; for empty content only the author name is tested; a message matching in neither place is no hit |
| Messages.SearchMessages | src/components/Messages/Messages.js:205-216 | The search results are at most as many as the messages and hold exactly the loaded messages whose non-empty content or author name matches |
| Messages.SearchResultsExact | src/components/Messages/Messages.js:205-216 | Each matching message is kept as often as it was loaded and every other one is dropped; the selection keeps order (it distributes over concatenation) |
| Messages.DisplayChannelName | src/components/Messages/Messages.js:266-267 | "" exactly without a channel; otherwise the channel name behind its first character, which is '@' for a private channel and '#' for a public one |
| Messages.GetMessagesRef | src/components/Messages/Messages.js:151-154 | The private message store exactly when the channel is private |
| Messages.MessagesView.constructor | src/components/Messages/Messages.js:13-32 | The initial view state, taken from the props |
| Messages.MessagesView.ComponentDidMount | src/components/Messages/Messages.js:34-41 | With a channel and a user the three listeners are registered one after the other (the corrected registration); otherwise nothing changes |
| Messages.MessagesView.AddToListeners | src/components/Messages/Messages.js:60-71 | The registry becomes `Registered` of the old registry and the triple |
| Messages.MessagesView.OnTypingAdded | src/components/Messages/Messages.js:87-95 | A typing entry of the current user is ignored; any other is appended |
| Messages.MessagesView.OnTypingRemoved | src/components/Messages/Messages.js:98-104 | Every entry with that id is dropped, the list is kept when none has it |
| Messages.MessagesView.OnMessageAdded | src/components/Messages/Messages.js:122-135 | The message is appended in delivery order, loading ends, the label is that of the distinct authors and the dispatched action carries the tally of all messages |
| Messages.MessagesView.OnStarredLoaded | src/components/Messages/Messages.js:137-149 | With a starred list the flag says whether the channel is in it; without one it is kept |
| Messages.MessagesView.HandleStar | src/components/Messages/Messages.js:156-191 | The flag flips in every case. There is a write exactly when the channel, the user and, when starring, the channel's creator are present; otherwise starChannel throws. The write is a star with the channel's name, details and creator exactly when the flag is now set, otherwise an unstar |
| Messages.MessagesView.HandleSearchChange | src/components/Messages/Messages.js:193-216 | The term is stored, the spinner starts and the results are the search over the loaded messages |
| Messages.MessagesView.OnSearchTimeout | src/components/Messages/Messages.js:218-220 | The search spinner stops |
| Messages.MessagesView.IsProgressBarVisible | src/components/Messages/Messages.js:260-264 | The progress bar appears once a positive percentage is reported and never disappears |
| Messages.MessagesView.DisplayedMessages | src/components/Messages/Messages.js:326-328 | The search results while a term is entered, all loaded messages otherwise |
| MessageForm.RunLength | src/components/Messages/MessageForm.js:72 | The greedy run of the character class [A-Za-z0-9_+-]: all its characters are in the class and the next one is not |
| MessageForm.ShortcodeAt | src/components/Messages/MessageForm.js:72 | A match of the shortcode pattern is a colon, a non-empty name of class characters and a colon |
| MessageForm.Tokenize | src/components/Messages/MessageForm.js:72 | Every shortcode the global scan finds has a well-formed name |
| MessageForm.TokenizeRoundTrip | src/components/Messages/MessageForm.js:72 | Spelling the pieces of the scan gives the input back: the scan loses no text |
| MessageForm.MatchSpelling | src/components/Messages/MessageForm.js:72 | A match is its name between the two colons it was found with |
| MessageForm.TokenizeStep | src/components/Messages/MessageForm.js:72 | The global scan takes one piece off a non-empty input: the input is that piece's spelling followed by the rest, and a character other than ':' is a plain piece |
| MessageForm.Replacement | src/components/Messages/MessageForm.js:73-82 | The replacement of one match: the native character when the table has one, otherwise the name put back between its colons |
| MessageForm.ColonToUnicode | src/components/Messages/MessageForm.js:71-84 | colonToUnicode: shortcodes missing from the table, or without a native character, come back with their colons, so a text whose shortcodes are all unknown is returned unchanged. Its body is `Render`/`PieceText`: the `replace` callback of lines 72-83 applied to each piece of the scan |
| MessageForm.RenderUnknown | src/components/Messages/MessageForm.js:75-82 | Rendering pieces whose shortcodes are all unknown spells them as they were |
| MessageForm.ColonToUnicodeNoMatch | src/components/Messages/MessageForm.js:72 | A text in which the pattern matches nowhere is returned unchanged |
| MessageForm.PlainPrefixPreserved | src/components/Messages/MessageForm.js:71-84 | Text before a shortcode is kept: a colon-free prefix passes through unchanged |
| MessageForm.RenderPlainPrefix | src/components/Messages/MessageForm.js:71-84 | The same for the scan and the rendering: a colon-free prefix is copied |
| MessageForm.NoShortcodeHere | src/components/Messages/MessageForm.js:71-84 | Where no colon, class name and colon start the text (a stray ':' included), the first character is copied and the rest is converted on its own |
| MessageForm.SpaceSeparates | src/components/Messages/MessageForm.js:65 | No shortcode spans a space: text joined by a space is converted on each side independently, as for the draft and a picked emoji |
| MessageForm.TokenizeAroundSpace | src/components/Messages/MessageForm.js:72 | The global scan of two texts joined by a space is the scan of each, with the space as a plain piece between them |
| MessageForm.ShortcodeReplaced | src/components/Messages/MessageForm.js:71-84 | A shortcode becomes its replacement, the native character when the table has one, and the rest is converted on its own |
| MessageForm.RunLengthOfName | src/components/Messages/MessageForm.js:72 | The run starting at a name followed by a non-class character is exactly that name |
| MessageForm.AddEmojiAppendsNative | src/components/Messages/MessageForm.js:63-69 | Picking a known emoji gives the converted draft, a space and the emoji's native character, whatever the draft holds; a colon-free draft is kept as it is |
| MessageForm.StoragePath | src/components/Messages/MessageForm.js:132-138 | getPath: "chat/private/" followed by the channel id for a private channel, "chat/public" otherwise; the seventh character tells the two apart |
| MessageForm.FilePath | src/components/Messages/MessageForm.js:143 | The file path: the folder of getPath, '/', the uuid and ".jpg" |
| MessageForm.FilePathInjective | src/components/Messages/MessageForm.js:132-143 | Two uploads share a storage path only with the same uuid, the same kind of channel and, when private, the same channel |
| MessageForm.EmptyDraftErrorMentionsMessage | src/components/Messages/MessageForm.js:127 | The empty-draft error mentions "message", so the draft input is marked as erroneous |
| MessageForm.UploadStateText | src/components/Messages/MessageForm.js:16 | The strings stored for the upload states: "", "uploading", "error" and "done", one for each state |
| MessageForm.Composer.constructor | src/components/Messages/MessageForm.js:11-24 | The initial composer state: empty draft, no errors, not loading, no upload, picker closed |
| MessageForm.Composer.CreateMessage | src/components/Messages/MessageForm.js:86-102 | The author is copied from the user, the content is the draft, and there is an image exactly when a file URL is given |
| MessageForm.SomeErrorContains | src/components/Messages/MessageForm.js:241 | errors.some(... includes(word)) as a fold over the errors: true exactly when some error message contains the word, case-sensitively |
| MessageForm.Composer.MessageInputError | src/components/Messages/MessageForm.js:240-244 | The class of the draft input: "error" exactly when some error message contains "message" (case-sensitively), "" otherwise and when there are no errors |
| MessageForm.Composer.UploadDisabled | src/components/Messages/MessageForm.js:258 | The upload button is disabled exactly when the stored upload state is "uploading" |
| MessageForm.Composer.HandleChange | src/components/Messages/MessageForm.js:41-43 | The draft takes the typed value |
| MessageForm.Composer.HandleTogglePicker | src/components/Messages/MessageForm.js:59-61 | The picker flag flips |
| MessageForm.Composer.HandleAddEmoji | src/components/Messages/MessageForm.js:63-69 | The draft becomes the conversion of old draft + " " + colons and the picker closes |
| MessageForm.Composer.SendMessage | src/components/Messages/MessageForm.js:104-130 | A non-empty draft starts the write of the message and sets loading; an empty one writes nothing and appends "Add a message", which marks the input |
| MessageForm.Composer.OnSendSucceeded | src/components/Messages/MessageForm.js:114-117 | The draft and the errors are cleared, loading ends and the typing marker is removed |
| MessageForm.Composer.OnSendFailed | src/components/Messages/MessageForm.js:118-124 | Loading ends and the error is appended to the list read when sending |
| MessageForm.Composer.HandleKeyDown | src/components/Messages/MessageForm.js:45-57 | Only Enter (13) sends: a non-empty draft starts the write and sets loading; an empty one leaves loading and appends "Add a message". The typing marker is set exactly when the draft is non-empty and removed otherwise |
| MessageForm.Composer.GetPath | src/components/Messages/MessageForm.js:132-138 | getPath on the composer's channel: chat/private/<channel id> for a private channel, chat/public otherwise |
| MessageForm.Composer.UploadFile | src/components/Messages/MessageForm.js:140-148 | The path is chat/private/<channel>/<uuid>.jpg or chat/public/<uuid>.jpg; the state becomes uploading and the upload button is disabled |
| MessageForm.Composer.OnUploadFailed | src/components/Messages/MessageForm.js:159-165 | The error is appended, the state becomes "error", the task is dropped and the button is enabled again (also lines 173-178) |
| MessageForm.Composer.SendFileMessage | src/components/Messages/MessageForm.js:187-191 | The image message written is the message record with the file URL as its image |
| MessageForm.Composer.OnFileMessageSent | src/components/Messages/MessageForm.js:192-194 | The state becomes "done" and the button is enabled again |
| MessageForm.Composer.OnFileMessageFailed | src/components/Messages/MessageForm.js:195-200 | Only the error is appended; the upload state stays as it was, so an upload stays "uploading" |
| MessageForm.Composer.ComponentWillUnmount | src/components/Messages/MessageForm.js:26-31 | A running upload task is cancelled and dropped |
| Login.IsFormValid | src/components/Auth/Login.js:56 | The form is valid exactly when both e-mail and password are non-empty |
| Login.SomeErrorMentions | src/components/Auth/Login.js:65-68 | Some error message, lower-cased, contains the input name |
| Login.HandleInputError | src/components/Auth/Login.js:64-71 | "error" exactly when some lower-cased error message contains the input name, "" otherwise and for no errors |
| Login.DisplayErrors | src/components/Auth/Login.js:24-28 | One entry per error, its message, in order |
| Login.LoginForm.constructor | src/components/Auth/Login.js:17-22 | The initial form state: empty fields, no errors, not loading |
| Login.LoginForm.HandleChange | src/components/Auth/Login.js:30-34 | The named field takes the value, the other field is unchanged |
| Login.LoginForm.HandleSubmit | src/components/Auth/Login.js:36-54 | An invalid form changes nothing and sends nothing; a valid one clears the errors, sets loading and sends the e-mail and password |
| Login.LoginForm.OnSignInFailed | src/components/Auth/Login.js:46-51 | The error is appended (and shown last) and loading ends |

## Left out

- Messages.MessagesView.ComponentDidMount: the view registers its listeners with the corrected, sequential registration (`MountRegistry`). The batched registration that React actually performs is modelled separately by `MountRegistryBatched` (see Findings).
- MessageForm.Composer: the composer is modelled with a selected channel. Until the side panel selects the first channel, the `channel` prop is null. In that case `handleKeyDown` and `sendMessage` throw on `channel.id`, after `sendMessage` has already set `loading`. That case is not modelled.
- Messages.MessagesView.HandleStar: a `starChannel` that throws is modelled as "no write". The console output of the `remove` callback is not modelled.
- Firebase: database references, `on`/`off`/`once`, `push`/`set`/`update`/`remove`, `onDisconnect`, storage `put`/`getDownloadURL` and authentication are not modelled. Writes come back as values, and outcomes are separate callback methods that the caller picks. `ServerValue.TIMESTAMP` is the constructor `ServerTimestamp`.
- `removeListeners`, the Messages `componentWillUnmount` and the `connectedRef` presence hook only call the backend; the registry they read is modelled.
- React rendering is not modelled: JSX, refs, `scrollIntoView`, the skeleton, the typing display, `openModal`/`closeModal` and the modal. The asynchronous ordering of `setState` is modelled only where it changes a result: the batched registry under "Findings", and the error list captured by `sendMessage`.
- Messages.MessagesView.OnSearchTimeout: the one-second `setTimeout` delay is not modelled; the timer firing is a method the caller invokes.
- Messages.SearchHit: the search uses `new RegExp(term, "gi")`. The regular-expression engine is not modelled; it is the parameter `matches(term, text)`. A term that is not a valid regular expression throws in the source; the model has no such case.
- Messages.MessagesView.HandleSearchChange: the results are computed when the term changes, as in the source, and are not refreshed when later messages arrive.
- Messages.Tally: author names are keys of a plain JavaScript object. A name such as "toString" or "__proto__" would hit `Object.prototype` with `in`; the model uses a map, where no name is special.
- Messages.MessagesView.OnTypingAdded: the source keeps the typing list in a closure variable and copies it into the state. Only these two callbacks write it, so the model keeps one field.
- Messages.MessagesView.IsProgressBarVisible: the percentage is a `real`; its floating-point computation from bytes transferred is not modelled.
- Common.LowerAscii: `toLowerCase` is modelled on ASCII letters only; Unicode case mapping is not modelled.
- MessageForm.ColonToUnicode: the emoji-mart index is a parameter map from name to an entry whose native character may be missing.
- MessageForm.Composer.UploadFile: `uuidv4` is an input. `FilePathInjective` assumes it contains no '/'. The percentage callback is not modelled.
- MessageForm.Composer.OnFileMessageFailed: as in the source, a failed image-message write leaves the upload state unchanged. An upload that reached this point therefore stays "uploading" and its button stays disabled.
- src/components/SidePanel/UserPanel.js, src/components/ColorPanel/ColorPanel.js, src/index.js and src/components/App.js are not part of this model. The colour panel's only state effect, SET_COLORS, is covered by the colours reducer.

## Findings

| source | as written | input that shows it | evidently intended | confidence | as-written member | corrected member |
|---|---|---|---|---|---|---|
| src/components/Messages/Messages.js:34-41, 60-71 | componentDidMount registers three listeners through three `addToListeners` calls. Each reads `this.state.listeners` and calls `setState({listeners: [...this.state.listeners, l]})`, and React batches these updates in a lifecycle method. Every call therefore extends the same empty snapshot, and the last write wins. | mounting with a channel and a user: the registry ends as the single typing child_removed listener. The message child_added and typing child_added listeners are never switched off by `removeListeners`. | each registration sees the previous one, so all three listeners are recorded | high (not executed) | Messages.MountRegistryBatched, Messages.MountRegistryBatchedLeaks | Messages.MountRegistry, Messages.MountRegistryComplete |
