# Loner: the rules inside the chat page, the registration modals and the profile page

Loner is a React front end for anonymous chat "spaces". Its views embed a few
small rules in their event handlers. This project restates those rules in
Dafny and proves properties of them. It covers three source files:

- **The chat page** (`class ChatPage.Chat`):
  - the live message list fed by the socket, which drops a payload whose `id` is already listed;
  - how the socket's close codes are read, and when the hook reconnects;
  - the send gate on the socket's ready state;
  - the "pinned to the bottom" scroll flag, and the trigger that asks for an older page of history.
- **The registration modals** (`class RegistrationModals.RegistrationModal` and `class RegistrationModals.SpaceCreateModal`):
  - the ordered name checks: blank, then too short, then the pattern `^[a-zA-Z][a-zA-Z0-9_-]+$`;
  - the multipart form each modal submits, as the ordered list of appended (key, value) pairs;
  - the submit-button logic while a space name is being typed;
  - the upload size limit.
- **The profile page** (`class ProfilePage.LonerPage`):
  - the paging rule shared by every infinite query (`Paging`);
  - the handlers that flatten all fetched pages into one list;
  - the not-found flag;
  - the owner check that shows the edit control.

Three modules serve the others:

- `JsText` models the JavaScript string operations the views rely on: `String.prototype.trim` with the ECMAScript whitespace set, decimal text inside a template literal, and the string-to-number conversion that `==` applies.
- `Paging` holds `getNextPageParam`.
- `Nullable` holds `Option`, which stands for `null`/`undefined`.

Each React state variable is a field of a class. Each handler or effect is a
method that updates those fields. The flattening loops are `while` loops
proved against the function `Flatten`.

Inputs that come from outside the page are parameters:

- socket events, ready states, pushed payloads and close codes;
- the scroll geometry;
- `navigator.onLine` and the stored session id;
- the length limits from `constants/lengths` and the MIME-type-to-extension table from `constants/file` (those files are not part of this model);
- the results of image compression, cropping and avatar generation.

## Model

| member | source | states |
|---|---|---|
| Paging.NextPageParam | loner/src/pages/loner-page.js:129-133 | the next page param is present exactly when `current < pages`; it is then `current + 1`, so it is above `current` and at most `pages`; the chat history query (chat-page.js:127-131) and the recent (155-158) and moderating (180-183) queries share this one rule |
| Paging.CursorChainIsRange | loner/src/pages/chat-page.js:127-131 | following the rule from page `current` requests exactly pages `current+1` to `pages`, in order, then stops |
| Paging.CursorChainStrictlyIncreasing | loner/src/pages/loner-page.js:129-133 | no page is requested twice, and none beyond the last page |
| JsText.TrimEmptyIffAllWhitespace | loner/src/pages/chat-page.js:182 | `!s.trim()` holds exactly when every character of `s` is whitespace |
| JsText.TrimIsCore | loner/src/modals/registration-modals.js:99 | the trimmed string is a slice of the original with only whitespace around it |
| JsText.TrimIdempotent | loner/src/modals/registration-modals.js:153 | trimming twice is trimming once |
| JsText.NatToDecimal | loner/src/modals/registration-modals.js:373 | the decimal text of a number is non-empty, all digits, and has no leading zero |
| JsText.DecimalRoundTrip | loner/src/modals/registration-modals.js:373 | reading back the decimal text of `n` gives `n` |
| JsText.StringToNumberOfDecimal | loner/src/pages/loner-page.js:235 | a session id stored as the decimal text of `n` is loosely equal to the number `n` |
| ChatPage.ClassifyClose | loner/src/pages/chat-page.js:93-107 | close code 3401 means banned and 3404 means the space is missing; every other code is transient |
| ChatPage.ReconnectExactlyWhenTransient | loner/src/pages/chat-page.js:111-118 | `shouldReconnect` is false exactly for the two codes `onClose` treats as refusals; both are application codes (3000-3999, section 7.4.2 of RFC 6455) |
| ChatPage.AppendLiveEffect | loner/src/pages/chat-page.js:155-157 | a payload with a new id becomes the last entry and earlier entries are unchanged; a null payload or a listed id leaves the list as it was |
| ChatPage.AppendLiveIdempotent | loner/src/pages/chat-page.js:155-159 | receiving the same payload twice changes the list only once |
| ChatPage.AppendLiveKeepsUnique | loner/src/pages/chat-page.js:155-159 | the append never creates two entries with the same id |
| ChatPage.ReplayFreshStream | loner/src/pages/chat-page.js:153-161 | payloads with distinct new ids end up after the old entries, in the order received |
| ChatPage.ReplayLiveProperties | loner/src/pages/chat-page.js:153-161 | after any stream: ids stay unique, the old list is a prefix, and every received id is present |
| ChatPage.ReplayKnownStream | loner/src/pages/chat-page.js:155 | a stream of ids that are all listed already changes nothing |
| ChatPage.ReplayLiveGrows | loner/src/pages/chat-page.js:153-161 | for any list, unique ids or not, the old list stays a prefix and every received id is present |
| ChatPage.ReplayLiveIdempotent | loner/src/pages/chat-page.js:153-161 | replaying a whole stream a second time leaves any list unchanged |
| ChatPage.ContainsId | loner/src/pages/chat-page.js:155 | the `some` scan finds an entry with the id exactly when the list holds one |
| ChatPage.SubmitDecisionCases | loner/src/pages/chat-page.js:180-206 | whitespace-only text is ignored; otherwise CONNECTING or CLOSED refuses with a notice, and every other ready state sends the untrimmed text |
| ChatPage.FetchOnlyWhilePagesRemain | loner/src/pages/chat-page.js:228-230 | once the last page is known, older history is requested only near the top and only while the paging rule names a next page |
| ChatPage.ScrolledToBottom | loner/src/pages/chat-page.js:208-213 | setting `scrollTop` to `scrollHeight` leaves the view at the bottom, with the geometry otherwise unchanged |
| ChatPage.Chat.constructor | loner/src/pages/chat-page.js:139-144 | the initial state; a visitor who has never sent a message gets the suggested text |
| ChatPage.Chat.OnClose | loner/src/pages/chat-page.js:91-109 | the two refusal codes set their reason and disable messaging; other codes only post the reconnect notice; messaging stays enabled exactly when the hook reconnects |
| ChatPage.Chat.OnSocketError | loner/src/pages/chat-page.js:119-122 | a socket error posts the "something went wrong" notice |
| ChatPage.Chat.OnLiveMessage | loner/src/pages/chat-page.js:153-161 | the list becomes `AppendLive` of the old list, and ids stay unique |
| ChatPage.Chat.ScrollOnNewMessages | loner/src/pages/chat-page.js:163-169 | the view jumps to the bottom only while pinned; otherwise it is untouched |
| ChatPage.Chat.HandleChatScroll | loner/src/pages/chat-page.js:215-233 | the pinned flag equals the 50-pixel bottom test; the fetch trigger is near-top-or-no-overflow while `hasNextPage` is undefined or true |
| ChatPage.Chat.SubmitMessage | loner/src/pages/chat-page.js:180-206 | the outcome is `SubmitDecision`; a refusal keeps the text and sets the notice; a send appends the frame, clears the text and sets the first-message flag |
| ChatPage.Chat.EditText | loner/src/pages/chat-page.js:264 | the text box holds what was typed |
| ChatPage.Chat.OnOnlineStatus | loner/src/pages/chat-page.js:171-178 | going offline posts the offline notice |
| ChatPage.Chat.NoticeTimedOut | loner/src/pages/chat-page.js:242 | the timed notice is cleared |
| RegistrationModals.NamePatternAutomaton | loner/src/modals/registration-modals.js:105 | the matching automaton accepts exactly the strings of the pattern |
| RegistrationModals.AcceptedNameShape | loner/src/modals/registration-modals.js:105 | an accepted name has at least two characters, starts with a letter and has no surrounding whitespace |
| RegistrationModals.ValidateNameCases | loner/src/modals/registration-modals.js:93-109 | the first failing check decides the error: blank, then too short (the trimmed name's `.length` in UTF-16 units below the minimum), then the pattern; a name passes exactly when the pattern accepts it and it is long enough |
| JsText.Utf16LengthBounds | loner/src/modals/registration-modals.js:99 | `.length` counts UTF-16 units: never fewer than the characters, at most twice as many, and equal to them exactly when no character lies outside the Basic Multilingual Plane |
| RegistrationModals.PaddedNameRejected | loner/src/modals/registration-modals.js:105 | a name with whitespace at either end is rejected, because the pattern sees the untrimmed name |
| RegistrationModals.LookupAppendIf | loner/src/modals/registration-modals.js:114-127 | a conditional `append` adds its key exactly when the condition holds and changes no other key |
| RegistrationModals.AppendIfFresh | loner/src/modals/registration-modals.js:114-127 | appending a key not yet present keeps keys distinct and stores the value under that key |
| RegistrationModals.RegistrationFormFields | loner/src/modals/registration-modals.js:114-127 | `name` only when registering; `avatar` only when its URL changed, named `loner-<name>.<ext>`; `tag_line`, trimmed, only when it changed; no key twice |
| RegistrationModals.SpaceFormFields | loner/src/modals/registration-modals.js:318-329 | the space form starts with `name`; it has `icon` only with a file, and `tag_line`/`about` only when non-empty; no key twice |
| RegistrationModals.StaleLengthCounterexample | loner/src/modals/registration-modals.js:347-357 | as written, the button stays disabled for the valid "abc" and is enabled for the too-short "ab" (minimum 3) |
| RegistrationModals.IntendedEnablesExactlyValidNames | loner/src/modals/registration-modals.js:347-357 | deciding on the new value enables the button exactly for names `handleSubmit` accepts |
| RegistrationModals.NameChangeFlagCounterexample | loner/src/modals/registration-modals.js:347-355 | as written, with minimum 3, "1ab" typed after "ab" raises no error although `handleSubmit` reports the pattern, and "1a" left after "abcd" raises the pattern error where `handleSubmit` reports the name too short |
| RegistrationModals.IntendedNameChangeFlagAgreesWithSubmit | loner/src/modals/registration-modals.js:347-355 | deciding on the new value, the pattern error is raised only for names `handleSubmit` rejects, and for a non-blank name exactly when `handleSubmit` reports the pattern |
| RegistrationModals.InputChangeCounterexample | loner/src/modals/registration-modals.js:159-166 | as written, "1a" typed after "1" raises no error although it fails the pattern, and "a" after "ab" raises the pattern error on a one-letter prefix of a valid name |
| RegistrationModals.IntendedInputChangeAgreesWithSubmit | loner/src/modals/registration-modals.js:159-166 | deciding on the new value, the input error implies `handleSubmit` rejects the name for every minimum, with the pattern message for every minimum the name meets; for two or more units it is raised exactly when `handleSubmit` with minimum 2 reports the pattern |
| RegistrationModals.RegistrationModal.constructor | loner/src/modals/registration-modals.js:39-49 | the avatar starts at the user's URL with no file; name, tag line and errors take their initial values |
| RegistrationModals.RegistrationModal.AvatarGenerated | loner/src/modals/registration-modals.js:73-89 | a generated avatar replaces the current one; a failure keeps it and sets the avatar error |
| RegistrationModals.RegistrationModal.HandleSubmit | loner/src/modals/registration-modals.js:91-133 | a failing check sets its message and the input error and submits nothing; offline only sets a message; an unchanged update submits nothing; otherwise `RegistrationForm` is submitted, with the session id on an update; a submitted form always has a name the pattern accepts, and its `avatar` field always carries a file |
| RegistrationModals.RegistrationModal.HandleInputChange | loner/src/modals/registration-modals.js:151-167 | the trimmed value is stored and the error cleared; a value of two or more UTF-16 units that fails the pattern raises the pattern error; when raised, `handleSubmit` rejects the name whatever the minimum, and reports the pattern whenever the name meets the minimum (length tested on the new value, corrected as in Findings) |
| RegistrationModals.RegistrationModal.EditTagLine | loner/src/modals/registration-modals.js:221 | the tag line holds what was typed |
| RegistrationModals.SpaceCreateModal.constructor | loner/src/modals/registration-modals.js:252-267 | an empty form with no icon and the submit button disabled |
| RegistrationModals.SpaceCreateModal.HandleSubmit | loner/src/modals/registration-modals.js:294-332 | the same ordered checks with the space messages; offline stops with a message; otherwise `SpaceForm` is submitted, never with `about` |
| RegistrationModals.SpaceCreateModal.HandleNameChange | loner/src/modals/registration-modals.js:334-358 | the trimmed value is stored and the error cleared; the pattern error is raised exactly for a value of at least the minimum in UTF-16 units that fails the pattern, only for names `handleSubmit` rejects and, for a non-blank name, exactly when it reports the pattern; the button ends enabled exactly when `handleSubmit` would accept the stored name (length tested on the new value, corrected as in Findings) |
| RegistrationModals.SpaceCreateModal.EditTagLine | loner/src/modals/registration-modals.js:464 | the tag line holds what was typed |
| RegistrationModals.SpaceCreateModal.HandleImageUpload | loner/src/modals/registration-modals.js:361-385 | an image over the limit sets the size error and keeps the icon; otherwise it becomes the icon |
| RegistrationModals.SpaceCreateModal.PressNext | loner/src/modals/registration-modals.js:478-480 | the Next button starts the crop only while enabled |
| RegistrationModals.SpaceCreateModal.HandleCroppedImage | loner/src/modals/registration-modals.js:387-397 | the crop ends and the cropped image becomes the icon, but the form submitted holds the icon from before the crop; a failing check sets its message and the input error, offline sets the offline message, and a submission leaves both unchanged |
| RegistrationModals.SpaceCreateModal.OnCreated | loner/src/modals/registration-modals.js:281-291 | after a creation the icon is cleared |
| ProfilePage.FlattenLength | loner/src/pages/loner-page.js:141-146 | the flattened list is as long as all pages' results together |
| ProfilePage.FlattenAppend | loner/src/pages/loner-page.js:139-148 | flattening two runs of pages concatenates their flattenings |
| ProfilePage.FlattenSplit | loner/src/pages/loner-page.js:141-146 | the flattened list is the pages before `k`, then page `k`'s results, then the pages after it |
| ProfilePage.FlattenPosition | loner/src/pages/loner-page.js:141-146 | result `j` of page `k` sits at the number of results before page `k`, plus `j`: page order and in-page order are kept |
| ProfilePage.FlattenPages | loner/src/pages/loner-page.js:139-148 | the nested loops build exactly `Flatten(pages)` |
| ProfilePage.EditControlNullCounterexample | loner/src/pages/loner-page.js:235 | as written, a visitor with no stored id sees the edit control while the profile's id is `null` |
| ProfilePage.IntendedEditControlOwnerOnly | loner/src/pages/loner-page.js:235 | the intended check needs a stored id and a loaded id; for a decimal id it shows the control exactly to the loner's own session |
| ProfilePage.LonerPage.constructor | loner/src/pages/loner-page.js:85-97 | queries are disabled, there is no 404, the id is `null`, and the lists are empty |
| ProfilePage.LonerPage.OnRouteParam | loner/src/pages/loner-page.js:101-106 | a non-empty `loner` parameter enables the queries; nothing disables them again |
| ProfilePage.LonerPage.OnUserLoaded | loner/src/pages/loner-page.js:110-118 | the profile data becomes the loaded user's |
| ProfilePage.LonerPage.OnUserError | loner/src/pages/loner-page.js:120-124 | status 404 sets the not-found flag; any other status leaves it unchanged |
| ProfilePage.LonerPage.OnTrendingPages | loner/src/pages/loner-page.js:137-149 | the trending list is replaced wholesale by the flattened pages |
| ProfilePage.LonerPage.OnRecentPages | loner/src/pages/loner-page.js:163-174 | the recent list is replaced wholesale by the flattened pages |
| ProfilePage.LonerPage.OnModeratingPages | loner/src/pages/loner-page.js:189-200 | the moderating list is replaced wholesale by the flattened pages |
| ProfilePage.LonerPage.ShowsEditControl | loner/src/pages/loner-page.js:229-241 | the control shows only without the 404 page, under a `loner` parameter, with a stored id and a loaded id, and when the stored id converts to the loaded one; the as-written check then holds too (both ids required, corrected as in Findings) |

## Left out

- **Rendering.** JSX, CSS classes, `HorizontalSection` and its `handleScroll` are left out; `handleScroll` only logs. So is the timed-message component.
- **Libraries.**
  - react-query's caching, refetching and `staleTime`: fetched pages and errors arrive as inputs.
  - react-use-websocket's transport and reconnect scheduling: only the policy is modelled.
  - The socket URL effect (chat-page.js:146-150).
- **Network calls.** `createUser`, `updateUser`, `createSpace`, `getMessages`, `listSpaces` and `getUser` are foreign calls. The mutation itself is modelled as the returned submission.
- **Mutation error handlers** (registration-modals.js:135-143, 272-280). They depend on `getErrorCodeDescription`, which is not part of this model, and they assign to a `const`.
- **Generated and browser-supplied values.**
  - The random suggestion text and `randInt` are parameters.
  - The avatar generator, image compression, `CropImage` and `URL.createObjectURL` are parameters.
  - `getFileSize` is a parameter, and sizes are whole numbers.
- **The offline check at chat-page.js:185.** It compares `process.env`, an object, with a string, so it can never fire.
- **Deletions and merging of history.** The chat list receives no delete events, and fetched history pages are not merged into it. The code does neither, so the model does neither.
- **Message sending while disabled.** The send button is rendered only while `messagable` holds (chat-page.js:262-266). `ChatPage.Chat.SubmitMessage` does not require `messagable`, because the handler itself does not check it.
- **`err.response` missing.** `ProfilePage.LonerPage.OnUserError` takes the response status. It does not model an error without a response, where reading `status` throws inside the handler.
- **The `name || randInt(...)` fallback** (registration-modals.js:123). It cannot fire, because the name has passed the blank check by then.
- **Avatar format.** `ProfilePage.LonerPage.OnUserLoaded` stores the avatar URL as a string and does not look inside it.
- **Number conversion.** `JsText.StringToNumber` reads integers with an optional sign and surrounding whitespace. Fractions, exponents, hex, `Infinity` and the thousands of other forms JavaScript accepts read as NaN here. So `ProfilePage.LonerPage.ShowsEditControl` treats a session id such as `"7.0"` or `"0x7"` as unequal to 7, where JavaScript finds them equal.
- **Scroll geometry.** `ChatPage.ScrolledToBottom` uses whole-pixel values. Browsers may report fractional `scrollTop`.
- **Live payload ids.** A payload without an `id` compares as `undefined === undefined`, so the model keeps at most one id-less payload, as the code does.

## Findings

| source | as written | input that shows it | evidently intended | confidence | as-written member | corrected member |
|---|---|---|---|---|---|---|
| loner/src/modals/registration-modals.js:347-357 | the length test reads `spaceForm.name`, the name from before this keystroke, while the pattern test reads the new value | minimum 3: "ab" then "abc" keeps Next disabled for a valid name; "abcd" then "ab" enables it for a too-short name | decide on the new value, so the button is enabled exactly for names `handleSubmit` accepts | high, not executed | RegistrationModals.StaleLengthCounterexample | RegistrationModals.IntendedEnablesExactlyValidNames |
| loner/src/modals/registration-modals.js:347-355 | the same stale `spaceForm.name` length test also gates the pattern error | minimum 3: "ab" then "1ab" raises no error although the name fails the pattern; "abcd" then "1a" raises the pattern error for a name that is too short | raise the pattern error when the new value is long enough and fails the pattern | high, not executed | RegistrationModals.NameChangeFlagCounterexample | RegistrationModals.IntendedNameChangeFlagAgreesWithSubmit |
| loner/src/modals/registration-modals.js:159-166 | `handleInputChange` gates the pattern error on `name.length`, the name from before this keystroke, while the pattern test reads the new value | "1" then "1a": no error although "1a" fails the pattern; "ab" then "a": the pattern error shows for a one-letter prefix | raise the error when the new value has two or more units and fails the pattern | high, not executed | RegistrationModals.InputChangeCounterexample | RegistrationModals.IntendedInputChangeAgreesWithSubmit |
| loner/src/pages/loner-page.js:235 | `userid == lonerData.id` with loose equality; `null == null` is true | no stored `user-id` while the profile has not loaded, or after a non-404 error: the edit control shows | show the control only when a stored id converts to the loaded id | high, not executed | ProfilePage.EditControlNullCounterexample | ProfilePage.IntendedEditControlOwnerOnly |

The as-written decisions are the functions `RegistrationModals.NameChangeEnablesSubmit`, `RegistrationModals.NameChangeFlagsPattern`, `RegistrationModals.InputChangeFlagsPattern` and `ProfilePage.EditControlVisible`. The class methods use the corrected ones.

`RegistrationModals.SpaceCreateModal.HandleCroppedImage` models a third behaviour as written. `handleCroppedImage` (registration-modals.js:387-397) calls `handleSubmit` in the same render, so the form carries the icon from before the crop. The source leaves it unclear whether that is intended, so it is not listed as a finding.
