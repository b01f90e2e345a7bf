# soulmate-ai-x: the logic of the counselling chat, modelled in Dafny

The application is a React front end for a counselling chat. A user signs in, picks a
conversation theme, chats with an AI counsellor, edits a profile, and browses past
conversations grouped into sessions. Nearly everything it does is rendering and remote
calls to a hosted authentication, database and storage service. This project models the
rules that sit inside the component handlers. Each source file has its own module:

- `ChatHistory` (`chat_history.dfy`) models the chat-history dialog. `GroupMessages` runs the
  grouping `reduce` as a loop over the time-ordered messages, calling the reducer's callback
  `AddMessage` once per message; `BuildHistory` then sorts the sessions. The model proves these
  properties of the grouping:
  - **No message is lost or repeated.** Every message lands in exactly one session.
  - **The session boundary.** The first message opens a session. After that, message n is
    compared with the last message of the most recent session, which is message n-1 when
    message n-1 went into the most recent session. Under that condition, message n is due to
    start a new session iff (`SessionBoundary`):
    - the theme changes, or
    - the gap is *strictly* more than 30 minutes.

    A new session is actually opened only when the key it would get is fresh
    (`LongGapOpensSession`). Otherwise the message joins the session already under that key.
  - **Per-session invariants.** Every session has a single theme. Its date, timestamp and key
    come from its first message.
  - **Gap bounds.** Within a session, consecutive gaps are at most 30 minutes when keys do not
    collide. They lie in `[0, 30 min]` whenever the input is time-ordered, which the query
    guarantees, and each session is then a subsequence of the input.
  - **Newest first.** The history is a stable permutation of the sessions, sorted newest first.
  - **Order preservation, exactly.** Concatenating the sessions in insertion order gives back
    the input *iff* no message is appended to a session other than the most recent one
    (`OrderPreservedIffNoDisplacement`). A collision-free input always satisfies this.

  Keys *can* collide. A message can return to an earlier theme with the same `created_at`
  text as the message that opened that theme's session. It is then appended to that earlier
  session, so the order is broken (`CollisionReorders`). The model also covers:
  - pairing each user message with the first later assistant reply;
  - the expand toggles;
  - the "show N more" control.
- `ProfileDialog` (`profile_dialog.dfy`): the interest toggle, the 2 MB avatar limit, the save
  checks and the defaults of the saved row, the storage paths, loading with its fallbacks,
  and the `ProfileForm` state those handlers update.

  The old-avatar cleanup takes only the text after the last `/` of the stored public URL.
  That text is `avatar.<ext>` without the user's folder, so the file removed is not the one
  that was uploaded (`OldFileOfAvatarUrl`).
- `LoginPage` (`login_page.dfy`): the sign-up checks (confirmation first, then at least six
  characters), the sign-in and sign-up handlers with their loading flag and messages, the tab
  reset, the button-enable rules, the tab panels and the error carried in a redirect URL, as
  the `LoginForm` class.
- `ChatInput` (`chat_input.dfy`) models the draft box. JavaScript's `trim` is written out
  over the ECMAScript white-space set. The box sends the untrimmed draft only when it is not
  blank and input is enabled, then clears it. Enter without Shift attempts a send; other
  keys do not.
- `AuthContext` (`auth_context.dfy`): the provider's `user`, `session`, `sessionStartTime` and
  `loading`, as pure transitions (`AfterInit`, `AfterAuthEvent`, `AfterSignOut`) that the
  `AuthProvider` methods are proved to perform, with the invariants they keep. If
  initialisation answers "no session" after an auth event has already signed a user in, a
  start time without a session remains (`LateInitKeepsStaleStartTime`).
- `ThemeSelection` (`theme_selection.dfy`): the table of eight themes with distinct ids and
  the lookup that yields the navigation to `/chat`. `src/pages/ThemeSelectionPage.tsx`
  (lines 11-23) has the same handler over the same table, so `HandleThemeSelect` models both.
- `Common` (`common.dfy`): nullable values, results of calls that may throw, and the
  JavaScript `x || fallback` on strings.

Remote calls become inputs: an `Ok`/`Err` outcome or the data a query returns. Clock
readings are inputs too: milliseconds for message times, ISO text for `new Date().toISOString()`.
The `yyyy-MM-dd` formatting of a timestamp is the function parameter `dateOf`.

## Model

| member | source | states |
|---|---|---|
| Common.OrElse | src/components/Profile/ProfileDialog.tsx:186-190 | `v \|\| fallback`: the value when it is a non-empty string, otherwise the fallback; empty only if the fallback is |
| ChatHistory.StepCreatesThenPushes | src/components/Chat/ChatHistoryDialog.tsx:79-88 | the one-step reducer equals "create the session under the key if absent (empty, with date, timestamp, theme label and key), then push the message into it" |
| ChatHistory.ShouldStartNewSession | src/components/Chat/ChatHistoryDialog.tsx:62-67 | the decision to open a session: no previous message, another theme, or a gap strictly over 30 minutes; `SessionBoundary` and `ExactlyThirtyMinutesJoins` state its boundary |
| ChatHistory.LastMessage | src/components/Chat/ChatHistoryDialog.tsx:69-70 | the last message of the last-inserted session, none before the first session; `LastMessageOfValid` shows it exists whenever a session does |
| ChatHistory.NewKey | src/components/Chat/ChatHistoryDialog.tsx:74 | the key of a session opened by a message: its date, theme id and `created_at` text |
| ChatHistory.TargetKey | src/components/Chat/ChatHistoryDialog.tsx:72-77 | the new key `NewKey(m)`, which may already name a session, when a new session is due; the last-inserted key otherwise; `JoinedThemeMatches` and `TargetGap` state what the chosen session holds |
| ChatHistory.ThemeLabel | src/components/Chat/ChatHistoryDialog.tsx:82 | the joined theme name, or 不明なテーマ when it is missing or empty; `Common.OrElse` states the choice |
| ChatHistory.LastKey | src/components/Chat/ChatHistoryDialog.tsx:76 | `Object.keys(acc).pop()`, the key inserted last; `StepJoinsLast` shows a message that opens no session joins it |
| ChatHistory.Step | src/components/Chat/ChatHistoryDialog.tsx:59-89 | one call of the reducer; `StepCreatesThenPushes` shows it is the source's create-then-push, `StepValid` and `StepKeepsEveryMessage` what it preserves |
| ChatHistory.LastMessageOfValid | src/components/Chat/ChatHistoryDialog.tsx:69-70 | the last message of the last-inserted session exists whenever a session does, and is the one the reducer reads |
| ChatHistory.StepValid | src/components/Chat/ChatHistoryDialog.tsx:58-90 | one step keeps keys distinct, the insertion order listing exactly the keys, and every session non-empty, single-themed and stamped from its first message |
| ChatHistory.JoinedThemeMatches | src/components/Chat/ChatHistoryDialog.tsx:62-77 | a message pushed into an existing session has that session's theme id |
| ChatHistory.GroupPrefix | src/components/Chat/ChatHistoryDialog.tsx:58-90 | the accumulator after the `reduce` has seen the first n messages; `PrefixValid`, `PrefixKeepsEveryMessage` and `PrefixOrderIffNoDisplacement` state what it holds |
| ChatHistory.Group | src/components/Chat/ChatHistoryDialog.tsx:58-90 | the accumulator after the whole `reduce`; `GroupKeepsEveryMessage` and `OrderPreservedIffNoDisplacement` state what it holds |
| ChatHistory.PrefixValid | src/components/Chat/ChatHistoryDialog.tsx:58-90 | the accumulator is well formed after any number of steps |
| ChatHistory.StepSessionsNew | src/components/Chat/ChatHistoryDialog.tsx:79-88 | a new key appends a one-message session at the end of `Object.values` |
| ChatHistory.StepSessionsExisting | src/components/Chat/ChatHistoryDialog.tsx:88 | an existing key appends the message to that session in place, everything else unchanged |
| ChatHistory.StepKeepsEveryMessage | src/components/Chat/ChatHistoryDialog.tsx:88 | one step adds exactly the new message to the multiset of grouped messages |
| ChatHistory.PrefixKeepsEveryMessage | src/components/Chat/ChatHistoryDialog.tsx:58-90 | after n steps the sessions hold exactly the first n messages, as a multiset |
| ChatHistory.GroupKeepsEveryMessage | src/components/Chat/ChatHistoryDialog.tsx:58-90 | every fetched message is in exactly one session: none lost, none duplicated |
| ChatHistory.StepNotDisplaced | src/components/Chat/ChatHistoryDialog.tsx:73-88 | a message joining the most recent session or opening a new one lands at the end of the concatenated sessions |
| ChatHistory.StepNotDisplacedLast | src/components/Chat/ChatHistoryDialog.tsx:69-70 | after such a step the reducer's "last message" is that message |
| ChatHistory.StepDisplaced | src/components/Chat/ChatHistoryDialog.tsx:79-88 | a message pushed into an earlier session does not end the concatenation |
| ChatHistory.DisplacedAfterLast | src/components/Chat/ChatHistoryDialog.tsx:69-79 | when a message is displaced, the most recent session still ends with another message |
| ChatHistory.StepOrderIff | src/components/Chat/ChatHistoryDialog.tsx:58-90 | one step extends an order-preserving grouping by `m` iff `m` is not displaced |
| ChatHistory.PrefixOrderIffNoDisplacement | src/components/Chat/ChatHistoryDialog.tsx:58-90 | the first n messages are reproduced in order iff none of them was displaced (both directions) |
| ChatHistory.UndisplacedKeepsOrder | src/components/Chat/ChatHistoryDialog.tsx:58-90 | no displacement among the first n messages implies the sessions concatenate to them |
| ChatHistory.DisplacementBreaksOrder | src/components/Chat/ChatHistoryDialog.tsx:58-90 | a displacement among the first n messages implies they are not reproduced in order |
| ChatHistory.OrderPreservedIffNoDisplacement | src/components/Chat/ChatHistoryDialog.tsx:58-90 | concatenating `Object.values` gives the input iff no message is displaced |
| ChatHistory.CollisionFreeNotDisplaced | src/components/Chat/ChatHistoryDialog.tsx:73-79 | a message whose new key does not collide is never displaced |
| ChatHistory.PrefixNoCollisionNoDisplacement | src/components/Chat/ChatHistoryDialog.tsx:73-79 | a collision-free prefix has no displacement |
| ChatHistory.InsertionOrderPreserved | src/components/Chat/ChatHistoryDialog.tsx:58-90 | without key collisions the sessions in insertion order concatenate to the input |
| ChatHistory.CollisionReorders | src/components/Chat/ChatHistoryDialog.tsx:74-79 | with three messages where the third returns to the first theme with the same `created_at` as the first message, there are two sessions and the order is first, third, second |
| ChatHistory.ExampleStep1 | src/components/Chat/ChatHistoryDialog.tsx:79-88 | the first message opens a one-message session under its own key |
| ChatHistory.ExampleStep2 | src/components/Chat/ChatHistoryDialog.tsx:62-88 | a theme change opens a second session after the first |
| ChatHistory.ExampleStep3 | src/components/Chat/ChatHistoryDialog.tsx:74-88 | a message with the first message's theme and `created_at`, after a theme change, gets the first session's key and is pushed into that first session |
| ChatHistory.ExampleFlatten | src/components/Chat/ChatHistoryDialog.tsx:92 | the resulting two sessions concatenate to first, third, second |
| ChatHistory.SessionBoundary | src/components/Chat/ChatHistoryDialog.tsx:62-67 | after an ordinary step, message n is due to start a new session iff its theme differs from message n-1 or the gap exceeds 30 minutes strictly |
| ChatHistory.ExactlyThirtyMinutesJoins | src/components/Chat/ChatHistoryDialog.tsx:65-66 | a gap of exactly 30 minutes with the same theme joins the most recent session |
| ChatHistory.StepJoinsLast | src/components/Chat/ChatHistoryDialog.tsx:75-76 | when no new session is due, the message is appended to the most recent session |
| ChatHistory.LongGapOpensSession | src/components/Chat/ChatHistoryDialog.tsx:62-88 | a gap over 30 minutes with a fresh key appends a new session opened by that message |
| ChatHistory.StepGapsAtMost | src/components/Chat/ChatHistoryDialog.tsx:62-88 | a non-colliding step keeps every session's consecutive gaps at most 30 minutes |
| ChatHistory.PrefixGapsAtMost | src/components/Chat/ChatHistoryDialog.tsx:58-90 | the gap bound holds after any collision-free prefix |
| ChatHistory.NoCollisionBoundsGaps | src/components/Chat/ChatHistoryDialog.tsx:58-90 | without collisions, every session's consecutive gaps are at most 30 minutes |
| ChatHistory.AppendWithinGap | src/components/Chat/ChatHistoryDialog.tsx:62-77 | a message joining an existing session without collision is within 30 minutes of its last message |
| ChatHistory.TargetGap | src/components/Chat/ChatHistoryDialog.tsx:62-79 | a message joining an existing session either is within 30 minutes of its last message or has the `created_at` text of the session's key (a collision) |
| ChatHistory.StepRunsForward | src/components/Chat/ChatHistoryDialog.tsx:58-90 | on time-ordered input one step keeps every session's messages a subsequence of the input so far, in time order with gaps of at most 30 minutes, none older than the session's timestamp |
| ChatHistory.TargetRunsForward | src/components/Chat/ChatHistoryDialog.tsx:79-88 | the session the message goes to still runs forward after the push |
| ChatHistory.AppendInTimeOrder | src/components/Chat/ChatHistoryDialog.tsx:88 | pushing the next time-ordered message keeps that session running forward |
| ChatHistory.PrefixRunsForward | src/components/Chat/ChatHistoryDialog.tsx:50-90 | after any prefix of time-ordered input every session is a subsequence of that prefix and runs forward in time |
| ChatHistory.TimeOrderedBoundsGaps | src/components/Chat/ChatHistoryDialog.tsx:50-90 | on time-ordered input, where equal `created_at` texts denote one instant, every session's consecutive gaps are between 0 and 30 minutes, collisions or not |
| ChatHistory.SortNewestFirst | src/components/Chat/ChatHistoryDialog.tsx:92-93 | the sorted sessions are newest first, a permutation of the input, and stable: sessions with equal timestamps keep their relative order |
| ChatHistory.History | src/components/Chat/ChatHistoryDialog.tsx:92-93 | `Object.values` of the grouping, sorted newest first; `HistoryKeepsEveryMessage` and `SortNewestFirst` state its order and contents |
| ChatHistory.HistoryKeepsEveryMessage | src/components/Chat/ChatHistoryDialog.tsx:58-95 | the shown history is newest first and holds every fetched message exactly once |
| ChatHistory.AddMessage | src/components/Chat/ChatHistoryDialog.tsx:58-90 | the reducer's callback, written as the source's statements, computes one step of the grouping |
| ChatHistory.PrefixLastSessionNonEmpty | src/components/Chat/ChatHistoryDialog.tsx:69-70 | the last-inserted session is never empty when the callback reads its last message |
| ChatHistory.GroupMessages | src/components/Chat/ChatHistoryDialog.tsx:58-90 | the loop running the callback over the messages in order leaves exactly the grouping `Group` of all messages |
| ChatHistory.BuildHistory | src/components/Chat/ChatHistoryDialog.tsx:58-93 | grouping followed by the sort yields exactly `History`, which is newest first and keeps every message |
| ChatHistory.ChatHistoryDialog.constructor | src/components/Chat/ChatHistoryDialog.tsx:39-42 | loading, an empty history, nothing expanded |
| ChatHistory.ChatHistoryDialog.LoadChatHistory | src/components/Chat/ChatHistoryDialog.tsx:45-103 | no user: nothing changes; a failed query: empty history; otherwise the grouped and sorted history; loading ends false |
| ChatHistory.ChatHistoryDialog.HandleToggleExpand | src/components/Chat/ChatHistoryDialog.tsx:111-116 | the session-expand map becomes its toggle at the key |
| ChatHistory.ChatHistoryDialog.HandleToggleMessages | src/components/Chat/ChatHistoryDialog.tsx:118-123 | the message-expand map becomes its toggle at the key |
| ChatHistory.ToggleKey | src/components/Chat/ChatHistoryDialog.tsx:112-115 | the key flips (absent reads as false), the key is present afterwards, every other key keeps its value |
| ChatHistory.ToggleTwice | src/components/Chat/ChatHistoryDialog.tsx:112-115 | toggling a key twice reads the same as never toggling it, at every key |
| ChatHistory.FindReply | src/components/Chat/ChatHistoryDialog.tsx:162-165 | the first assistant message strictly later than the user message, or none exactly when there is no such message |
| ChatHistory.UserMessages | src/components/Chat/ChatHistoryDialog.tsx:160 | its members are exactly the session's user-role messages; the empty session gives none, a single message gives itself when it is the user's and nothing otherwise |
| ChatHistory.UserMessagesConcat | src/components/Chat/ChatHistoryDialog.tsx:160 | the filter of a concatenation is the concatenation of the filters, which with the one-message case fixes order and multiplicity: every user message once per occurrence, in session order |
| ChatHistory.Pairs | src/components/Chat/ChatHistoryDialog.tsx:160-167 | one pair per user message, in order, each with the first strictly later assistant reply or none |
| ChatHistory.MoreMessagesButton | src/components/Chat/ChatHistoryDialog.tsx:202-210 | no control for at most one pair; otherwise "collapse" when expanded, or "N more" with N = pairs - 1 |
| ChatHistory.SessionMoreButton | src/components/Chat/ChatHistoryDialog.tsx:160-210 | for a session's pairs, the control is absent iff the session has at most one user message, and otherwise offers the user messages after the first |
| ProfileDialog.Without | src/components/Profile/ProfileDialog.tsx:213 | the filter removes every occurrence of the interest and keeps every other one |
| ProfileDialog.ToggleInterest | src/components/Profile/ProfileDialog.tsx:210-216 | the toggled interest is present afterwards iff it was absent before; other interests keep their membership |
| ProfileDialog.ToggleKeepsOthers | src/components/Profile/ProfileDialog.tsx:210-216 | apart from the toggled interest, the list is unchanged, order included |
| ProfileDialog.ToggleAppendsOrRemoves | src/components/Profile/ProfileDialog.tsx:212-214 | an absent interest is appended at the end; a present one loses all its occurrences |
| ProfileDialog.ToggleTwiceRestores | src/components/Profile/ProfileDialog.tsx:210-216 | toggling an absent interest twice restores the list |
| ProfileDialog.ToggleTwicePresent | src/components/Profile/ProfileDialog.tsx:210-216 | toggling a present interest twice moves one copy of it to the end and drops the duplicates |
| ProfileDialog.LastSegment | src/components/Profile/ProfileDialog.tsx:133-139 | `split(sep).pop()`: the suffix after the last separator, the whole text when there is none |
| ProfileDialog.Extension | src/components/Profile/ProfileDialog.tsx:133 | `file.name.split('.').pop()`; `ExtensionOfName` gives its round trip, `LastSegment` its characterisation |
| ProfileDialog.AvatarPath | src/components/Profile/ProfileDialog.tsx:133-134 | the upload path is the user id, `/avatar.`, and the text after the last `.` of the file name |
| ProfileDialog.ExtensionOfName | src/components/Profile/ProfileDialog.tsx:133 | the extension of `stem.ext` is `ext`; a name without `.` is its own extension |
| ProfileDialog.OldFilePath | src/components/Profile/ProfileDialog.tsx:138-141 | a file is removed only when the old URL is non-empty and has non-empty text after its last `/`, which is what is removed |
| ProfileDialog.OldFileOfAvatarUrl | src/components/Profile/ProfileDialog.tsx:133-141 | for a URL ending in the uploaded path, the removed name is `avatar.<ext>` without the user's folder |
| ProfileDialog.UploadAvatar | src/components/Profile/ProfileDialog.tsx:130-161 | no file or no user: nothing stored, no URL; otherwise the old file is removed, the file stored at its path, and the public URL returned or the error rethrown |
| ProfileDialog.InterestsOf | src/components/Profile/ProfileDialog.tsx:211 | `profile.interests \|\| []`; `SaveRecord` and `HandleInterestToggle` state where it is used |
| ProfileDialog.SaveRecord | src/components/Profile/ProfileDialog.tsx:183-192 | the saved row copies id, user name and avatar URL; falsy age group and gender become 未回答; falsy occupation and bio become empty; missing interests become empty |
| ProfileDialog.SaveError | src/components/Profile/ProfileDialog.tsx:164-172 | save is refused iff the user id or the user name is empty, the id being checked first |
| ProfileDialog.RowToWrite | src/components/Profile/ProfileDialog.tsx:177-192 | a row is written unless the avatar upload failed; it carries the uploaded URL when a file was picked, the old URL otherwise |
| ProfileDialog.SaveAfterLoad | src/components/Profile/ProfileDialog.tsx:183-192 | saving a row read back from a saved row writes the same row |
| ProfileDialog.LoadedProfile | src/components/Profile/ProfileDialog.tsx:94-108 | the stored row; the initial profile with the user's id when there is none; the initial profile after an error |
| ProfileDialog.WithField | src/components/Profile/ProfileDialog.tsx:218-224 | the profile with one select or text field set to the typed value; `EditReachesSavedRow` states where the value ends up |
| ProfileDialog.EditReachesSavedRow | src/components/Profile/ProfileDialog.tsx:183-192 | an edited select or text field reaches the saved row as typed, or as its default when emptied; other columns are unaffected |
| ProfileDialog.EditDecidesSaveChecks | src/components/Profile/ProfileDialog.tsx:164-172 | after typing a user name, validation passes iff id and name are non-empty; other edits leave validation as it was |
| ProfileDialog.ProfileForm.constructor | src/components/Profile/ProfileDialog.tsx:58-74 | the initial profile, no error, not loading, no avatar picked |
| ProfileDialog.ProfileForm.LoadProfile | src/components/Profile/ProfileDialog.tsx:76-110 | no user id: the error and nothing else; otherwise the loaded profile, with the load error on failure |
| ProfileDialog.ProfileForm.HandleAvatarChange | src/components/Profile/ProfileDialog.tsx:118-128 | a file over 2 MB sets the error and is not kept; a file of at most 2 MB becomes the avatar with its preview; no file: nothing changes |
| ProfileDialog.ProfileForm.HandleSave | src/components/Profile/ProfileDialog.tsx:163-208 | a failed check sets its error and writes nothing; otherwise the row written, the dialog closed only after a successful upsert, the save error otherwise, and loading ends false |
| ProfileDialog.ProfileForm.HandleInterestToggle | src/components/Profile/ProfileDialog.tsx:210-216 | the profile's interests become their toggle, nothing else changes |
| ProfileDialog.ProfileForm.SetField | src/components/Profile/ProfileDialog.tsx:218-224 | the edited field takes the new value, nothing else changes |
| LoginPage.TabPanel | src/components/Auth/LoginPage.tsx:23-37 | the content is rendered, and the panel not hidden, exactly when `value === index` |
| LoginPage.OnePanelShown | src/components/Auth/LoginPage.tsx:29-34 | with one of the two tabs selected, exactly one panel shows its content |
| LoginPage.SignUpError | src/components/Auth/LoginPage.tsx:85-92 | sign-up passes iff the confirmation matches and the password has at least 6 characters; a mismatch is reported before the length |
| LoginPage.SixCharactersSuffice | src/components/Auth/LoginPage.tsx:89 | 6 characters pass, 5 are refused |
| LoginPage.UrlError | src/components/Auth/LoginPage.tsx:53-55 | an error in the URL shows its description, or the default message when that is missing or empty |
| LoginPage.SignUpRequestHadFields | src/components/Auth/LoginPage.tsx:85-92 | a sign-up that passes validation has a non-empty password and confirmation |
| LoginPage.LoginForm.SignInDisabled | src/components/Auth/LoginPage.tsx:281 | the sign-in button is disabled exactly while a sign-in or sign-up request runs; `HandleTabChange` shows it enabled after a tab change when no request runs |
| LoginPage.LoginForm.SignUpDisabled | src/components/Auth/LoginPage.tsx:362 | the sign-up button is disabled exactly while one of the three fields is empty or a request runs; `HandleTabChange` shows it disabled after a tab change |
| LoginPage.LoginForm.constructor | src/components/Auth/LoginPage.tsx:41-46 | empty fields, not loading, no error, sign-in tab |
| LoginPage.LoginForm.Mount | src/components/Auth/LoginPage.tsx:48-74 | a URL error is shown and no listener is installed; otherwise the page listens to auth events |
| LoginPage.LoginForm.OnAuthStateChange | src/components/Auth/LoginPage.tsx:63-70 | an event with a signed-in user clears the error |
| LoginPage.LoginForm.HandleTabChange | src/components/Auth/LoginPage.tsx:76-82 | the tab is set; the error, email, password and confirmation are cleared; the sign-up button is then disabled |
| LoginPage.LoginForm.HandleSignUp | src/components/Auth/LoginPage.tsx:84-103 | a failed check sets its message and calls nothing; otherwise the credentials are sent, loading ends false, and failure sets the sign-up message |
| LoginPage.LoginForm.HandleSignIn | src/components/Auth/LoginPage.tsx:105-115 | the credentials are sent; loading ends false; failure sets the sign-in message, success clears the error |
| LoginPage.LoginForm.SetEmail | src/components/Auth/LoginPage.tsx:238 | the email field (in either tab) takes the typed value, nothing else changes |
| LoginPage.LoginForm.SetPassword | src/components/Auth/LoginPage.tsx:260 | the password field (in either tab) takes the typed value, nothing else changes |
| LoginPage.LoginForm.SetConfirmPassword | src/components/Auth/LoginPage.tsx:341 | the confirmation field takes the typed value, nothing else changes |
| ChatInput.TrimStart | src/components/Chat/ChatInput.tsx:14 | a suffix of the text; what it drops is all white space; it does not start with white space |
| ChatInput.TrimEnd | src/components/Chat/ChatInput.tsx:14 | a prefix of the text; what it drops is all white space; it does not end with white space |
| ChatInput.Trim | src/components/Chat/ChatInput.tsx:14 | `trim()` as leading then trailing white space removed; `TrimEmptyIffBlank` and `TrimIsInner` characterise it |
| ChatInput.TrimEmptyIffBlank | src/components/Chat/ChatInput.tsx:14 | the trimmed draft is empty iff the draft is all white space |
| ChatInput.TrimIsInner | src/components/Chat/ChatInput.tsx:14 | the trimmed text neither starts nor ends with white space |
| ChatInput.CanSendIffNotBlank | src/components/Chat/ChatInput.tsx:14 | a send happens iff the draft is not blank and input is enabled |
| ChatInput.CanSend | src/components/Chat/ChatInput.tsx:14 | the send guard `message.trim() && !disabled`; `CanSendIffNotBlank` states it without `trim` |
| ChatInput.SendButtonDisabled | src/components/Chat/ChatInput.tsx:52 | the button rule `!message.trim() \|\| disabled`; `SendButtonDisabledIffBlank` shows it is the negation of `CanSend` |
| ChatInput.IsSendKey | src/components/Chat/ChatInput.tsx:21 | Enter without Shift; `HandleKeyPress` shows exactly this key suppresses the default |
| ChatInput.SendButtonDisabledIffBlank | src/components/Chat/ChatInput.tsx:52 | the send button is disabled iff the draft is blank or input is disabled, that is, iff a send would do nothing |
| ChatInput.ChatInputBox.constructor | src/components/Chat/ChatInput.tsx:11 | the draft starts empty |
| ChatInput.ChatInputBox.HandleSend | src/components/Chat/ChatInput.tsx:13-18 | a sendable draft is sent untrimmed and cleared; otherwise nothing is sent and the draft is kept |
| ChatInput.ChatInputBox.HandleKeyPress | src/components/Chat/ChatInput.tsx:20-25 | Enter without Shift suppresses the default and attempts a send; any other key does nothing |
| ChatInput.ChatInputBox.SetMessage | src/components/Chat/ChatInput.tsx:34 | the draft takes the typed value |
| AuthContext.RedirectUrl | src/contexts/AuthContext.tsx:6 | the configured URL when set and non-empty, the production URL otherwise; never empty |
| AuthContext.AfterInit | src/contexts/AuthContext.tsx:28-43 | the state after `initSession`; `InitKeepsConsistent` states what it keeps, `LateInitKeepsStaleStartTime` the start time it leaves |
| AuthContext.AfterAuthEvent | src/contexts/AuthContext.tsx:50-59 | the state after an auth event; `AuthEventForgetsPast` shows it depends on the event alone |
| AuthContext.AfterSignOut | src/contexts/AuthContext.tsx:96-107 | the state after `signOut`; `SignOutKeepsConsistent` states both outcomes |
| AuthContext.InitialConsistent | src/contexts/AuthContext.tsx:21-24 | the initial state (all null, loading) is consistent |
| AuthContext.InitKeepsConsistent | src/contexts/AuthContext.tsx:28-43 | initialisation keeps the user the session's user, starts the clock only when a session exists, changes nothing but `loading` on failure, and always ends loading |
| AuthContext.AuthEventForgetsPast | src/contexts/AuthContext.tsx:50-59 | an event sets session, user and start time from its session alone (all null without one) and ends loading |
| AuthContext.SignOutKeepsConsistent | src/contexts/AuthContext.tsx:96-107 | a successful sign-out clears user, session and start time; a failed one changes nothing |
| AuthContext.LoadingSettles | src/contexts/AuthContext.tsx:41-58 | once loading is over, no transition starts it again |
| AuthContext.LateInitKeepsStaleStartTime | src/contexts/AuthContext.tsx:33-56 | an initialisation answering "no session" after a signing-in event leaves a start time without a session |
| AuthContext.AuthProvider.constructor | src/contexts/AuthContext.tsx:21-24 | the initial state, and the redirect URL fixed from the configuration |
| AuthContext.AuthProvider.InitSession | src/contexts/AuthContext.tsx:28-43 | the fields, set in the source's order, become `AfterInit` of the old state |
| AuthContext.AuthProvider.OnAuthStateChange | src/contexts/AuthContext.tsx:50-59 | the fields become `AfterAuthEvent` of the old state |
| AuthContext.AuthProvider.SignOut | src/contexts/AuthContext.tsx:96-107 | the fields become `AfterSignOut` of the old state, and the service's error is rethrown |
| AuthContext.AuthProvider.SignUp | src/contexts/AuthContext.tsx:64-81 | the request carries email, password, the redirect URL and the call's time; the service's error is rethrown |
| AuthContext.AuthProvider.SignIn | src/contexts/AuthContext.tsx:83-94 | the request carries email and password; the service's error is rethrown |
| AuthContext.UseAuth | src/contexts/AuthContext.tsx:126-132 | the provider's value inside a provider, the "must be used within an AuthProvider" error outside |
| ThemeSelection.Themes | src/components/Theme/ThemeSelectionScreen.tsx:24-81 | the eight themes with their ids, names and descriptions, in display order; `ThemeIdsDistinct` shows the ids distinct |
| ThemeSelection.ThemeIdsDistinct | src/components/Theme/ThemeSelectionScreen.tsx:24-81 | the table has 8 entries with pairwise distinct ids |
| ThemeSelection.Find | src/components/Theme/ThemeSelectionScreen.tsx:87 | the first entry with the id, or none exactly when no entry has it |
| ThemeSelection.HandleThemeSelect | src/components/Theme/ThemeSelectionScreen.tsx:86-98 | a known id navigates to `/chat`, replacing the history entry, with the id and that theme's name and description; an unknown id does nothing |
| ThemeSelection.SelectingEntryNavigatesToIt | src/components/Theme/ThemeSelectionScreen.tsx:86-98 | selecting the id of any entry carries exactly that entry's name and description |
| ThemeSelection.FreeButtonSelectsFreeTheme | src/components/Theme/ThemeSelectionScreen.tsx:170 | the dedicated button's id is in the table, and its name there is フリー |

## Left out

- The hosted service is not modelled. That covers queries, upserts, storage upload, removal
  and public URLs, and the authentication calls. Each is an input: an `Ok`/`Err` outcome,
  the rows a query returns, or the URL storage hands back. The order of the messages query
  (`created_at` ascending) is also an input: `TimeOrdered` is a precondition only of the
  lemmas that need it.
- Rendering, styling, dialogs, icons and snackbars are not modelled. The `alert` after
  sign-up is left out, and so are the `window.history.replaceState` calls that clean the URL.
- Console logging is left out. It has no effect on state.
- Concurrency is not modelled: every async handler runs to completion as one method.
  `LateInitKeepsStaleStartTime` covers one interleaving of initialisation and an auth event.
  The unsubscribe on unmount is left out.
- Date formatting is the parameter `dateOf`. A message carries its `created_at` text, which
  forms the session key, and the instant that text denotes, in integer milliseconds, which
  the gap test and the sort read. `StampsAgree` states that equal texts denote one instant,
  as `new Date` guarantees; it is a precondition only of the time-order lemmas.
  `new Date().toISOString()` is a text parameter.
- The string session key `${date}_${theme_id}_${timestamp}` is the triple `SessionKey` of
  date, theme id and `created_at` text. Equal triples build equal strings. Distinct triples
  are taken to build distinct strings, since none of the three parts contains `_`: dates are
  `yyyy-MM-dd`, theme ids are UUIDs, and `created_at` is ISO-8601 text.
- ChatHistory: the fallback `|| ''` at line 76 is not modelled. It is unreachable: the key is
  read only when a previous session exists.
- ChatHistory.SortNewestFirst is a function that states the result of `Array.prototype.sort`.
  The engine's algorithm is not modelled, only its stability (guaranteed since ES2019).
- The display key at `ChatHistoryDialog.tsx:158` is left out. It is `date_themeName`, unlike
  the grouping key, and only labels the rendered list. The toggle methods take the key as given.
- LoginPage.SignUpError: `password.length` counts UTF-16 code units in JavaScript. Here it
  counts Dafny characters, so a character outside the BMP counts as one, not two. `trim` is
  unaffected, because no white space lies outside the BMP.
- `URL.createObjectURL` is not modelled; the preview text is a parameter of
  `HandleAvatarChange`.
- `onProfileUpdate` and `onClose` are not modelled; they are assumed not to throw. `closed`
  records the close request.
- ProfileDialog.ProfileForm.SetField: the select values are not restricted to their option
  lists. The source's `as Profile['age_group']` casts do not check either.
- `src/utils/chat.ts`, `ChatContainer.tsx`, the settings selects, the headers, `ThemeGrid.tsx`,
  `ChatPage.tsx`, the service-worker update handling and the theme update script are not part
  of this model. They are presentation, remote calls, or platform I/O.
