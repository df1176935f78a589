# Message feed and authentication forms of react-firebase, in Dafny

This project models the client side of a small messaging application built
on a hosted realtime store and an identity provider.

- **Message feed** (`MessagesBase`). It subscribes to the last `limit`
  messages, ordered by `createdAt`. Each snapshot replaces the whole list.
  "More" raises the limit by five and subscribes again. Create, edit and
  delete only send writes to the store. The list changes only when a later
  snapshot brings the change back.
- **Message item** (`MessageItem`). Each message has a two-state edit
  machine (viewing or editing) with a draft text. Edit, Delete, Save and
  Reset are offered only to the message's author.
- **Three forms**: sign-up, sign-in (email/password and three social
  providers) and password reset. Each has a validity predicate, change
  handlers, and state changes on success or failure. Some forms also
  rewrite error messages.

The store and the identity provider are modelled as append-only logs of the
requests the client makes. Every asynchronous outcome (a snapshot arriving,
an account created, a promise rejected) is a separate method call.

Modules, one per concern:

- `Values` (`values.dfy`): record values, property access (`Get`; a missing
  field reads as `Undefined`) and JavaScript truthiness.
- `Store` (`store.dfy`): the request log for the `messages` collection and
  the snapshot shape (`null`, or an object's entries in key order). It also
  gives a reference meaning for writes (`ApplyWrite`, `Resolve` for the
  server timestamp placeholder), used to state round trips.
- `Feed` (`feed.dfy`): pure transforms.
  - Snapshot to list: attach each key as `uid`, then reverse.
  - The create and edit write records.
  - What the feed and each item show.
- `Messages` (`messages.dfy`): the classes `MessagesBase` and `MessageItem`,
  plus three scenario client methods.
- `Auth` (`auth.dfy`): errors, the stored user record, identity calls, and
  the shared error rewrite.
- `SignUp`, `SignIn`, `PasswordForget`: one module per form. Each has a
  class whose fields are the component's state cells. `PasswordForget`
  also has a pure transition function `Next`, its iteration `Run`, and
  lemmas over any sequence of events.

Where the code and the intended design differ, the model follows the code:

- `onNextPage` subscribes again without turning the earlier subscription
  off. Earlier listeners can therefore still deliver snapshots of their
  smaller windows. `Messages.StaleSnapshotWithinLimit` shows that even such
  a snapshot never gives more than the current `limit` messages.
- The list is not sorted on the client. The model proves "the list is the
  reverse of the snapshot's entries", not "the list is sorted by
  `createdAt`".
- The state starts with `loading` false and `messages` an empty array, and
  loading is only switched on in `componentDidMount`. So the first render,
  before the subscription, shows the "More" button over an empty list rather
  than "Loading" (`Messages.EmptyFeedScenario`).
- `onCreateMessage` does not check for empty text.
- A truthy but empty snapshot object would give an empty array, not
  `null`, because an empty object is truthy in JavaScript. The store
  represents an empty location as `null`, so in practice an empty
  collection shows "There are no messages".
- The name shown in front of every message is the signed-in user's
  `username` when that is set, whoever wrote the message
  (`Feed.LabelIsViewer`).
- After a social sign-in succeeds, `error` becomes the truthy object
  `{error: null}`. The form then shows an empty error paragraph
  (`SignIn.SuccessShowsEmptyParagraph`).
- The sign-up and sign-in forms never clear `error` on success. The
  password-reset form never clears `error` and never resets `submitted`,
  so its two notices can show together (`PasswordForget.BothNotices`).

## Model

| member | source | states |
|---|---|---|
| `Store.Resolve` | src/components/Home/index.js:79-100 | the server swaps its clock for every timestamp placeholder, leaves every other field as it is, and the result holds no placeholder |
| `Store.PushAddsOne` | src/components/Home/index.js:79-83 | a push under a fresh key adds exactly that key, with the resolved record, and keeps every other record |
| `Store.RemoveDeletesOnly` | src/components/Home/index.js:90-92 | `message(uid).remove()` deletes that key and no other |
| `Store.SetReplacesOnly` | src/components/Home/index.js:96-100 | `message(uid).set(r)` replaces the record under `uid` completely and touches no other key |
| `Values.Truthy` | src/components/Home/index.js:198-199 | the falsy values are exactly the empty string, 0, `false` and `undefined`; the timestamp placeholder is truthy |
| `Feed.WithUid` | src/components/Home/index.js:51-54 | the item's `uid` is the entry's key, even when the record stores its own `uid`; every other field is the record's |
| `Feed.Attach` | src/components/Home/index.js:51-54 | one item per snapshot entry, in order; item i's `uid` is entry i's key and every other field is the stored record's |
| `Feed.Reverse` | src/components/Home/index.js:58 | reversing keeps the length |
| `Feed.ReverseAt` | src/components/Home/index.js:58 | element k of the reversed list is element n-1-k of the input |
| `Feed.Materialize` | src/components/Home/index.js:49-63 | a `null` snapshot gives `null` messages and only it does; an object with n entries gives n messages |
| `Feed.MaterializeObject` | src/components/Home/index.js:49-60 | an object snapshot with entries e[0..n) gives a list (not `null`) of exactly n messages; message i is entry n-1-i with its key attached as `uid` |
| `Feed.MaterializedFields` | src/components/Home/index.js:51-58 | each listed message keeps every stored field except `uid`, and its `uid` is its key |
| `Feed.MaterializedUidsDistinct` | src/components/Home/index.js:49-58 | when the snapshot's keys are distinct, no two listed messages share a `uid` |
| `Feed.MaterializeWithinWindow` | src/components/Home/index.js:44-60 | a snapshot that honours a `limitToLast(n)` window gives at most n messages |
| `Feed.CreateRecord` | src/components/Home/index.js:79-83 | the pushed record has exactly `text`, `userId` (the author's uid) and `createdAt` (the server timestamp) |
| `Feed.EditRecord` | src/components/Home/index.js:94-101 | the edit record has every field of the message except `uid`; `text` is replaced and `editedAt` is the server timestamp |
| `Feed.CreateRoundTrip` | src/components/Home/index.js:78-85 | once stored and read back, a created message is exactly {text, userId, createdAt = server time, uid = push id}; its author sees Edit and Delete, and it is not marked "(Edited)" |
| `Feed.EditRoundTrip` | src/components/Home/index.js:94-101 | once stored and read back under the same key, an edit changes only `text` (to the draft) and `editedAt` (to the server time); with a non-zero time the message shows "(Edited)" |
| `Feed.RenderFeed` | src/components/Home/index.js:110-127 | "More" shows iff not loading and `messages` is not `null`; "Loading" shows iff loading; never both; the list shows iff `messages` is not `null`, and exactly one of the list and the "no messages" notice shows |
| `Feed.SnapshotVisibility` | src/components/Home/index.js:49-63 | after any snapshot nothing is loading; "More" shows iff the snapshot was an object; the empty notice shows iff it was `null` |
| `Feed.IsAuthor` | src/components/Home/index.js:203 | the viewer is the author iff the message has a `userId` field equal to the viewer's uid; a message without one is nobody's |
| `Feed.RenderItem` | src/components/Home/index.js:190-221 | the input shows iff editing; Edit and Delete show iff the viewer is the author and not editing; Save/Reset show iff the author is editing; Delete never shows with Save; "(Edited)" shows iff not editing and `editedAt` is truthy; no label is shown while editing; otherwise the label is the viewer's username when that is truthy, else the message's `userId` |
| `Feed.LabelIsViewer` | src/components/Home/index.js:196-198 | outside edit mode, when the viewer has a username, every message is labelled with it, whoever wrote the message |
| `Messages.StaleSnapshotWithinLimit` | src/components/Home/index.js:42-75 | subscriptions are never turned off, but every one asked for at most the current `limit`; so a snapshot from any of them gives at most `limit` messages |
| `Messages.MessagesBase.constructor` | src/components/Home/index.js:23-32 | initial state: empty text, not loading, an empty array (not `null`), limit 5, no requests |
| `Messages.MessagesBase.Mount` | src/components/Home/index.js:34-36 | mounting marks the feed loading and subscribes once |
| `Messages.MessagesBase.ListenForMessages` | src/components/Home/index.js:42-48 | sets `loading`, appends one `limitToLast(limit)` subscription ordered by `createdAt`, and changes nothing else; the window asks for at least one message, since `limit` never drops below 5 |
| `Messages.MessagesBase.ReceiveSnapshot` | src/components/Home/index.js:48-64 | `messages` becomes the snapshot's list (or `null`) and `loading` becomes false; text, limit and requests are unchanged; a snapshot that honours the window of any subscription issued so far leaves at most `limit` messages |
| `Messages.MessagesBase.ChangeText` | src/components/Home/index.js:67-69 | only `text` changes |
| `Messages.MessagesBase.NextPage` | src/components/Home/index.js:71-76 | the limit rises by exactly 5 and one new subscription with the new limit is appended; no `off` request is issued; the list is kept |
| `Messages.MessagesBase.CreateMessage` | src/components/Home/index.js:78-88 | one push of the create record with the current text, even when that text is empty; the text is then cleared; the list, loading flag and limit are unchanged |
| `Messages.MessagesBase.RemoveMessage` | src/components/Home/index.js:90-92 | one removal of `messages/<uid>` and nothing else |
| `Messages.MessagesBase.EditMessage` | src/components/Home/index.js:94-101 | one total set of `messages/<uid>` to the edit record; the list is unchanged |
| `Messages.MessagesBase.Unmount` | src/components/Home/index.js:38-40 | one `off` request |
| `Messages.MessageItem.constructor` | src/components/Home/index.js:160-166 | starts viewing, with the draft set to the committed text |
| `Messages.MessageItem.ReceiveMessage` | src/components/Home/index.js:147-155 | a redraw with a newer copy of the same message (same `uid`, which is the list item's `key`) keeps the edit mode and the draft |
| `Messages.MessageItem.ToggleEditMode` | src/components/Home/index.js:168-173 | edit mode flips, and the draft always resets to the committed text |
| `Messages.MessageItem.ChangeEditText` | src/components/Home/index.js:175-177 | only the draft changes |
| `Messages.MessageItem.SaveEditText` | src/components/Home/index.js:179-182 | the feed logs one edit write with the current draft, then the item leaves edit mode without waiting; the feed's other state is unchanged |
| `Auth.RewriteMessage` | src/components/SignUp/index.js:67-73 | an error with the given code gets the fixed text as its message and keeps its code; any other error is unchanged |
| `SignUp.WithText` | src/components/SignUp/index.js:76-78 | `onChange` sets the named text field and leaves every other field, and the checkbox, unchanged |
| `SignUp.WithCheckbox` | src/components/SignUp/index.js:80-82 | `onChangeCheckbox` sets `isAdmin` and leaves every text field unchanged |
| `SignUp.IsInvalid` | src/components/SignUp/index.js:86-90 | the submit button is enabled iff username, email and the first password are non-empty and the two passwords agree |
| `SignUp.BlankIsInvalid` | src/components/SignUp/index.js:16-23 | the initial (and reset) form may not be submitted, whatever the admin checkbox says |
| `SignUp.CheckboxKeepsValidity` | src/components/SignUp/index.js:80-90 | the admin checkbox never changes whether the form may be submitted |
| `SignUp.Roles` | src/components/SignUp/index.js:45-48 | `ADMIN` is a role iff `isAdmin`; it is the only possible role, mapped to itself |
| `SignUp.UserRecordOf` | src/components/SignUp/index.js:54-58 | the stored record holds the form's username and email and the roles built from `isAdmin` |
| `SignUp.NoPasswordStored` | src/components/SignUp/index.js:43-58 | the stored record does not depend on either password |
| `SignUp.RewriteError` | src/components/SignUp/index.js:26-34 | `auth/email-already-in-use` gets the fixed account-exists text; other errors are kept |
| `SignUp.SignUpForm.constructor` | src/components/SignUp/index.js:37-38 | the form starts with the initial values and no error |
| `SignUp.SignUpForm.Change` | src/components/SignUp/index.js:76-78 | only the named field changes |
| `SignUp.SignUpForm.ChangeCheckbox` | src/components/SignUp/index.js:80-82 | only `isAdmin` changes |
| `SignUp.SignUpForm.Submit` | src/components/SignUp/index.js:40-51 | the roles are built in place; one account creation with the email and the first password is requested; the returned pending record is `UserRecordOf` the submitted values |
| `SignUp.SignUpForm.AccountCreated` | src/components/SignUp/index.js:52-59 | the pending record is stored under the new account's uid |
| `SignUp.SignUpForm.UserStored` | src/components/SignUp/index.js:60-62 | the verification email is requested |
| `SignUp.SignUpForm.VerificationSent` | src/components/SignUp/index.js:63-66 | the form values go back to the initial values; `error` is kept |
| `SignUp.SignUpForm.Failed` | src/components/SignUp/index.js:67-73 | `error` becomes the rewritten error; the form values are kept |
| `SignIn.WithField` | src/components/SignIn/index.js:59-61 | `onChange` sets the named field and leaves the other unchanged |
| `SignIn.IsInvalid` | src/components/SignIn/index.js:64 | the submit button is enabled iff email and password are both non-empty |
| `SignIn.BlankIsInvalid` | src/components/SignIn/index.js:22-25 | the initial form may not be submitted, and neither may one with only the email or only the password filled in |
| `SignIn.SignInForm.constructor` | src/components/SignIn/index.js:40-41 | the form starts with the initial values and no error |
| `SignIn.SignInForm.Change` | src/components/SignIn/index.js:59-61 | only the named field changes |
| `SignIn.SignInForm.Submit` | src/components/SignIn/index.js:43-49 | one sign-in with the current email and password is requested |
| `SignIn.SignInForm.Succeeded` | src/components/SignIn/index.js:50-53 | the form values go back to the initial values; `error` is kept |
| `SignIn.SignInForm.Failed` | src/components/SignIn/index.js:54-56 | `error` becomes the error as received (no rewrite); the form values are kept |
| `SignIn.ProfileRecord` | src/components/SignIn/index.js:96-175 | the profile record always has empty roles; Google's name and email come from `user`, Facebook's and Twitter's from the provider profile |
| `SignIn.RewriteSocialError` | src/components/SignIn/index.js:108-113 | `auth/account-exists-with-different-credential` gets the fixed text; other errors are kept |
| `SignIn.ErrorParagraph` | src/components/SignIn/index.js:121 | the error paragraph is absent iff `error` is `null`; a rejection shows its message; the `{error: null}` object shows an empty paragraph (the same at lines 157 and 194) |
| `SignIn.SuccessShowsEmptyParagraph` | src/components/SignIn/index.js:104-121 | the `{error: null}` object stored on success still shows an error paragraph, unlike `null` |
| `SignIn.SocialSignIn.constructor` | src/components/SignIn/index.js:90-91 | the provider is fixed and there is no error |
| `SignIn.SocialSignIn.Submit` | src/components/SignIn/index.js:93-95 | one sign-in with the provider is requested |
| `SignIn.SocialSignIn.SignedIn` | src/components/SignIn/index.js:96-103 | the profile record is stored under the signed-in user's uid |
| `SignIn.SocialSignIn.UserStored` | src/components/SignIn/index.js:104-107 | `error` becomes the `{error: null}` object, not `null` |
| `SignIn.SocialSignIn.Failed` | src/components/SignIn/index.js:108-114 | `error` becomes the rewritten error |
| `PasswordForget.IsInvalid` | src/components/PasswordForget/index.js:41 | the submit button is enabled iff the email is non-empty |
| `PasswordForget.Next` | src/components/PasswordForget/index.js:26-38 | typing replaces the email; a sent reset blanks the form and raises `submitted`; a failed one sets `error`; nothing else changes |
| `PasswordForget.BlankIsInvalid` | src/components/PasswordForget/index.js:13-15 | the initial form may not be submitted, and a sent reset disables the button again |
| `PasswordForget.NoticesStay` | src/components/PasswordForget/index.js:19-32 | over any sequence of events, `submitted` is never reset and `error` is never cleared |
| `PasswordForget.SubmittedIffSent` | src/components/PasswordForget/index.js:26-28 | after any events, the success notice shows iff it already did or one of the events was a sent reset |
| `PasswordForget.BothNotices` | src/components/PasswordForget/index.js:55-56 | a failure then a success leaves both the error and the success notice, with a blank form |
| `PasswordForget.PasswordForgetForm.constructor` | src/components/PasswordForget/index.js:18-20 | blank email, no error, not submitted |
| `PasswordForget.PasswordForgetForm.Change` | src/components/PasswordForget/index.js:36-38 | only the email changes; this is `Next` of a change event |
| `PasswordForget.PasswordForgetForm.Submit` | src/components/PasswordForget/index.js:22-25 | one reset of the current email is requested; the state is unchanged |
| `PasswordForget.PasswordForgetForm.Succeeded` | src/components/PasswordForget/index.js:26-29 | the email is blanked and `submitted` becomes true; `error` is kept |
| `PasswordForget.PasswordForgetForm.Failed` | src/components/PasswordForget/index.js:30-32 | `error` is set; the email and `submitted` are kept |

## Left out

- Firebase transport: `on`, `off`, `push`, `set`, `remove`, `orderByChild` and `limitToLast` are request-log entries only.
  - The server enforcing the window is a hypothesis of the lemmas (`Feed.WithinWindow`).
  - Which listeners `off()` removes is not modelled.
  - The order of `Object.keys` is taken as given.
  - The store refusing a record that holds `undefined` is not modelled.
- `serverValue.TIMESTAMP` is an opaque placeholder (`ServerTimestamp`). `Store.Resolve` gives it the meaning "the server's clock".
- `Array.prototype.reverse` reverses a freshly built array in place. It is modelled as the function `Feed.Reverse`, because no other reference to that array exists.
- React plumbing: rendering and JSX are left out, apart from the boolean visibility conditions (`RenderFeed`, `RenderItem`).
  - `setState` batching and asynchrony are left out: each handler's updates apply at once, in source order.
  - `event.preventDefault()` is left out.
  - The unmounting of items when the list becomes `null` or loses a message is left out.
- Routing and wrappers: `history.push` / `ROUTES.*`, `Link`, `withFirebase`, `withRouter`, `withAuthorization` (including the `condition` at Home/index.js:231), `withEmailVerification` and `compose`.
- Promise sequencing: each step and each rejection of a `.then` chain is a separate method call.
  - The model does not enforce that these calls come in the chain's order.
  - In `SignUp`, the pending user record returned by `Submit` is passed to `AccountCreated` by the caller. This models the closure's captured values.
- `ROLES.ADMIN` is defined in a file that is not part of this model. The constant `ADMIN` stands for it, with the value `"ADMIN"`.
- The `error: null` entry inside `INITIAL_FORM_VALUES` / `INITIAL_STATE` of the sign-up and sign-in forms is not modelled. No input sets it and the forms never read it; they show the separate `error` cell.
- Errors carry only `code` and `message`. Social profile fields are strings; a provider that returns `null` there is not modelled.
- Submitting an invalid form: the handlers do not check `isInvalid`; only the disabled button does. So the `Submit` methods have no precondition, and `IsInvalid` is modelled as the button's condition.
- `Messages.MessagesBase.EditMessage` and `Messages.MessageItem.SaveEditText`: these require the message to carry a string `uid`. Every message the list hands to an item has one (`Feed.WithUid`).
