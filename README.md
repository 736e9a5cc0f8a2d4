# Likoo chat core in Dafny

Likoo is a Discord-like chat. This project models three parts of it and proves properties of each.

1. **The server's handlers** (`server.py`), as the class `ChatServer.Backend`. It holds:
   - the database tables as sequences of rows in insertion order;
   - the Socket.IO rooms, as a map from room name to session ids;
   - the connected sessions;
   - an append-only log of every `emit`, recording the sessions each one reached.

   The HTTP handlers modelled are `register`, `login`, `create_channel` and `get_messages`. The socket handlers are `connect`, `disconnect`, `join_channel`, `leave_channel`, `send_message`, `typing` and `user_status_change`. Every method keeps the database constraints (unique keys and columns, foreign keys) and keeps rooms holding only connected sessions.
2. **The client's state** (`app.js`), as the class `AppState.App`. It holds the conversations `APP.messages`, the navigation fields `view`, `activeSrv`, `activeCh`, `dmChannel` and `inVoice`, and the servers. Its pure helpers live in `AppText` (escaping, tag, names, avatar) and `AppData` (reactions, member groups, notification badge, panel clamp, top z-index). The JavaScript list and string primitives they use live in `Lists` and `Text`.
3. **The column resizer** (`resize.js`), as the class `Resize.Resizer`. Its fields are the drag state, the two column widths of the grid, and the two `localStorage` entries.

Modules: `Wrappers` (Option), `Lists`, `Text`, `AppText`, `AppData`, `AppState`, `Resize` and `ChatServer`.

## Modelling choices

- **Room names.** Rooms are named `channel_<id>`, as the code writes them (server.py:270).
- **Socket payloads.** Each payload field is an `Option<string>`, where `None` means the key is absent.
  - A field read with `data['k']` that is absent raises `KeyError`. The handler stops and changes nothing.
  - A field read with `data.get` treats absent, `None` and `''` as false (`Falsy`).
- **Commit failures.** A commit that violates a key (a `uuid` or `tag` already taken, or a message or channel id already used) raises an exception, answered with status 500, and the store is left unchanged. The model returns `Refused(500, ServerError)`. Its body `Erreur serveur` is what the application's 500 error handler (server.py:383-385) sends when `DEBUG` is false. Under the default launch `DEBUG` is true (server.py:393), and Flask then re-raises the exception instead of calling that handler, so the body is the debugger's page; the model does not represent that page. A socket handler in the same situation stores nothing and emits nothing.
- **Generated values are parameters.** These include row ids (`uuid4`), the tag `generate_tag` draws, the password hash, `Date.now()` ids and stamps, and `now()` times.
- **Passwords.** `check_password` is a parameter `check(hash, password)`.
- **Authentication.** The authenticated caller of `create_channel` is a parameter.
- **Ordering and delivery.**
  - `created_at` order is commit order.
  - Socket events are handled only for connected sessions (`sid in connected`).
  - `requestAnimationFrame` in `onResize` is modelled as running at once.
- **Numbers.** Widths and z-indices are integers. A `parseFloat`/`parseInt` that yields `NaN` is `None` or `Garbage`.
- **DOM references.** `APP.activeSrv` is a reference into `APP.servers`; the model stores it as an index. The channel objects the client mutates (`ch.notif = 0`, `channels.push`) are updated inside `servers`.

## Model

| member | source | states |
|---|---|---|
| `Lists.FirstIndex` | app.js:524 | `find`/`findIndex`: the index found satisfies the test and no earlier element does; `None` only when no element does |
| `Lists.Filter` | app.js:548 | `filter`: exactly the elements that pass, and no more elements than the input; order and multiplicity are fixed by `FilterConcat` and `FilterSingleton` |
| `Lists.FilterConcat` | app.js:548 | filtering a concatenation is concatenating the filtered parts, so the kept elements stay in their order |
| `Lists.FilterSingleton` | app.js:548 | one element is kept exactly once when it passes and dropped otherwise |
| `Lists.FilterAll` | app.js:548 | when every element passes, the filter returns its input unchanged |
| `Lists.FilterIdempotent` | app.js:548 | filtering twice with one test is filtering once |
| `Lists.FilterOnlyOne` | app.js:529 | when only the element at `i` fails the test, the filter removes exactly that element and keeps the order |
| `Text.Trim` | app.js:192 | `trim()`: the output is the contiguous slice of the input between leading and trailing white space; its ends are not white space; it is empty iff the input is all white space |
| `Text.TrimIdentity` | app.js:192 | a string with no white space at either end is its own trim |
| `Text.Lower` | app.js:609 | `toLowerCase()` on ASCII: same length, each character lowered |
| `AppText.EscIsCharwise` | app.js:950 | the three global replacements of `esc` (`&` first) equal escaping each character independently |
| `AppText.EscNoAngleBrackets` | app.js:950 | the output of `esc` contains no `<` and no `>` |
| `AppText.EscRoundTrip` | app.js:950 | replacing `&lt;`, `&gt;`, then `&amp;` in `esc(s)` gives back `s` |
| `AppText.Digits` | app.js:193 | `replace(/\D/g,'')` keeps only ASCII digits and leaves an all-digit string unchanged |
| `AppText.DigitsConcat` | app.js:193 | removing non-digits from a concatenation is removing them from each part, so the digits keep their order |
| `AppText.DigitsChar` | app.js:193 | one character is kept when it is an ASCII digit and removed otherwise |
| `AppText.PadZeros` | app.js:193 | `padStart(n,'0')`: at least `n` characters, the input as the suffix, zeros before it |
| `AppText.NormalizeTag` | app.js:193 | the tag is exactly four ASCII digits: the first four digits of the input, left-padded with `0` |
| `AppText.TagFallbackUnreachable` | app.js:193 | the random fallback never affects the tag |
| `AppText.TagIdempotent` | app.js:193 | normalising a normalised tag leaves it unchanged |
| `AppText.DisplayName` | app.js:192 | the display name is the trimmed input, or `Utilisateur` exactly when the input is blank; it is never empty |
| `AppText.DashRuns` | app.js:609 | `replace(/\s+/g,'-')` leaves no white space, is empty iff its input is, is the identity on space-free text, and adds no capital letter |
| `AppText.DashRunsCons` | app.js:609 | a character that is not white space is copied to the front of the result |
| `AppText.DashRunsKeep` | app.js:609 | a space-free prefix is copied unchanged in front of the rest |
| `AppText.DashRunsRun` | app.js:609 | a maximal run of white space, however long, becomes a single `-` |
| `AppText.ChannelName` | app.js:609 | the channel name is non-empty, free of white space and of capitals, is `nouveau` for a missing or blank input, and otherwise is the trimmed, lower-cased input with each run of white space turned into `-` |
| `AppText.ChannelNameIdempotent` | app.js:609 | a normalised channel name normalises to itself |
| `AppText.FormatAvatar` | app.js:28-36 | empty markup iff the avatar is missing or empty; an `http`, `/` or `data:` reference goes into an `<img>` tag; otherwise the glyph goes into a `<span>`; the result is exactly the opening markup, the avatar text and the matching closing markup |
| `AppData.Bumped` | app.js:527-528 | one click moves the count by one and flips `mine` |
| `AppData.BumpedTwice` | app.js:527-528 | a second click undoes the first |
| `AppData.ToggleNew` | app.js:530-531 | a new emoji is appended as `{e, c:1, mine:true}` after the unchanged reactions |
| `AppData.ToggleExisting` | app.js:526-529 | the first reaction with the emoji has its count moved (down if `mine`, up otherwise) and `mine` flipped in place; once the count is `<= 0`, no reaction with that emoji remains |
| `AppData.ToggleAtDropped` | app.js:529 | a spent reaction, when no other reaction has its emoji, is removed exactly and the rest keep their order |
| `AppData.ToggleOthersUnchanged` | app.js:523-534 | the reactions to every other emoji are the same, and in the same order |
| `AppData.ToggleAtOthersUnchanged` | app.js:526-529 | the same, for the branch that changes an existing reaction |
| `AppData.ToggleWellFormed` | app.js:523-534 | distinct emojis with positive counts stay distinct and positive |
| `AppData.ToggleAtWellFormed` | app.js:526-529 | the same, for the branch that changes an existing reaction |
| `AppData.WellFormedSnoc` | app.js:531 | appending a new emoji with a positive count keeps the reactions well formed |
| `AppData.WellFormedRemove` | app.js:529 | removing one reaction keeps the reactions well formed |
| `AppData.ToggleTwiceAbsent` | app.js:523-534 | toggling an unused emoji twice restores the reactions |
| `AppData.ToggleTwiceOwnSingle` | app.js:523-534 | the user's own reaction with count 1 is removed, re-added, and ends up last |
| `AppData.ToggleTwiceInPlace` | app.js:523-534 | any other existing reaction is restored in place |
| `AppData.ToggleTwice` | app.js:523-534 | toggling twice gives a permutation of the reactions; it is the same list unless the user's own count-1 reaction moved to the end |
| `AppData.DeleteTwice` | app.js:547-548 | deleting an id twice is deleting it once |
| `AppData.DeleteAbsent` | app.js:547-548 | deleting an id that no message has changes nothing |
| `AppData.GroupOf` | app.js:301-306 | the group a member's role and status select, as an index of the five labels |
| `AppData.AllGroupsOf` | app.js:301-306 | a member is in the `k`-th candidate group iff it is a member of the server and its group is `k` |
| `AppData.GroupsSound` | app.js:301-307 | every member listed belongs to the server and is listed under the label of its own group |
| `AppData.GroupsComplete` | app.js:301-307 | every member that has a group is listed in a non-empty group with that label |
| `AppData.NotifSumReset` | app.js:235 | setting one channel's `notif` to 0 takes exactly that count off the server's sum |
| `AppData.NotifSumNonNegative` | app.js:235 | with non-negative counts the sum is non-negative, and is 0 iff every count is 0 |
| `AppData.BadgeShowsPositiveSum` | app.js:235 | with non-negative counts the badge is shown iff the sum is positive, and then it shows that sum |
| `AppData.PanelSize` | app.js:842-848 | the resized panel fits the viewport minus a 12px margin; each side is the requested size when it lies within the bounds, the upper bound when the request exceeds it or the bounds cross, and the minimum 140 (width) or 80 (height) when the request falls below it |
| `AppData.PanelSizeMonotone` | app.js:842-848 | dragging the handle further never makes the panel smaller |
| `AppData.MaxZ` | app.js:866-870 | `getMaxZ` is at least 10, at least every parsed z-index, and is 10 or one of them |
| `AppState.Pushed` | app.js:491-494 | the conversation is created if absent and gains exactly one message at its end; earlier messages and other conversations are unchanged |
| `AppState.PushThenDelete` | app.js:491-494 | deleting a freshly pushed message, whose id the conversation did not hold, gives back the conversation as it was |
| `AppState.ChannelAt` | app.js:444 | the channel found is the first channel of the active server with the id asked for; nothing is found exactly when no server is active or no channel of it has that id |
| `AppState.VoiceLabel` | app.js:624 | the label `joinVoice` shows is never empty: the found channel's name when that is non-empty, and `Vocal` for an unknown channel or an empty name |
| `AppState.FirstText` | app.js:436 | the channel `selectServer` opens is the first channel of the selected server that is not a voice channel; none is opened exactly when no server is selected or all of its channels are voice channels |
| `AppState.ResetNotif` | app.js:447 | only the opened channel's `notif` becomes 0; every other channel and server is unchanged |
| `AppState.ResetNotifBadge` | app.js:447 | opening a channel takes exactly its count off its server's badge and no other server's |
| `AppState.ChannelFound` | app.js:436-437 | the first text channel is found again by `selectChannel` |
| `AppState.App.constructor` | app.js:9-21 | the home view with nothing selected, over given conversations whose reactions are well formed |
| `AppState.ReplacedReactionsOk` | app.js:523-534 | putting a message with well-formed reactions in place of a stored one keeps every stored message's reactions well formed |
| `AppState.App.PushMsg` | app.js:491-496 | the store becomes `Pushed` with the new message (no reactions); nothing else changes, and the reactions stay well formed |
| `AppState.App.SendMessage` | app.js:475-489 | a blank trimmed text, no active key or no account pushes nothing; otherwise the trimmed text is pushed as the user's message |
| `AppState.App.DelMsg` | app.js:547-550 | the conversation keeps exactly the messages with another id, in order; an unknown conversation is untouched |
| `AppState.App.EditMsg` | app.js:541-545 | the first message with the id gets the trimmed answer plus ` *(modifié)*`; a cancelled or blank answer, or no such message, changes nothing |
| `AppState.App.ToggleReact` | app.js:523-534 | the first message with the id gets its reactions toggled; no such message changes nothing; every stored message keeps well-formed reactions (distinct emojis, positive counts) |
| `AppState.App.ShowHome` | app.js:409-422 | the home view with no server, channel or direct conversation; voice is kept |
| `AppState.App.ShowDM` | app.js:424-428 | the DM view with no server or channel; the open conversation becomes the active key |
| `AppState.App.SelectServer` | app.js:430-441 | the server view of the first server with the id, leaving the direct conversation, and opening its first non-voice channel as `SelectChannel` does |
| `AppState.App.SelectChannel` | app.js:443-450 | an unknown id changes nothing; a voice channel is joined and keeps its `notif`; a text channel becomes active with its `notif` reset to 0 |
| `AppState.App.SelectDM` | app.js:452-466 | the DM view of the conversation, created empty if absent, which becomes the active key |
| `AppState.App.JoinVoice` | app.js:622-627 | `inVoice` is the channel's name, or `Vocal`, and the channel becomes active |
| `AppState.App.LeaveVoice` | app.js:628 | no voice channel and no active channel |
| `AppState.App.CreateChannel` | app.js:607-617 | with a server open, a channel with the normalised name, the chosen type, id `<server>_<name>_<stamp>` and no description is appended to that server only |
| `Resize.MoveTo` | resize.js:75-99 | a move sets the active column to the wanted width when it is at least 150px and otherwise changes nothing; the other column always keeps its width |
| `Resize.MoveAllKeepsMinimum` | resize.js:84-96 | from widths of 150px or more, no sequence of moves takes either column below 150px |
| `Resize.MoveAllKeepsOther` | resize.js:80-99 | a drag never changes the other handle's column |
| `Resize.MoveAllSnoc` | resize.js:65-100 | a drag followed by one more move is the longer drag |
| `Resize.PathIndependent` | resize.js:75-95 | two drags that end at the same allowed position leave the same layout, whatever path the mouse took |
| `Resize.MoveTwice` | resize.js:86-94 | moving to the same position twice is moving once |
| `Resize.Accepted` | resize.js:155-164 | stored widths are kept iff both parse, are at least 150px, and sum to less than the window width minus 100 |
| `Resize.SavedRestored` | resize.js:113-114 | widths saved by `stopResize` are restored exactly when they are valid for the window, and otherwise reset |
| `Resize.Resizer.constructor` | resize.js:8-11 | not resizing, no direction, zero start values |
| `Resize.Resizer.StartResize` | resize.js:41-63 | a drag starts at the mouse position, from the current width of the handle's column |
| `Resize.Resizer.OnResize` | resize.js:65-101 | outside a drag nothing changes; in a drag the layout becomes `MoveTo` of the mouse position, and widths of 150px or more stay so |
| `Resize.Resizer.StopResize` | resize.js:103-133 | a drag ends with both widths saved, not resizing and no direction; outside a drag nothing changes |
| `Resize.Resizer.ResetLayout` | resize.js:136-145 | the saved widths are cleared; the grid takes 240/220 when the workspace exists |
| `Resize.Resizer.LoadLayoutPreferences` | resize.js:148-165 | the saved widths are applied when `Accepted` holds; otherwise the saved widths are cleared and the grid takes 240/220 |
| `ChatServer.UserFound` | server.py:298 | a primary-key lookup of a user succeeds iff some row has that id |
| `ChatServer.ChannelFound` | server.py:299 | a primary-key lookup of a channel succeeds iff some row has that id |
| `ChatServer.History` | server.py:246-247 | the history holds exactly the messages of the channel |
| `ChatServer.HistoryAppend` | server.py:305-312 | committing a message appends it to its own channel's history and leaves every other history unchanged |
| `ChatServer.ChannelRoomInjective` | server.py:270 | distinct channels have distinct rooms |
| `ChatServer.Joined` | server.py:270 | `join_room` adds the session to that room only |
| `ChatServer.Left` | server.py:282 | `leave_room` removes the session from that room only |
| `ChatServer.LeftAll` | server.py:261-264 | a disconnected session is removed from every room and nobody else moves |
| `ChatServer.LastOperationWins` | server.py:266-286 | after any sequence of joins and leaves, a session is in the room iff the last one was a join, and no other session moved |
| `ChatServer.Posted` | server.py:291-312 | a message is posted iff `user_id`, `content` and `channel_id` are all truthy, the user and the channel exist, and the id is free; it carries the given content, author and channel |
| `ChatServer.Backend.constructor` | server.py:53-56 | the tables hold the rows already in the database file (none on a first start), which meet the table constraints; no sessions and no events |
| `ChatServer.Backend.Emit` | server.py:272-274 | an `emit` appends one event, with the sessions its target reaches |
| `ChatServer.Backend.Register` | server.py:75-109 | the checks run in this order: 400 for a missing field, 409 for a taken username, 409 for a taken email, 500 (body `Erreur serveur` with `DEBUG` false) for a colliding id or tag; when none of these holds, 201 with exactly one new user (default avatar, colour and status); a refusal changes nothing |
| `ChatServer.Backend.Login` | server.py:112-134 | 400 for a missing field; 401 for an unknown user or a wrong password; otherwise 200, and that user alone becomes `online` |
| `ChatServer.Backend.CreateChannel` | server.py:209-231 | 404 for an unknown server, checked before 403 for a caller who does not own it, then 500 (body `Erreur serveur` with `DEBUG` false) for a channel id already used; otherwise 201 with one new channel using the defaults `nouveau-canal`/`text`/`''`; a refusal changes nothing |
| `ChatServer.Backend.GetMessages` | server.py:239-249 | 404 iff the channel is unknown; otherwise 200 with the channel's history in commit order |
| `ChatServer.Backend.Connect` | server.py:255-259 | the session is connected and gets exactly one `connect_response` |
| `ChatServer.Backend.Disconnect` | server.py:261-264 | the session is disconnected and in no room; nothing is emitted or stored |
| `ChatServer.Backend.JoinChannel` | server.py:266-276 | the session joins `channel_<id>` before one `status` event to the room, so the joiner receives it; a missing id changes nothing |
| `ChatServer.Backend.LeaveChannel` | server.py:278-286 | the session leaves `channel_<id>` before one `status` event to the room, so the leaver does not receive it; a missing id changes nothing |
| `ChatServer.Backend.SendMessage` | server.py:288-315 | with a falsy field, an unknown user or channel, or a taken id, nothing is stored or emitted; otherwise exactly one message is committed, then exactly one `new_message` goes to `channel_<id>`, reaching the sender if it joined |
| `ChatServer.Backend.Commit` | server.py:311-315 | persist then emit: the message is appended to the table and to its channel's history before one `new_message` goes to its room |
| `ChatServer.Backend.Typing` | server.py:317-325 | one `user_typing` goes to `channel_<id>` and excludes the sender; the username defaults to `Anonyme`; nothing is stored |
| `ChatServer.Backend.StatusChange` | server.py:327-342 | an unknown user changes nothing and emits nothing; a known user takes the given status, unvalidated, and every connected session is told |
| `ChatServer.MessageStored` | models.py:174-177 | a message with a new key and an existing author and channel keeps the constraints |
| `ChatServer.ChannelStored` | models.py:89-96 | a channel with a new key in an existing server keeps the constraints |
| `ChatServer.UserStored` | models.py:21-29 | a user with a new id, username, email and tag keeps the constraints |
| `ChatServer.StatusStored` | server.py:333-336 | changing a user's status keeps the constraints |

## Left out

- JWT issuing and checking, `before_request`, and the routes other than the four modelled. Flask and Socket.IO transport are left out.
- Direct messages, voice rooms, WebRTC relay and avatar or icon broadcasts: `server.py` defines no socket handler for them.
- Password hashing (`generate_password_hash`, `check_password_hash`): a hash parameter and a check oracle stand in for them.
- `register` has no route decorator, so no client can reach it. It is modelled as the function it is.
- JSON bodies that are not objects, and JSON `null` as distinct from an absent key (both are `None`). Values that are not strings are left out too.
- The `print` logging of the socket handlers.
- DOM rendering in app.js, which includes all `render*` functions, templates, the mobile tabs and `isMobile`.
- In app.js: uploads (`uploadAvatar`, `saveSettings`, `handleFile`), `localStorage` (`save`, `saveLayout`, `restoreLayout`), and the simulated replies and typing (`setTimeout` and `Math.random`).
- The move branch of `onDrag`, snapping and `stopDrag`. Floating-point geometry is outside the integer model; only the resize clamp is modelled.
- `Text.Lower`: lowers ASCII letters only, whereas `toLowerCase` also lowers non-ASCII letters.
- `Text.Trim`, `AppText.DashRuns`: the white-space set is the ECMAScript one, code point by code point. Surrogate pairs are left out.
- `AppState.App.SendMessage`: the reset of the input box and its height is DOM work, and is left out.
- `AppState.App.CreateChannel`: clearing the name box and closing the modal are DOM work. `newChType` is a parameter.
- `AppState.App.SelectServer`: with an unknown id, `APP.activeSrv` is `undefined`, modelled as `None`.
- `AppData.GroupOf`: a `Membre` whose status is neither online, away nor offline (`dnd`) belongs to no group, as in the code. A present member with any other role belongs to no group either.
- `Resize.Resizer.OnResize`: the `requestAnimationFrame` deferral and `cancelAnimationFrame` are left out. The move is applied at once.
- `Resize.Resizer.StartResize`, `Resize.Resizer.OnResize`: reading the widths back from `getComputedStyle` is I/O and is left out. The grid's widths are fields.
- Widths are integers, not fractional pixels.
- `ChatServer.Backend.Register`, `ChatServer.Backend.Login`: the JWT they return is left out. The reply carries the user row.
- `ChatServer.Backend.Register`, `ChatServer.Backend.CreateChannel`: the 500 body is the error handler's `Erreur serveur`, which holds only with `DEBUG` false. Under the default debug launch the status is still 500 and the store is unchanged, but the body is the Werkzeug debugger's page, which is not modelled.
- `ChatServer.Backend.StatusChange`: the model follows the intent of the code's comment and tells every connected session. Whether the installed Flask-SocketIO accepts `broadcast=True` in this `emit` (server.py:339-342) is not settled by the repository, which pins no Flask-SocketIO version. With a version that rejects the keyword, the status would be committed and nobody told; the model does not cover that case.
- `ChatServer.Backend.SendMessage`: the `created_at` and `edited_at` timestamps are left out. Commit order stands for `created_at`.
