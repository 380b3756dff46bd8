# Team chat: channel editing, message submission and sign-up/log-in, in Dafny

This project models three pieces of a team chat application built on a hosted
chat service, and proves properties of the model.

- **The channel edit form** (`edit_channel.dfy`, module `EditChannel`). A
  signed-in user stages a new channel name, users to add and users to remove.
  Saving first applies two guards: only the creator may add members, and a
  non-creator may remove nobody but themselves. It then makes up to three
  awaited calls on the hosted channel, in the order rename, add, remove.
  Editing closes only when all of them went through. The active channel is
  cleared when the user's own removal went through. Deleting is for the creator
  only. The class `ChannelEditor` holds the channel and the staged edit, plus a
  log of every call made on the hosted channel. Which calls throw is a
  parameter. `Plan` is the sequence of calls a save would make. `Run` says how
  far that sequence gets before the first call that throws.
- **The message pane** (`channel_inner.dfy`, module `ChannelInner`). A message
  longer than 160 characters raises an alert and is not sent. In giphy mode the
  text is sent with the prefix `/giphy `. After a send, the giphy flag and the
  character counter reset. The header shows either the channel's name or, for a
  messaging channel, every other member plus an "and N more" line, and next to
  it the number of users online.
- **The sign-up and log-in handlers** (`auth.dfy`, module `Auth`).
  - The phone number must match `^\d{11,}$`, with ASCII digits.
  - A sign-up whose name or phone number is already taken gets 400. When the
    name is taken, the message is about the name.
  - A sign-up that passes stores one user record with the password's hash.
  - Log-in checks the password against the first user that has the name.
  - Every exception answers 500.
  - The user directory is a field of class `AuthServer`. Each handler's answer
    is given by a function (`SignupOutcome`, `LoginOutcome`). The methods are
    proved equal to those functions, and the lemmas state what the functions
    promise.

`common.dfy` holds `Option`, `Elems` (the set of a sequence's elements),
`UserId` and `IsDigit` (an ASCII decimal digit).

Three behaviours of the code that a reader might not expect are stated as
lemmas:
- Saving an untouched edit of a channel that has no name issues a rename to
  the empty name. The staged name starts as `name || ''` but is compared with
  `name || id` (`UntouchedUnnamedSaveRenames`).
- The 160-character limit is checked before the giphy prefix is added, so a
  message can be sent with 167 characters (`SentLength`).
- The messaging header lists every other member even when it also shows
  "and N more" (`ChannelHeader`).

`updateChannel` renames whenever the staged name differs from `name || id`,
including to the empty name; the model does the same.

## Model

| member | source | states |
|---|---|---|
| EditChannel.DisplayName | client/src/components/EditChannel.jsx:50 | no contract: the name a save compares the staged name with, `name \|\| id`; `PlanCalls` and `UntouchedUnnamedSaveRenames` state what follows from it |
| EditChannel.Plan | client/src/components/EditChannel.jsx:50-62 | no contract: the calls a save makes when none throws; `PlanCalls`, `PlanOrdered`, `CommittedChannel` and `NonCreatorOnlyLeaves` carry its properties |
| EditChannel.Run | client/src/components/EditChannel.jsx:52-69 | no contract: the `try` block's stop at the first call that throws; `RunStops`, `RunPrefix` and `RemovalTookEffect` carry its properties |
| EditChannel.ApplyMembers | client/src/components/EditChannel.jsx:57-62 | no contract: the member set after `addMembers`/`removeMembers` calls; `MembershipFate`, `ApplyMembersIdempotent` and `CommittedChannel` carry its properties |
| EditChannel.ApplyName | client/src/components/EditChannel.jsx:53-55 | no contract: the name after `update({ name })` calls; `CommittedChannel` states the name after a full save |
| EditChannel.ChannelEditor.IsCreator | client/src/components/EditChannel.jsx:40-41 | no contract: the current user is the recorded creator; `Authorize` and `PlanCalls` state what it decides |
| EditChannel.ChannelEditor.IsCurrentUserLeaving | client/src/components/EditChannel.jsx:42 | no contract: the user's own id is staged for removal; `UpdateChannel` states that it clears the active channel once the save went through |
| EditChannel.HasOther | client/src/components/EditChannel.jsx:48 | true iff some staged removal is not the current user |
| EditChannel.Authorize | client/src/components/EditChannel.jsx:47-48 | the add alert iff a non-creator staged additions; the removal alert iff a non-creator staged no additions but someone other than themselves for removal; no alert iff creator or only self-removal staged |
| EditChannel.PlanCalls | client/src/components/EditChannel.jsx:50-62 | a rename is planned iff the creator's staged name differs from `name \|\| id`; an addition iff the creator staged users; a removal iff anyone staged removals; a non-creator's plan is at most the removal |
| EditChannel.PlanOrdered | client/src/components/EditChannel.jsx:52-69 | the plan holds only the staged rename, addition and removal, strictly in the order rename, add, remove |
| EditChannel.RunStops | client/src/components/EditChannel.jsx:52-69 | the calls issued are a prefix of the plan; the calls that took effect did not throw; the save fails iff some planned call throws, at a throwing call; otherwise every planned call took effect |
| EditChannel.RunPrefix | client/src/components/EditChannel.jsx:52-69 | when a prefix of the plan went through and the next call throws (or the plan is exhausted), the run stops exactly there |
| EditChannel.RemovalTookEffect | client/src/components/EditChannel.jsx:60-63 | the staged removal took effect iff the whole plan went through and there was something to remove |
| EditChannel.MembershipFate | client/src/components/EditChannel.jsx:57-62 | after a sequence of add/remove calls a user is a member iff the last call naming them adds them, or no call names them and they were a member |
| EditChannel.ApplyMembersIdempotent | client/src/components/EditChannel.jsx:57-62 | replaying the same add/remove calls does not change the member set again |
| EditChannel.CommittedChannel | client/src/components/EditChannel.jsx:52-69 | a save that went through leaves the members as before plus the creator's additions minus the removals, and the staged name when it changed |
| EditChannel.NonCreatorOnlyLeaves | client/src/components/EditChannel.jsx:47-62 | a non-creator who passes the guards can only leave: the plan is their own removal or empty, and the other members are untouched |
| EditChannel.UntouchedUnnamedSaveRenames | client/src/components/EditChannel.jsx:50-55 | the creator saving an untouched edit of an unnamed channel issues a rename to the empty name first |
| EditChannel.Without | client/src/components/EditChannel.jsx:154 | the filtered list lacks the id, keeps every other id, and is unchanged when the id was absent |
| EditChannel.Toggled | client/src/components/EditChannel.jsx:152-155 | the toggled id is staged iff it was not; every other id keeps its status |
| EditChannel.ToggleTwiceRestores | client/src/components/EditChannel.jsx:152-155 | toggling an unstaged id twice gives back the same list |
| EditChannel.ToggleTwiceSameIds | client/src/components/EditChannel.jsx:152-155 | toggling twice always gives back the same set of staged ids |
| EditChannel.ToggleKeepsDistinct | client/src/components/EditChannel.jsx:152-155 | toggling never stages an id twice |
| EditChannel.ToggleSelfOnly | client/src/components/EditChannel.jsx:150-188 | when only the user's own id is staged, their own toggle keeps it that way |
| EditChannel.ChannelEditor.constructor | client/src/components/EditChannel.jsx:35-40 | the form opens with the channel's name staged, nothing to add or remove, editing on |
| EditChannel.ChannelEditor.ChangeName | client/src/components/EditChannel.jsx:7-9 | the staged name follows the input only for the creator (the input is disabled otherwise) |
| EditChannel.ChannelEditor.SelectUsersToAdd | client/src/components/EditChannel.jsx:111 | the user list's selection becomes the staged additions |
| EditChannel.ChannelEditor.ToggleRemove | client/src/components/EditChannel.jsx:150-188 | the user's own row, or any row for the creator, toggles that id; other rows have no button |
| EditChannel.ChannelEditor.UpdateChannel | client/src/components/EditChannel.jsx:44-70 | a rejected save alerts and changes nothing; otherwise the call log grows by the calls issued, name and members reflect the calls that took effect, the outcome is Done iff all went through, editing closes iff all went through, the active channel is cleared iff the user was leaving and all went through, the staged edit is kept |
| EditChannel.ChannelEditor.Commit | client/src/components/EditChannel.jsx:52-69 | the `try` block: its execution is `Run` of the plan, with the same effects as above |
| EditChannel.ChannelEditor.Step | client/src/components/EditChannel.jsx:53-62 | one guarded awaited call: made iff its guard holds, takes effect unless it throws, and the channel then reflects exactly the calls that took effect |
| EditChannel.ChannelEditor.DeleteChannel | client/src/components/EditChannel.jsx:72-81 | a non-creator is alerted and nothing changes; for the creator the delete call is made; on success the channel is deleted, editing closes and the active channel is cleared; on failure they are kept |
| ChannelInner.TooLong | client/src/components/ChannelInner.jsx:25 | no contract: strictly more than 160 characters; `Composer.Submit`, `Composer.OnChange` and `SentLength` state its use |
| ChannelInner.Prepare | client/src/components/ChannelInner.jsx:30-40 | attachments, mentions and parent are copied, `parent_id` is the parent's id when there is a parent, the sent text is the typed text with the prefix in front in giphy mode and nothing in front otherwise, and it reads as a giphy command iff giphy mode was on or the text already was one |
| ChannelInner.PrepareRoundTrip | client/src/components/ChannelInner.jsx:38-40 | stripping the prefix from the sent text gives back the typed text (in giphy mode, or when the text did not already start with the prefix) |
| ChannelInner.SentLength | client/src/components/ChannelInner.jsx:25-40 | an accepted message is sent with at most 160 characters, or 167 in giphy mode, and a full-length giphy message with exactly 167 |
| ChannelInner.Composer.constructor | client/src/components/ChannelInner.jsx:18-22 | giphy mode off, counter 0, nothing sent |
| ChannelInner.Composer.OnChange | client/src/components/ChannelInner.jsx:58-68 | the counter is the text's length, and it is over the limit iff the text would be rejected |
| ChannelInner.Composer.SetGiphyState | client/src/components/ChannelInner.jsx:50 | the giphy flag is set as given |
| ChannelInner.Composer.Submit | client/src/components/ChannelInner.jsx:24-47 | over 160 characters: the alert and no other change (exactly 160 passes); otherwise, when sending is possible, the prepared message is sent and giphy mode and the counter reset; without `sendMessage` nothing changes |
| ChannelInner.WatcherText | client/src/components/ChannelInner.jsx:118-122 | no contract: `getWatcherText`; `WatcherTextRoundTrip` and `WatcherTextCases` carry its properties |
| ChannelInner.DecimalString | client/src/components/ChannelInner.jsx:121 | a count is printed as decimal digits without a leading zero that denote the count |
| ChannelInner.IntStringRoundTrip | client/src/components/ChannelInner.jsx:121 | the printed watcher count reads back as the count |
| ChannelInner.WatcherTextRoundTrip | client/src/components/ChannelInner.jsx:118-122 | the watcher text reads back as the watcher count (a missing count as 0), so different counts give different texts |
| ChannelInner.WatcherTextCases | client/src/components/ChannelInner.jsx:118-122 | "No users online" iff the count is missing or 0; "1 user online" iff it is 1 |
| ChannelInner.Others | client/src/components/ChannelInner.jsx:88-90 | the listed members are exactly the members whose id is not the current user's |
| ChannelInner.OthersDropsOne | client/src/components/ChannelInner.jsx:88-90 | with members keyed by id and the current user among them, one fewer member is listed |
| ChannelInner.OthersKeepsAll | client/src/components/ChannelInner.jsx:88-90 | when the current user is not a member, every member is listed in order |
| ChannelInner.Label | client/src/components/ChannelInner.jsx:98-99 | no contract: a member's full name, or its id when it has none; `ChannelHeader` states which labels are shown |
| ChannelInner.ChannelHeader | client/src/components/ChannelInner.jsx:87-115 | a messaging channel shows one label per other member, the label of every other member and no one else's, and "and N more" iff more than three others are listed, with N the number beyond three; any other channel shows `# ` and its name |
| Auth.DigitRun | server/controllers/auth.js:13 | the length of the leading run of ASCII digits |
| Auth.IsValidPhoneNumber | server/controllers/auth.js:12-15 | valid iff at least 11 characters and all of them ASCII digits |
| Auth.PhoneExamples | server/controllers/auth.js:12-15 | 11 digits pass; 10 digits, a leading `+`, a space or a trailing letter fail |
| Auth.QueryUsers | server/controllers/auth.js:32-34 | a query returns exactly the matching users of the directory |
| Auth.QueryFirst | server/controllers/auth.js:89 | the first user a query returns is the earliest match in directory order |
| Auth.QueryNone | server/controllers/auth.js:83-87 | a query nobody matches returns nothing |
| Auth.Upsert | server/controllers/auth.js:52-59 | the stored record is present, it replaces the records with its id, others are kept, and with a new id it is appended |
| Auth.ConflictMessage | server/controllers/auth.js:36-44 | no contract: a taken name wins over a taken phone number; `SignupRefusesDuplicates` states both messages |
| Auth.SignupOutcome | server/controllers/auth.js:17-74 | no contract: what `signup` answers and stores; the `Signup...` lemmas below and `SignupThenLogin` carry its properties |
| Auth.LoginOutcome | server/controllers/auth.js:76-109 | no contract: what `login` answers; `LoginUnknownUser`, `LoginChecksFirstMatch`, `LoginFailureAnswers500` and `SignupThenLogin` carry its properties |
| Auth.SignupChecksPhoneFirst | server/controllers/auth.js:22-26 | an invalid phone number answers 400 with its message, whatever else happens later, and stores nothing |
| Auth.SignupRefusesDuplicates | server/controllers/auth.js:36-45 | a taken name answers 400 "Username already exists"; a free name with a taken phone answers 400 "Phone number already registered"; nothing is stored |
| Auth.SignupStoresOneUser | server/controllers/auth.js:47-69 | a sign-up that passes appends exactly one record (given id, name, full name, hashed password, phone, avatar) and answers 200 with that id, its token and the hash |
| Auth.SignupFailureStoresNothing | server/controllers/auth.js:28-73 | any fault (a throwing set-up, query, hash, token or store call) stores nothing; with a valid phone number, a throwing set-up or query answers 500 "Signup failed. Please try again." whether or not the name or phone is taken, and a later throwing call answers 500 once the duplicate check has passed |
| Auth.SignupKeepsUnique | server/controllers/auth.js:31-59 | sign-up keeps ids, names and phone numbers unique in the directory |
| Auth.UpsertKeepsUnique | server/controllers/auth.js:52-59 | storing a record whose name and phone are free keeps the directory unique |
| Auth.LoginUnknownUser | server/controllers/auth.js:83-87 | a name nobody has answers 400 "User not found" |
| Auth.LoginChecksFirstMatch | server/controllers/auth.js:89-104 | the earliest user with the name decides: 500 "Login failed. Please try again." iff that record has no hash (`bcrypt.compare` throws); 401 "Incorrect password" iff the password does not hash to its hash; otherwise 200 with that user's id and token |
| Auth.LoginFailureAnswers500 | server/controllers/auth.js:80-108 | a throwing set-up or query, a throwing compare once a user is found, and a throwing token call once the password is right each answer 500 "Login failed. Please try again."; 500 is answered in exactly these cases and when the record has no hash |
| Auth.SignupThenLogin | server/controllers/auth.js:17-109 | after a successful sign-up, log-in with the same name and password answers 200 for the new id |
| Auth.AuthServer.Signup | server/controllers/auth.js:17-74 | the response and the directory afterwards are those of `SignupOutcome` |
| Auth.AuthServer.Login | server/controllers/auth.js:76-109 | the response is that of `LoginOutcome`, with status 200, 400, 401 or 500, and the directory is untouched |

## Left out

- The chat service's own behaviour is not part of this model. That covers `channel.update`, `addMembers`, `removeMembers`, `delete`, `queryUsers`, `upsertUser`, `createUserToken`, `connect` and `StreamChat.getInstance`. Each call is modelled by its effect on the channel's name and member set, or on the user directory.
- A channel call that throws is assumed to have had no effect on the hosted channel.
- The system message sent with a rename ("Channel renamed to ...") is not modelled.
- Asynchrony is not modelled. Each handler runs to completion before the next event. The toggle buttons capture `isToRemove` when the row renders, and the model reads the current list instead. The two differ only when a second click arrives before the re-render.
- `setUsersToAdd` comes from the user-list component, which is not part of this model. That list is shown only to the creator. `SelectUsersToAdd` is still open to anyone, so the add guard of `updateChannel` is modelled as written.
- `console.error` logging, rendering, styles, avatars, the thread and message list, and the header's edit button are not modelled.
- ToggleTwiceRestores: stated only for an id that was not staged. Toggling a staged id drops every copy and then appends one at the end, so that list is not restored. `ToggleTwiceSameIds` states what holds for every list.
- JavaScript measures `text.length` in UTF-16 code units. The model counts characters, so a text with characters outside the Basic Multilingual Plane is shorter here than in the source.
- The watcher count is an integer or missing. Fractional and NaN counts are not modelled.
- bcrypt's random salt is not modelled. Hashing is a fixed function `hash`, and `bcrypt.compare` is equality with `hash(password)`. A compare that throws is the fault `CompareFails`. A stored record without a hash makes the compare throw too, and is modelled as such.
- The random 16-byte hexadecimal user id is a parameter. `SignupStoresOneUser` assumes it is not already in use.
- Tokens are a fixed function `tokenFor` of the user id. Environment configuration is not modelled. A client that cannot be created is the fault `SetupFails`.
- The user directory is a sequence, not a keyed map, because log-in takes the first user a query returns. Query results follow the directory's order. The service's paging limits are not modelled.
- Request fields are strings. A missing phone number would be tested as the text "undefined", and like any non-digit text it fails.
- `isPhoneTaken` is computed in `signup` but never used. The message depends on the name check alone.
