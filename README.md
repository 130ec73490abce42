# Captcha-gated channel invites — a Dafny model

This project models the core of a Telegram bot that lets a user into a private channel only
after solving a captcha. The bot has two near-identical entry points. `server.js` hosts the
captcha image remotely, time-stamps each session and sweeps stale sessions every minute.
`app.js` writes the image to a local file and has no expiry.

What is modelled:

- **Codes and options** (`CaptchaCodes`). A code is five random decimal digits. The
  `/start` handler builds nine options: the code sits at a random slot and the other eight
  slots get fresh codes. Distractors are not deduplicated. Random draws are parameters.
- **Callback tokens** (`Tokens`). Each option travels as `captcha_option_<slot>_<option>`
  on a 3x3 inline keyboard. The response handler splits the token on `_`. It accepts four
  parts whose first two are `captcha` and `option`, and reads the fourth part as the
  selected code. The slot part is never checked. `Split`/`Join` model JavaScript's
  `split`/`join`, and the round trip is proved in both directions.
- **Session state machine** (`ServerBot.ServerBot`, `AppBot.AppBot`). Each class holds
  `userCaptchaData` as a map that its handlers update in place.
  - `/start` replaces any earlier session of the user.
  - A malformed token, or a token from a user with no session, changes nothing.
  - The correct code deletes the session. A wrong one adds one attempt, and the third
    wrong answer deletes the session.
  - In `server.js` the session is created before the image is hosted. A failed upload
    leaves that session in place without an image id. Replacing a session drops the old
    image id without releasing it. The `userAttempts` guard in `/start` reads a map that
    nothing writes; the model keeps the guard and the field, and no method changes the field.
  - The sweep removes exactly the sessions whose age is strictly greater than 5 minutes.
- **Invite bookkeeping** (`Invites`). A successful answer asks for a link whose
  `expire_date` is `floor(now/1000) + 60` and whose `member_limit` is 1. When a link comes
  back it is recorded in `activeInviteLinks`, and a revocation one minute later is queued
  in `pendingRevocations`. The class invariant says every recorded link has a pending
  revocation. A revocation deletes the user's entry by user id. So an older timer also
  removes a newer link of the same user (`Scenarios.EarlierTimerDropsNewerLink`).
- **Admin and subscriber sets** (`Registry`). `/add` and `/remove` reject a missing id or
  one that parses to 0, a caller who is not an admin, and a duplicate or absent target.
  `/sendtousers` prunes a subscriber only on a 400 response whose description contains
  `PARTICIPANT_ID_INVALID`. `/listusers` leaves exactly the subscribers whose lookup
  succeeded and who have a username. It shortens names to 30 characters plus `...` and sends
  the listing in chunks of at most 4096 characters. These handlers are identical in both
  files, so they are modelled once; the table cites `app.js`.
- **Scenarios** (`Scenarios`) call the handlers in sequence and prove the outcome from the
  contracts alone.

External effects are outcomes passed in as parameters:
- the hosted image (`Option<Upload>`)
- the created invite link (`Option<string>`)
- each broadcast delivery (`UserId -> Delivery`)
- each chat lookup (`UserId -> ChatLookup`)
- the order in which `/listusers` visits the subscribers (`order`, any enumeration of the set)
- the current time in milliseconds

Effects the bot causes are returned to the caller: the image id to release, the invite
request, the evicted sessions and the reply shown to the user.

## Model

| member | source | states |
|---|---|---|
| `Decimal.NatToString` | server.js:267-278 | `${n}` gives a non-empty digit string, one character exactly when n < 10 (every slot 0–8 is one digit) |
| `Decimal.ParseNatToString` | server.js:422 | `parseInt` of a rendered number gives the number back |
| `Decimal.ParseDecimal` | server.js:422 | `parseInt(match[1], 10)` of the digit capture; the value is 0 exactly when every digit is `0`, so `/add admin 00` names no id |
| `CaptchaCodes.GenerateCode` | server.js:144-147 | the code has one character per random draw, each a decimal digit whose value is the draw |
| `CaptchaCodes.CodeDeterminesDraws` | app.js:121-124 | two codes are equal only when their draws are equal; `DistractorMatchesCode` rests on it |
| `CaptchaCodes.OptionList` | server.js:256-264 | nine options, the code at the correct slot, each other slot the next distractor in slot order; all are five-digit codes when the code is |
| `CaptchaCodes.DistractorMatchesCode` | server.js:256-264 | a non-correct slot shows the code exactly when its distractor draws equal the code's draws, so such a duplicate is indistinguishable from the code |
| `CaptchaCodes.BuildOptions` | app.js:162-170 | the option loop produces exactly `OptionList` |
| `Tokens.Split` | server.js:307 | `split('_')` returns one part more than the string has `_` characters, empty parts included |
| `Tokens.SplitPartsFree` | server.js:307 | no part returned by `split('_')` contains `_` |
| `Tokens.SplitJoin` | server.js:307 | splitting a join of `_`-free parts gives back the parts |
| `Tokens.JoinSplit` | app.js:204 | joining the parts of a split gives back the string |
| `Tokens.ParseToken` | server.js:307-313 | an accepted token yields a selected code free of `_` |
| `Tokens.Token` | server.js:267-278 | the `callback_data` `captcha_option_${slot}_${option}` of the button at a global slot (no contract; `TokenSplits` gives its parts) |
| `Tokens.TokenSplits` | server.js:267-278 | a token whose option has no `_` splits into exactly `captcha`, `option`, the slot's digits and the option |
| `Tokens.TokenRoundTrip` | server.js:267-278 | a token `captcha_option_<slot>_<option>` with a `_`-free option parses back to exactly that option |
| `Tokens.AcceptedTokenShape` | app.js:204-210 | every accepted token is `captcha_option_` + middle part + `_` + selected code |
| `Tokens.ShapedTokenAccepted` | server.js:307-313 | conversely, `captcha_option_<middle>_<selected>` with `_`-free parts is accepted with `selected`, whatever the middle part is |
| `Tokens.Row` | server.js:267-270 | a row has three buttons; button k shows option base+k and carries the token for global slot base+k |
| `Tokens.Keyboard` | server.js:266-280 | three rows of three; button (r, k) shows option 3r+k and carries its token |
| `Tokens.KeyboardButtonSelectsOption` | app.js:174-187 | pressing the button of any slot makes the handler read exactly the option shown on it |
| `Tokens.ChallengeAnswersWithCode` | app.js:162-187 | the button at the correct slot shows the session's code and parses back to it |
| `TextHelpers.Truncate` | app.js:443-445 | up to 30 characters unchanged; longer names become their first 30 characters then `...` |
| `TextHelpers.ChunkMessage` | app.js:470-473 | chunks are non-empty, at most the chunk size, all but the last exactly the chunk size, and concatenate to the text |
| `TextHelpers.Contains` | app.js:351 | `includes` holds exactly when the pattern occurs at some index |
| `Invites.RequestAt` | server.js:60-64 | `expire_date` is `floor(now/1000) + 60`, characterised by bounds on now; `member_limit` is 1 |
| `Invites.LinkCreated` | server.js:335 | `if (channelInvite)`: a link is recorded only when one came back and it is not empty (no contract) |
| `Invites.InviteBook.constructor` | server.js:48 | no recorded links and no pending revocations |
| `Invites.InviteBook.Record` | server.js:335-349 | the link is recorded under the user and one revocation of it, due 60 s later, is queued; every recorded link stays scheduled |
| `Invites.InviteBook.Revoke` | server.js:346-349 | a timer fires only once due and when no pending timer is due earlier; its link is revoked, the user's entry is deleted, the timer leaves the queue; the invariant is kept |
| `Registry.MissingId` | app.js:291-293 | `!newAdminId` holds exactly when the argument is absent or made only of zeros |
| `Registry.PrunesRecipient` | app.js:348-351 | a failed send removes its recipient only when there is a response with status 400, error code 400 and a description containing `PARTICIPANT_ID_INVALID` (no contract) |
| `Registry.HasUsername` | app.js:441 | `if (user.username)`: the lookup succeeded and the username is not empty (no contract) |
| `Registry.DetailLine` | app.js:434-461 | a found user adds a line exactly when it has a username; every line added ends in a newline; a listed user's line, two names shortened to at most 33 characters, is at most 70 characters |
| `Registry.Kept` | app.js:441-448 | `validUsers` for the users visited: only those users, and only users whose lookup found a username |
| `Registry.Dropped` | app.js:449-458 | the users deleted during the loop: only visited users, and none whose lookup found a username |
| `Registry.KeptIsFilter` | app.js:441-448 | the users kept by the lookup loop are exactly those listed whose lookup found a username |
| `Registry.DroppedIsFilter` | app.js:449-459 | the users deleted during the loop are exactly those listed without a username or whose lookup failed |
| `Registry.ListingStep` | app.js:434-463 | one loop step appends the subscriber's line and adds the subscriber to the kept or the dropped users |
| `Registry.KeptFromEnumeration` | app.js:423-467 | over `Array.from(subscribedUsers)` the kept users are the subscribers with a username |
| `Registry.Registry.constructor` | app.js:35-37 | the sets start as loaded from the files |
| `Registry.Registry.Subscribe` | app.js:151 | `/start` adds the user to the subscribers |
| `Registry.Registry.AddAdmin` | app.js:289-309 | a missing or zero id, an unauthorised caller or an existing admin leaves `adminIds` unchanged; otherwise it gains exactly the id (same code at server.js:420-440) |
| `Registry.Registry.RemoveAdmin` | app.js:312-334 | a missing or zero id, an unauthorised caller or a non-admin target leaves `adminIds` unchanged; otherwise it loses exactly the id (same code at server.js:443-465) |
| `Registry.Registry.Broadcast` | app.js:337-365 | a non-admin changes nothing; for an admin exactly the subscribers whose delivery fails with a 400 `PARTICIPANT_ID_INVALID` error are removed |
| `Registry.Registry.LookUpAll` | app.js:430-463 | the details text is the header followed by each subscriber's line in order; kept and dropped users are as the loop decides |
| `Registry.Registry.ListUsers` | app.js:415-474 | a non-admin or an empty set changes nothing; otherwise the subscribers become exactly those with a username, and the chunks sent concatenate to the listing |
| `ServerBot.UploadUsable` | server.js:248 | the hosted image is usable only when both its url and its public id are present and non-empty (no contract) |
| `ServerBot.AttemptLimitHit` | server.js:230 | `/start` is refused when `userAttempts` holds the user with a count of at least 3 (no contract) |
| `ServerBot.Expired` | server.js:372 | a session is stale when the time since its creation is strictly more than 5 minutes; `Scenarios.ExpiryIsStrict` pins the boundary (no contract) |
| `ServerBot.ServerBot.constructor` | server.js:46-53 | no sessions, an empty `userAttempts`, no links |
| `ServerBot.ServerBot.Start` | server.js:226-296 | subscribes the user; a fresh session with attempts 0 and the current time replaces any earlier one before the image exists; on a failed upload it stays without an image id; on success the keyboard of `OptionList` is sent and the image id stored |
| `ServerBot.ServerBot.OnCallback` | server.js:300-366 | malformed token or no session: no change; correct: session removed, its image released, one invite request, link recorded and revocation queued only if returned; wrong: attempts + 1, and at 3 the session is removed and its image released, else `3 - attempts` left |
| `ServerBot.ServerBot.Sweep` | server.js:369-380 | removes and returns exactly the sessions with `now - timestamp > 5 min`; all others are untouched |
| `AppBot.AppBot.constructor` | app.js:34-37 | no sessions, no links |
| `AppBot.AppBot.Start` | app.js:149-195 | subscribes the user, replaces any session with the fresh code and 0 attempts, and returns the keyboard of `OptionList` |
| `AppBot.AppBot.OnCallback` | app.js:197-250 | malformed token or no session: no change; correct: session removed, one invite request, link recorded only if returned; wrong: attempts + 1, session removed at 3 |
| `Scenarios.SolveAndRevoke` | server.js:324-349 | pressing the correct button yields the link, and its timer later removes it from the index |
| `Scenarios.ThreeWrongAnswers` | server.js:353-365 | three wrong answers report 2 left, 1 left, exceeded; a fourth finds no session |
| `Scenarios.ExpiryIsStrict` | server.js:372 | a session exactly 5 minutes old survives the sweep, one a millisecond older does not, and a later press finds no session |
| `Scenarios.UnauthorizedAdd` | server.js:429-432 | a non-admin's `/add` is refused and the admin set is unchanged |
| `Scenarios.AddThenRemove` | server.js:433-465 | a duplicate add reports "already an admin"; add then remove restores the admin set |
| `Scenarios.ZeroIdRejected` | server.js:424-427 | `/add admin 00` is rejected as a missing id |
| `Scenarios.MalformedToken` | app.js:204-208 | a three-part token is refused and the session's attempts stay 0 |
| `Scenarios.EarlierTimerDropsNewerLink` | app.js:234-237 | the first link's timer deletes the user's entry although it holds a second link |

## Left out

- Telegram transport calls (`sendMessage`, `sendPhoto`, `deleteMessage`, `getChat`, `createChatInviteLink`, `revokeChatInviteLink`): replaced by replies returned to the caller, and by outcomes passed in where a handler branches on them (the upload, the created link, each broadcast delivery, each chat lookup). Sends whose rejection would only abort a handler are assumed to succeed; the lines below for `ServerBot.ServerBot.Start` and `Registry.Registry.ListUsers` name them.
- Canvas rendering in `createCaptchaImage` (graphics library, random colours, font metrics): the rendered and hosted image is an `Option<Upload>` parameter in `server.js`; in `app.js` the local file write is not modelled.
- Cloudinary upload and destroy: the upload is a parameter; `ServerBot.ServerBot.OnCallback` returns the id it would release. A session without an id passes `undefined` to `deleteCaptchaImage`, which only logs a failure; the model returns `None` then.
- JSON persistence (`loadSubscribers`, `saveSubscribers`, `loadAdmins`, `saveAdmins`, `removeAdmins`) and `logUserAction`: file I/O. Loading becomes the `Registry` constructor's arguments and saving is a no-op.
- `Math.random`, `Date.now`, `setTimeout`, `setInterval`: draws and times are parameters. Timers are the queue `pendingRevocations` fired by `InviteBook.Revoke` and the method `ServerBot.Sweep`. The caller picks the time at which a revocation fires, subject to its being due and to no earlier-due timer still pending; the relative order of that timer and the other handlers is also the caller's choice. No real scheduling and no interleaving of the asynchronous handlers is modelled. In particular a `/start` that runs while an `await` inside another handler is pending is not modelled.
- The shared global `inlineKeyboard`: each `/start` returns its own keyboard.
- The `/help` text and the commented-out list-users block.
- ServerBot.ServerBot.Start: the awaited sends at server.js:238, 249 and 254 are assumed to succeed. A rejected "processing" message at 238 would stop the handler after the subscription and before the session exists; a rejected `deleteMessage` at 249 or 254 would go to the catch at 292-295, leaving the session without an image id, the uploaded image unreleased and no keyboard sent. The model always creates the session and, when the upload is usable, always stores the id and sends the keyboard.
- Registry.Registry.ListUsers: the chunk sends at app.js:472 (server.js:603) are assumed to succeed; a rejected send would stop the remaining chunks, while the model returns all of them.
- Registry.Registry.ListUsers: the insertion order of the JavaScript `Set` is not modelled; `Array.from(subscribedUsers)` is any enumeration `order` of the set, so the order of the listing lines is the caller's choice.
- Registry.Registry.ListUsers: does not state that all chunks but the last are exactly 4096 characters long (`TextHelpers.ChunkMessage` states it).
- User ids are natural numbers and `parseInt` is exact; JavaScript's loss of precision above 2^53 is not modelled. Strings are sequences of Dafny characters rather than UTF-16 code units, which matters only with characters outside the Basic Multilingual Plane: for the 30-character cut, and for the 4096-character chunks, since `substring` counts UTF-16 code units and can split a surrogate pair, so a model chunk of 4096 characters can be up to 8192 JavaScript units.
