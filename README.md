# Report portal: a verified model of its ticket logic

The portal lets a player file a report ("segnalazione") through a five-step web wizard and turns
it into a private ticket channel on the agency's Discord server; staff close a ticket with a
button, which archives a transcript to a log channel and deletes the channel.

This project models the three pieces of sequential logic in it and proves their properties:

- **The report wizard** (`client/src/pages/Report.jsx`), module `ReportWizard`, class `Wizard`.
  Its `useState` hooks are fields, `sessionStorage` is the map `storage`, and each handler is a
  method. The OAuth redirect is a second `Wizard` constructed over the same storage, on which the
  mount effect `RestoreOnMount` runs. `JSON.stringify`/`JSON.parse` are the module `Json`, a
  writer (with the escapes `JSON.stringify` writes) and a partial parser for the flat objects the
  page stores, with a proved round trip. The page decodes the `discord_auth` parameter a second
  time with `decodeURIComponent`; that decode is the module `Uri`. How the POST ends is an input
  of `Submit`.
- **The ticket route** (`server/routes/report.js`), modules `TicketNaming` and `TicketRoute`.
  The guild is the class `Guild`, whose channel list is read by the duplicate check and appended
  to on creation. `Guild.CreateTicket` is proved to produce exactly the response and channel list
  of the specification function `Workflow`; the lemmas beside it state the guard, the shape of
  the new ticket and of its message, and the Roblox field. The Roblox lookup and each Discord
  call are replaced by their outcomes.
- **The close-ticket handler** (`server/index.js`), module `CloseTicket`. The handler returns the
  ordered list of Discord calls it makes. The outcomes of those calls are inputs.

The module `TicketLifecycle` shows how the three fit together. The wizard's request is read back
by the route as the form it expects. The username `name#discriminator` from the OAuth callback
(`server/routes/auth.js:58`) names the ticket after `name`. A whole visit across the redirect
ends with the expected request when the profile's JSON has no `%`. The published button carries
the id the close handler filters on.

Two behaviours of the code worth knowing:
- If fetching the log channel, fetching the history or posting the log rejects, the close
  handler stops there. No deletion is scheduled in that case.
- The close handler reads `STAFF_ROLE_ID` with no fallback. When the variable is unset, nobody
  counts as staff, although the ticket route falls back to a built-in role id.

## Model

| member | source | states |
|---|---|---|
| `Json.RoundTrip` | client/src/pages/Report.jsx:26-45 | what `JSON.stringify` writes into storage, `JSON.parse` reads back unchanged |
| `ReportWizard.RobloxJsonRoundTrip` | client/src/pages/Report.jsx:26-46 | the stored object `{username}` reads back as the same claim |
| `ReportWizard.DiscordJsonRoundTrip` | server/routes/auth.js:56-60 | the object `{id, username, avatar}` the OAuth callback serialises reads back as the same profile |
| `ReportWizard.SavedClaimIsRestored` | client/src/pages/Report.jsx:23-50 | the claim step 1 saves under `roblox_auth` is the claim the mount effect restores after the redirect |
| `Json.ControlCharacterExamples` | client/src/pages/Report.jsx:26 | a tab is written `\t` and U+0001 `\u0001`, as `JSON.stringify` writes them; a raw tab inside a string is refused, as by `JSON.parse` |
| `Uri.DecodeComponent` | client/src/pages/Report.jsx:57 | `decodeURIComponent` leaves text without `%` unchanged and never lengthens it |
| `Uri.MalformedEscapeThrows` | client/src/pages/Report.jsx:57 | a `%` not followed by two hex digits makes the decode throw, wherever it stands |
| `Uri.MalformedExample` | client/src/pages/Report.jsx:57 | the text `50%#0` (a username whose name part ends in `%`) makes the decode throw |
| `Uri.AsciiEscapeExample` | client/src/pages/Report.jsx:57 | `a%41#0` becomes `aA#0`: an escape inside the JSON is interpreted |
| `Uri.Utf8Example` | client/src/pages/Report.jsx:57 | the UTF-8 sequence `%C3%A8` becomes the single character U+00E8 |
| `ReportWizard.DiscordParamIsRestored` | client/src/pages/Report.jsx:53-62 | a profile whose JSON has no `%` survives the second decode and the parse, and becomes exactly `auth.discord` |
| `ReportWizard.RejectionMessage` | client/src/pages/Report.jsx:115-118 | a failed submission shows the server's `error` when it is a non-empty string, else the generic Italian message; never an empty one |
| `ReportWizard.EvidenceParts` | client/src/pages/Report.jsx:104-106 | one `evidence` part per chosen file, in list order |
| `ReportWizard.SubmissionParts` | client/src/pages/Report.jsx:98-106 | the body has the five text fields followed by the files in order |
| `ReportWizard.SubmissionRoundTrip` | client/src/pages/Report.jsx:98-106 | the body read by field name gives `discordId`, `discordUsername`, `robloxUsername`, `title`, `description` as sent, and the files in order |
| `ReportWizard.Wizard.constructor` | client/src/pages/Report.jsx:8-20 | the page starts at step 1 with no claims, an empty form, no files, no error |
| `ReportWizard.Wizard.EditRobloxUsername` | client/src/pages/Report.jsx:210 | typing replaces `auth.roblox` with `{username}` and nothing else |
| `ReportWizard.Wizard.ConfirmRobloxUsername` | client/src/pages/Report.jsx:23-31 | a non-empty username saves the claim under `roblox_auth` and moves to step 2; otherwise an alert, and step and storage unchanged |
| `ReportWizard.Wizard.RestoreOnMount` | client/src/pages/Report.jsx:39-81 | restore the saved claim (a malformed one changes nothing); a `discord_auth` that decodes and parses sets `auth.discord` and step 3 iff a claim was restored, else 1; one on which the decode or the parse throws changes neither step nor profile; with no parameter, step 2 iff something is saved |
| `ReportWizard.Wizard.AdvanceFromDiscord` | client/src/pages/Report.jsx:240-247 | step 2 leads to step 3 only when `auth.discord` is set |
| `ReportWizard.Wizard.EditTitle` | client/src/pages/Report.jsx:262 | only the title changes |
| `ReportWizard.Wizard.EditDescription` | client/src/pages/Report.jsx:271 | only the description changes |
| `ReportWizard.Wizard.AdvanceFromDetails` | client/src/pages/Report.jsx:276-280 | step 4 iff title and description are non-empty; a failed attempt changes nothing |
| `ReportWizard.Wizard.ChooseFiles` | client/src/pages/Report.jsx:83-87 | a selection replaces the file list wholesale, in order; no selection changes nothing |
| `ReportWizard.Wizard.AdvanceFromEvidence` | client/src/pages/Report.jsx:314-318 | step 5 iff at least one file is chosen; otherwise nothing changes |
| `ReportWizard.Wizard.Submit` | client/src/pages/Report.jsx:89-122 | a missing claim sets the authentication error and sends nothing; otherwise the request is the body above; success removes `roblox_auth` and sets success; failure sets the shown message; `isSubmitting` ends false; step, claims, form and files unchanged |
| `ReportWizard.Wizard.DismissError` | client/src/pages/Report.jsx:169-171 | only the error is cleared, and the page shows the step it was on |
| `TicketNaming.UsernamePart` | server/routes/report.js:76 | the result is the longest prefix of the username without `#` |
| `TicketNaming.ToLowerCase` | server/routes/report.js:77 | no ASCII capital remains, `#` is present iff it was, and the text never gets shorter |
| `TicketNaming.LowerIdempotent` | server/routes/report.js:77 | lower-casing twice is lower-casing once |
| `TicketNaming.NonAsciiLettersFold` | server/routes/report.js:77 | KELVIN SIGN sanitises to `k` and U+0130 to `i`, as JavaScript's lower-casing makes them |
| `TicketNaming.StripNonAlnum` | server/routes/report.js:77 | only characters in `[a-z0-9]` remain, never more than the input |
| `TicketNaming.StripConcat` | server/routes/report.js:77 | stripping keeps the kept characters in order: it distributes over concatenation |
| `TicketNaming.StripFixesAlnum` | server/routes/report.js:77 | a string of `[a-z0-9]` is left as it is |
| `TicketNaming.StripDropsOthers` | server/routes/report.js:77 | a string with no `[a-z0-9]` character is removed entirely |
| `TicketNaming.ChannelNameShape` | server/routes/report.js:76-78 | the name is `ticket-` followed only by `[a-z0-9]` |
| `TicketNaming.SanitizeIdempotent` | server/routes/report.js:77 | sanitising the suffix again changes nothing |
| `TicketNaming.UsernamePartOfPlain` | server/routes/report.js:76 | a username without `#`, followed by `#` and anything, splits back to itself |
| `TicketNaming.DiscriminatorIgnored` | server/routes/report.js:76 | `u#d` and `u` give the same channel name for every `u` without `#` |
| `TicketNaming.LowerPreservesSplit` | server/routes/report.js:76-77 | lower-casing and splitting at `#` commute |
| `TicketNaming.CaseIgnored` | server/routes/report.js:76-78 | a username and its lower-cased form give the same channel name |
| `TicketNaming.SteveExample` | server/routes/report.js:76-78 | `Steve#1` gives `ticket-steve` |
| `TicketRoute.Configured` | server/routes/report.js:64-73 | the category and staff ids are the environment's when set and non-empty, else the literals; never empty, so the missing-configuration answer cannot happen |
| `TicketRoute.RobloxField` | server/routes/report.js:43-60 | when the lookup found users, the embed's Roblox field links `/users/<id>/profile` of the first one and shows its id; when it failed or found none, it links the keyword search and shows `Unknown` |
| `TicketRoute.FindExisting` | server/routes/report.js:88-91 | the first channel with that parent and that name, or none when no channel matches |
| `TicketRoute.AttachmentPaths` | server/routes/report.js:152 | the stored paths of the uploads, in upload order |
| `TicketRoute.DuplicateGuard` | server/routes/report.js:88-96 | the answer is 400 exactly when a same-named channel exists in the category; it names the ticket and changes no channel |
| `TicketRoute.OtherCategoryDoesNotBlock` | server/routes/report.js:88-91 | a same-named channel under another parent does not stop the ticket |
| `TicketRoute.AtMostOneTicketAdded` | server/routes/report.js:100-129 | the channel list is unchanged or gains one ticket, named after the user, in the category, with exactly the deny-everyone and allow-staff overwrites, plus a user overwrite iff the id is longer than 15 characters and adding it worked |
| `TicketRoute.SuccessMeansPublished` | server/routes/report.js:152-161 | the answer is 200, 400 or 500; 200 exactly when the ticket was created and its message posted, with the new channel's id |
| `TicketRoute.FailedSendLeavesTicket` | server/routes/report.js:154-166 | when posting fails the client gets 500 but the created channel remains |
| `TicketRoute.SecondSubmissionRejected` | server/routes/report.js:76-96 | after a successful ticket, any later submission whose username names the same ticket gets 400 and changes nothing |
| `TicketRoute.PublishedMessage` | server/routes/report.js:132-159 | the message mentions the user and the staff role, its embed is titled `Nuova Segnalazione: <title>` with the Roblox field `[name](link) (ID: id)` and the description, it has the close button, and its files are the upload paths in order |
| `TicketRoute.Guild.CreateTicket` | server/routes/report.js:42-167 | the response and the new channel list are those of `Workflow` |
| `TicketRoute.SubmitReport` | server/routes/report.js:25-39 | with no guild the answer is 500 `Bot not in any guild` before anything else; otherwise as `Guild.CreateTicket` |
| `CloseTicket.Reverse` | server/index.js:73 | element `i` of the result is element `n-1-i` of the input |
| `CloseTicket.Lines` | server/index.js:73 | each message rendered `tag: content`, in order |
| `CloseTicket.SplitJoin` | server/index.js:73 | joining lines without line feeds with `\n` and splitting again gives the lines back |
| `CloseTicket.TranscriptOldestFirst` | server/index.js:73 | no messages give the empty transcript; the oldest fetched message opens the transcript |
| `CloseTicket.TranscriptLines` | server/index.js:73 | the transcript has one line per message, in chronological order, each `tag: content` |
| `CloseTicket.HandleInteraction` | server/index.js:56-89 | non-close interactions do nothing; non-staff get only the private denial; staff get the private acknowledgement, then the log-channel fetch, then a fetch of at most 100 messages, then the log post with `Ticket chiuso da <tag>` and `transcript-<name>.txt` only if the log channel resolved, then the scheduled deletion |
| `TicketLifecycle.SubmittedTicketName` | server/routes/auth.js:56-60 | the route reads the wizard's fields as sent, and names the ticket after the username without its discriminator |
| `TicketLifecycle.PublishedButtonCloses` | server/routes/report.js:143-149 | an agreement of constants: the published button's custom id is the `close_ticket` the handler filters on |
| `TicketLifecycle.ReportJourney` | client/src/pages/Report.jsx:23-122 | a full visit across the OAuth redirect with a profile whose JSON has no `%` submits both claims, the details and the files; success clears the saved claim and shows the success screen, failure shows the error; when the second decode throws, the visit ends on step 1 with the claim saved and nothing sent |

## Left out

- `handleDiscordAuth` (client/src/pages/Report.jsx:33-36) is navigation. The redirect is modelled as a new `Wizard` over the same storage.
- Cleaning the URL with `history.replaceState` (line 73 of Report.jsx) and the `error` query parameter of the OAuth callback are not modelled. The page never reads that parameter.
- `alert(...)` dialogs are modelled as the alert text a handler returns. Console logging is left out.
- `ReportWizard.DiscordParamIsRestored`: the round trip is stated only for profiles whose JSON has no `%`. With a `%`, the page's second decode either throws, and the profile is dropped, or rewrites the text (`%41` becomes `A`). `RestoreOnMount` models both, but no lemma states which profile results.
- `TicketLifecycle.ReportJourney`: the full visit is stated for profiles whose JSON has no `%`, and for those on which the second decode throws. When the decode succeeds but changes the text, the visit goes on with whatever profile the changed text parses to; no ensures describes that case.
- The `discord_auth` value is taken after `URLSearchParams` has decoded it once. The callback's `encodeURIComponent` (server/routes/auth.js:56) and that first decode are taken to cancel out.
- `Json.Parse` accepts only the subset that `Stringify` writes: `null`, and flat objects with string or `null` members with no whitespace. Other JSON, which `JSON.parse` would accept, counts as a parse failure. No writer in the system produces such text.
- `Json.Parse`: a `\u` escape naming a UTF-16 surrogate counts as a failure. Model strings hold Unicode scalar values, so neither a lone surrogate nor an escaped surrogate pair is represented.
- Claims read from a parsed object hold their properties as absent, `null` or string. Numbers, booleans and nested values are not modelled.
- `Submit` takes how the POST ended as an input. The HTTP request and its asynchrony are not modelled. That the button is disabled while a request is in flight becomes the precondition `!isSubmitting`.
- `TicketNaming.ToLowerCase` computes JavaScript's `toLowerCase` only as far as the strip after it can tell. It lower-cases `A-Z`. It turns KELVIN SIGN into `k` and U+0130 into `i` followed by U+0307, as JavaScript does. Every other character keeps its non-ASCII lower-case form in JavaScript, so the model keeps the character unchanged. The ticket name is the same either way.
- `TicketRoute.UserOverwriteAttempted` uses the length in characters. JavaScript counts UTF-16 code units; the two agree for the digit strings Discord ids are made of.
- Roblox lookup: the request itself (`excludeBannedUsers`) is foreign network I/O. Only its result shape is an input, and the numeric id is taken as its decimal text.
- Discord calls (`channels.fetch`, `channels.create`, `permissionOverwrites.create`, `send`, `messages.fetch`, `channels.fetch` of the log channel, `reply`, `delete`) are each replaced by their outcome. Rejections of `interaction.reply` are not modelled.
- The embed's timestamp (a clock read) is left out. So is the validation discord.js applies to embed fields; for example, an undefined description makes the embed builder throw.
- Multer disk storage, the `Date.now()` file names and the `uploads/` directory (server/routes/report.js:9-23) are filesystem I/O and the clock. Uploads are inputs carrying their stored path.
- The 5-second `setTimeout` before deletion is recorded as "deletion scheduled". Timing, cancellation and the caught deletion error are not modelled.
- Two concurrent submissions for the same user can both pass the duplicate test before either creates its channel. This race is not modelled: the model is sequential.
- The Express global error handler (server/index.js:50-53), bot login and server start are start-up plumbing.
- `server/routes/auth.js` (OAuth token exchange) is not part of this model. It is used only for the `username#discriminator` format and the shape of the profile it serialises.
- `client/src/pages/Home.jsx`, `client/src/components/Navbar.jsx`, `client/src/App.jsx`, `client/tailwind.config.js` and `client/src/api/index.js` are presentation, timers, randomness and routing glue.
