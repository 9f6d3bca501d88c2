# OpenHouse sign-in app, modelled in Dafny

OpenHouse is an iPad app for an open house. A visitor reads the non-agency disclosure and accepts it,
then types their details and signs. The visit is stored on the device. An agent can export the visits
as CSV, export one visit as a PDF summary, sign in to a small user server and browse its users.

This project models the behaviour of that app and proves properties of the model:

- **The sign-in flow.** `Flow.AppState` is a class that holds the route, the current visitor, the
  stored visitors, the agent settings and the exporter flags. Each screen is a class whose methods
  are its button handlers. A button's `.disabled` guard is the method's precondition. The screen a
  handler belongs to is visible only on its route, so each handler also requires that route.
  One predicate, `VisitorInfoView.SignInInvariant`, is kept by every handler. It says that past the
  disclosure the visitor has agreed, and that on the signature screen the name and email are also
  non-blank. As a result, every visitor that is appended has agreed and filled in both fields.
- **Persistence.** `UserDefaults` is a map from strings to bytes. JSON is an encode/decode pair,
  `Persistence.Codec`, together with a round-trip predicate that the lemmas assume where needed.
- **Export.**
  - `escapeCSV` and the row builder are checked against a reader for one record that follows the
    quoting of RFC 4180, section 2, rule 7. Reading a visitor's row back gives its nine values.
  - The PDF summary is its title, its selected text lines and its optional signature. The drawing
    itself is left out.
- **The CRM list.** The search filter, and a `load` that does nothing while another load is running.
- **The HTTP client.** The outcome of each network call is an input of type `Api.Exchange`: it
  throws, returns a non-HTTP response, or returns an HTTP status and body. The model covers:
  - the status classification of `createUser`;
  - the single retry of `login`;
  - the requests `testAuth` and `getUsers` build;
  - the Basic header, whose base 64 text (RFC 4648, section 4) decodes back to the UTF-8 of
    `user:password` (RFC 7617, section 2). UTF-8 (RFC 3629, section 3) has a decoder too, so the
    header determines the credentials.

The code's route enum declares four cases (OpenHouse/ViewModels/AppState.swift:12), but `RootView`
switches over six. Some views also use members that `AppState` does not declare (`isAuthenticated`,
`authUsername`, `isSubmittingUser`, `lastCreatedUser`, `lastAPIError`). The model follows the views:
`Flow.Route` has six cases, and those members are plain fields of `AppState`, written only where a
view writes them.

Libraries become parameters, since there is no code behind them to model:
- the JSON coders (`Codec`, `encode`, `decodeUser`, `decodeLogin`, `decodeUsers`, `decodeMap`);
- UTF-8 decoding of response bodies (`utf8Text`);
- the date formatters (`iso8601`, `localized`);
- `UIImage(data:)` (`isImage`);
- `NSError.localizedDescription` for errors without a stored description (`systemText`);
- `(error as? LocalizedError)?.errorDescription` (`describe`);
- `s.contains("")` (`containsEmpty`);
- whether a file write succeeds (`writeSucceeds`);
- the clock and `UUID()` (`now`, `freshId`).

## Model

| member | source | states |
|---|---|---|
| Text.Trim | OpenHouse/Views/VisitorInfoView.swift:61-62 | the result is the slice of the input left after cutting the runs of trimmed characters at both ends; it is empty exactly when every character is in the trimmed set, and a non-empty result starts and ends outside it |
| Text.Lower | OpenHouse/Views/CRMView.swift:31-36 | lowercasing keeps the length and maps each character on its own |
| Text.ContainsChar | OpenHouse/Support/Utilities.swift:11 | `contains` of a one-character string holds exactly when that character occurs |
| Text.ContainsAt | OpenHouse/Views/CRMView.swift:34-36 | substring search holds exactly when the needle occurs at some position |
| Text.IntToStringRoundTrip | OpenHouse/Support/UsersAPI+List.swift:15-16 | the decimal text of any Int reads back as that Int |
| Text.Prefix | OpenHouse/ViewModels/AppState.swift:92 | `prefix(n)` is a prefix of length min(n, count) |
| Utf8.EncodeScalar | OpenHouse/Support/API.swift:51 | one to four bytes per scalar; one byte, equal to the code, exactly for ASCII; otherwise a lead byte and continuation bytes; the lead byte gives the length, the form is the shortest one and the payload bits carry the code point |
| Utf8.DecodeEncode | OpenHouse/Support/API.swift:51 | a decoder that rejects malformed, overlong and non-scalar sequences recovers every string from its UTF-8 bytes |
| Utf8.EncodeInjective | OpenHouse/Support/API.swift:51 | distinct strings have distinct UTF-8 encodings |
| Utf8.EncodeConcat | OpenHouse/Support/API.swift:50-51 | UTF-8 encoding of `user + ":" + password` is the concatenation of the parts' encodings |
| Base64.Encode | OpenHouse/Support/API.swift:52 | the output has 4 characters per started group of 3 bytes, all from the alphabet or the pad |
| Base64.DecodeEncode | OpenHouse/Support/API.swift:52 | decoding `base64EncodedString()` gives back the bytes, for every input |
| Csv.DoubleQuotes | OpenHouse/Support/Utilities.swift:12 | doubling the quotes adds one character per quote |
| Csv.CollapseDoubled | OpenHouse/Support/Utilities.swift:12 | collapsing `""` to `"` undoes the doubling |
| Csv.EscapeCsvShape | OpenHouse/Support/Utilities.swift:10-15 | the input is returned unchanged exactly when it needs no quoting; a comma or a quote always forces quoting; a quoted result is 2 + quotes longer, has a quote at each end, and its inside collapses back to the input |
| Csv.EscapeEncodes | OpenHouse/Support/Utilities.swift:11-14 | every result of `escapeCSV` is a cell that the record reader reads back as its input |
| Csv.RecordRoundTrip | OpenHouse/ViewModels/AppState.swift:82 | cells joined with commas parse back to their values |
| Visitors.MakeVisitor | OpenHouse/Models/Visitor.swift:25-49 | the initializer stores every argument unchanged |
| Visitors.DefaultVisitor | OpenHouse/Models/Visitor.swift:26-36 | with only an id, all strings are empty, both flags are false, and there is no date or signature |
| Visitors.DefaultsDifferOnlyInId | OpenHouse/Models/Visitor.swift:12 | two default records are equal exactly when their ids are |
| Settings.DefaultSettings | OpenHouse/Models/AgentSettingsModel.swift:10-14 | the default address is "1833 Gale Ave, Hermosa Beach, CA" and the other two fields are empty |
| Users.FullName | OpenHouse/Models/User.swift:20 | first name, one space, last name: length, prefix, separator and suffix |
| Users.FullNameDetermines | OpenHouse/Models/User.swift:20 | when first names have no space, the full name determines both names |
| Persistence.Read | OpenHouse/ViewModels/AppState.swift:33-40 | a value comes back exactly when the key is present and its bytes decode |
| Persistence.Write | OpenHouse/ViewModels/AppState.swift:44-49 | the key is set exactly when encoding succeeds; otherwise the store is unchanged; other keys are kept |
| Persistence.WriteThenRead | OpenHouse/ViewModels/AppState.swift:43-50 | with a round-tripping codec, what was written reads back |
| Persistence.WriteOtherKey | OpenHouse/ViewModels/AppState.swift:43-50 | writing one key does not change what another key reads |
| Exports.InDirectory | OpenHouse/ViewModels/AppState.swift:85 | the file URL is the directory (written without a trailing slash), a slash and the name |
| Exports.YesNo | OpenHouse/ViewModels/AppState.swift:75 | "Yes" exactly for true, "No" exactly for false |
| Exports.SignedAtText | OpenHouse/ViewModels/AppState.swift:80 | an absent `signedAt` gives "", a present one its ISO 8601 text |
| Exports.RowCells | OpenHouse/ViewModels/AppState.swift:71-81 | nine cells in header order; only the six string fields go through `escapeCSV` |
| Exports.CsvRows | OpenHouse/ViewModels/AppState.swift:70-83 | one row per visitor, in list order |
| Exports.CsvRowsAppend | OpenHouse/ViewModels/AppState.swift:82 | one more visitor appends exactly its row |
| Exports.CsvDocumentEmpty | OpenHouse/ViewModels/AppState.swift:68 | with no visitors the document is the header row |
| Exports.CsvDocumentAppend | OpenHouse/ViewModels/AppState.swift:82-84 | one more visitor appends its row to the document with nothing in between |
| Exports.HeaderRoundTrip | OpenHouse/ViewModels/AppState.swift:65-68 | the header row parses back to the nine column names |
| Exports.RowRoundTrip | OpenHouse/ViewModels/AppState.swift:71-82 | a visitor's row parses back to its nine values, whatever its text fields hold |
| Exports.PdfValue | OpenHouse/ViewModels/AppState.swift:118 | the Signed At line shows the localized date, or the placeholder when there is none |
| Exports.PdfLines | OpenHouse/ViewModels/AppState.swift:104-118 | one "Caption: value" line per drawn field, in drawing order |
| Exports.PdfLineSelection | OpenHouse/ViewModels/AppState.swift:104-118 | Brokerage and Agent of Record lines exactly when non-empty; agent lines exactly when the visitor has an agent and the field is non-empty; the other seven always; 7 to 12 lines |
| Exports.PdfFileName | OpenHouse/ViewModels/AppState.swift:92 | "OpenHouse_", then at most the first 8 characters of the id, then ".pdf" |
| Exports.ShowsSignature | OpenHouse/ViewModels/AppState.swift:120 | the signature is drawn exactly when PNG bytes are stored and decode as an image |
| Exports.PdfContent | OpenHouse/ViewModels/AppState.swift:94-125 | the page holds the title, the selected lines and the signature exactly when it is shown |
| Api.LocalizedDescription | OpenHouse/Views/CRMView.swift:26 | the stored description when there is one, else the system's text |
| Api.ErrorDescription | OpenHouse/Support/API.swift:24-30 | always present; `.message(m)` gives m, `.transport(e)` gives e's description, `.badStatus(c)` gives exactly "HTTP " followed by the decimal text of c, which reads back as c |
| Api.BaseUrl | OpenHouse/Support/API.swift:10-17 | either base URL has an empty path and no query |
| Api.AppendingPathComponent | OpenHouse/Support/API.swift:82-87 | one more path segment; origin and query kept |
| Api.AppendingQueryItems | OpenHouse/Support/API.swift:250-256 | the existing query items, then the new ones |
| Api.BasicAuthorization | OpenHouse/Support/API.swift:49-54 | "Basic " followed by text that decodes to the UTF-8 of `user:password` |
| Api.UserPassRoundTrip | OpenHouse/Support/API.swift:50 | splitting `user:password` at its first colon, as an RFC 7617 receiver does (the reference definition `Api.SplitUserPass`), gives both back when the user has no colon |
| Api.BasicAuthorizationDetermines | OpenHouse/Support/API.swift:49-54 | for colon-free usernames, two credentials give the same Basic header only when username and password are both the same |
| Api.StatusFailure | OpenHouse/Support/API.swift:195-199 | the error carries the given domain, the status as its code, and exactly the description "prefix (code): body", whose code text reads back as the status |
| Api.LoginAttempt | OpenHouse/Support/API.swift:181-203 | success exactly for a 2xx response that decodes; a transport error passes through; a non-HTTP response gives `badServerResponse`; a non-2xx status gives "Login failed (code): body"; an undecodable 2xx body gives the decoding error |
| Api.UsersAttempt | OpenHouse/Support/UsersAPI+List.swift:42-52 | success exactly for a 2xx response whose body decodes, and then the decoded users; a transport error passes through; a non-HTTP response gives `badServerResponse`; a non-2xx status gives "GET /users failed (code): body"; an undecodable 2xx body gives the decoding error |
| Api.ResponseIsNoGlitch | OpenHouse/Support/API.swift:205-212 | a received response never fails with a glitch error, so only a thrown transport error can cause a retry |
| Api.Detail | OpenHouse/Support/API.swift:113 | present exactly when the body decodes to a map with a "detail" key, and then equal to it |
| Api.UsersApi.constructor | OpenHouse/Support/API.swift:34-46 | no Basic header and no token at start |
| Api.UsersApi.SetCredentials | OpenHouse/Support/API.swift:49-54 | the header becomes the Basic authorization of the credentials |
| Api.UsersApi.ClearCredentials | OpenHouse/Support/API.swift:56 | the header is reset to nil |
| Api.UsersApi.TestAuth | OpenHouse/Support/API.swift:59-70 | `GET /users?limit=1`; Authorization exactly when a header is stored; any non-2xx or non-HTTP response gives `.message("Invalid username/password")` |
| Api.UsersApi.CreateUser | OpenHouse/Support/API.swift:81-131 | POST with the encoded body; 4xx gives its detail or `.badStatus`; other non-2xx gives `.badStatus`; 2xx decodes, and an undecodable 2xx body gives `.transport` of the decoding error; a thrown request is wrapped as `.transport`; an encoding failure escapes unwrapped and sends nothing |
| Api.UsersApi.MakeJsonRequest | OpenHouse/Support/API.swift:140-154 | a JSON POST with exactly Content-Type and Accept, plus `Connection: close` when asked |
| Api.UsersApi.Login | OpenHouse/Support/API.swift:169-245 | one request, or two exactly when the first attempt throws a -1005/-1017 URL error; the retry alone has `Connection: close`; the result is the deciding attempt's; the token is set only on success |
| Api.UsersApi.GetUsers | OpenHouse/Support/UsersAPI+List.swift:11-53 | query items exactly skip then limit, in decimal; Bearer header exactly when a token is stored; its result is exactly `Api.UsersAttempt` of the exchange |
| Flow.AppState.constructor | OpenHouse/ViewModels/AppState.swift:15-29 | starts on the disclosure with a default visitor, then loads the stored visitors and settings |
| Flow.AppState.Load | OpenHouse/ViewModels/AppState.swift:32-41 | each of the two values is replaced only when its key is present and its bytes decode, otherwise kept |
| Flow.AppState.Save | OpenHouse/ViewModels/AppState.swift:43-50 | both keys written; each value reads back when its codec round-trips; other keys kept |
| Flow.AppState.SaveThenLoad | OpenHouse/ViewModels/AppState.swift:32-50 | save then load leaves visitors and settings unchanged when the codecs round-trip |
| Flow.AppState.ResetCurrent | OpenHouse/ViewModels/AppState.swift:53 | the current visitor becomes a default one and nothing else changes |
| Flow.AppState.CompleteSignature | OpenHouse/ViewModels/AppState.swift:55-61 | the list grows by one with earlier entries kept; the new last entry is the visitor with signature and time; the id is kept; the store is saved; route is Done |
| Flow.AppState.ExportCsv | OpenHouse/ViewModels/AppState.swift:64-87 | the bytes written are the UTF-8 of the header row followed by one row per visitor; a URL only when the write succeeds |
| Flow.AppState.ExportPdf | OpenHouse/ViewModels/AppState.swift:89-129 | the page written is the summary of the settings and this visitor; a URL named after the id only when the write succeeds |
| VisitorInfoView.CanProceedMeaning | OpenHouse/Views/VisitorInfoView.swift:60-63 | `canProceed` holds exactly when name and email each have a character outside the whitespace set |
| VisitorInfoView.NewlineNameProceeds | OpenHouse/Views/VisitorInfoView.swift:61 | a non-empty name made only of newlines counts as filled in, so the email alone decides `canProceed` |
| VisitorInfoView.CanProceedIgnoresOtherFields | OpenHouse/Views/VisitorInfoView.swift:60-63 | phone and agent fields never change `canProceed` |
| VisitorInfoView.InfoScreen.Back | OpenHouse/Views/VisitorInfoView.swift:52 | back to the disclosure, visitor untouched, invariant kept |
| VisitorInfoView.InfoScreen.Next | OpenHouse/Views/VisitorInfoView.swift:54-56 | only when `canProceed`; on to the signature, visitor untouched, invariant kept |
| VisitorInfoView.InfoScreen.Edit | OpenHouse/Views/VisitorInfoView.swift:18-40 | the bound fields change; id, agreement and signature are kept; invariant kept |
| DisclosureView.DisclosureScreen.Appear | OpenHouse/Views/DisclosureView.swift:24 | the box starts unchecked on each appearance |
| DisclosureView.DisclosureScreen.Toggle | OpenHouse/Views/DisclosureView.swift:119-121 | the flag takes the toggle's value |
| DisclosureView.DisclosureScreen.ContinueToSignIn | OpenHouse/Views/DisclosureView.swift:130-135 | only when checked; the visitor's agreement becomes true and nothing else of it changes; route Info; invariant holds |
| SignatureView.SignatureScreen.Appear | OpenHouse/Views/SignatureView.swift:13-14 | an empty canvas and `hasDrawing` false |
| SignatureView.SignatureScreen.DrawingDidChange | OpenHouse/Views/SignatureView.swift:72-74 | `hasDrawing` becomes "at least one stroke" |
| SignatureView.SignatureScreen.Clear | OpenHouse/Views/SignatureView.swift:31-34 | an empty drawing and `hasDrawing` false |
| SignatureView.SignatureScreen.Back | OpenHouse/Views/SignatureView.swift:36 | back to the visitor information, invariant kept |
| SignatureView.SignatureScreen.Done | OpenHouse/Views/SignatureView.swift:37-49 | only with a drawing, which has at least one stroke while the flag tracks the canvas; completes the signature; the visitor appended has agreed and has a non-blank name and email |
| DoneView.StatusLine | OpenHouse/Views/DoneView.swift:15-26 | submitting first, then the created user, then the error, otherwise no label; `DoneView.DoneScreen.Status` reads it from the app state's three fields |
| DoneView.SyncedTextId | OpenHouse/Views/DoneView.swift:19 | the synced label carries the user's id in decimal after "Synced as #" |
| DoneView.SummaryFields | OpenHouse/Views/DoneView.swift:59-69 | agent rows exactly when the visitor has an agent; the other six rows always; no settings rows |
| DoneView.SummaryValue | OpenHouse/Views/DoneView.swift:59-69 | Signed At shows the date, or an em dash when absent; other rows as in the PDF |
| DoneView.SummaryRows | OpenHouse/Views/DoneView.swift:58-70 | one caption/value row per listed field, in order |
| DoneView.SummaryAgentRows | OpenHouse/Views/DoneView.swift:63-67 | an "Agent Name" row appears exactly when the visitor has an agent |
| DoneView.DoneScreen.Finish | OpenHouse/Views/DoneView.swift:35-37 | a default visitor and route Disclosure |
| DoneView.DoneScreen.ExportPdf | OpenHouse/Views/DoneView.swift:46-50 | exporter items become [url] and the share sheet is raised only when a URL comes back; otherwise both are unchanged |
| AgentSettingsView.SettingsSheet.EditSettings | OpenHouse/Views/AgentSettingsView.swift:17-19 | the three fields take any text |
| AgentSettingsView.SettingsSheet.ClearAll | OpenHouse/Views/AgentSettingsView.swift:37-38 | no visitors, the empty list saved, settings and current visitor untouched |
| AgentSettingsView.SettingsSheet.SaveAndDismiss | OpenHouse/Views/AgentSettingsView.swift:45-55 | saved, then the sheet dismissed |
| AgentSettingsView.SettingsSheet.ExportCsv | OpenHouse/Views/AgentSettingsView.swift:56-58 | exporter items and the share flag are set only when a URL comes back |
| RootView.VisibleMenu | OpenHouse/Views/RootView.swift:25-39 | the items kept in order, minus the hidden route: CRM signed out, Login signed in |
| RootView.MenuByAuthentication | OpenHouse/Views/RootView.swift:15-39 | signed out: Disclosure and Login; signed in: Disclosure and CRM |
| RootView.MenuRoutes | OpenHouse/Views/RootView.swift:15-20 | no sidebar row leads to Info, Signature or Done |
| RootView.Title | OpenHouse/Views/RootView.swift:92-101 | every route has a non-empty title |
| RootView.TitleInjective | OpenHouse/Views/RootView.swift:92-101 | two routes share a title exactly when they are the same route |
| RootView.LogoutLabel | OpenHouse/Views/RootView.swift:51 | "Logout" exactly for an empty username, else "Logout " and the username |
| RootView.Root.constructor | OpenHouse/Views/RootView.swift:13 | the selection starts on the disclosure |
| RootView.Root.Appear | OpenHouse/Views/RootView.swift:86 | the selection follows the route |
| RootView.Root.RouteDidChange | OpenHouse/Views/RootView.swift:88 | a route change is mirrored in the selection |
| RootView.Root.Select | OpenHouse/Views/RootView.swift:87-88 | a visible row becomes both the selection and the route; the sign-in invariant holds |
| RootView.Root.Deselect | OpenHouse/Views/RootView.swift:87 | a nil selection leaves the route alone |
| RootView.Root.Logout | OpenHouse/Views/RootView.swift:41-48 | only when signed in; signed out, empty username, token "" (not nil), route and selection Login |
| RootView.Root.OpenSettings | OpenHouse/Views/RootView.swift:103-106 | only when signed in; the settings sheet is raised |
| LoginView.LoginScreen.Appear | OpenHouse/Views/LoginView.swift:12-15 | empty fields, no error, not loading |
| LoginView.LoginScreen.EditCredentials | OpenHouse/Views/LoginView.swift:29-36 | the fields take the typed text |
| LoginView.LoginScreen.SignIn | OpenHouse/Views/LoginView.swift:53-88 | only when enabled; success signs in under the username, opens the disclosure and stores the token; failure signs out and shows the description or "Login failed"; loading ends |
| CrmView.EmptyQuery | OpenHouse/Views/CRMView.swift:31-32 | the query is empty exactly when the search text is all whitespace and newlines |
| CrmView.FilterUsers | OpenHouse/Views/CRMView.swift:33-37 | a subsequence of the users holding each matching user as often as the list does, and no other |
| CrmView.FilterMembership | OpenHouse/Views/CRMView.swift:33-37 | a user is listed exactly when it is in the list and matches |
| CrmView.CrmUsersVm.constructor | OpenHouse/Views/CRMView.swift:13-16 | no users, empty search, not loading, no error |
| CrmView.CrmUsersVm.Filtered | OpenHouse/Views/CRMView.swift:30-38 | every user for a blank search, otherwise the matching users; always a subsequence |
| CrmView.CrmUsersVm.Load | OpenHouse/Views/CRMView.swift:18-28 | a no-op while loading; otherwise what `getUsers` returns is exactly `Api.UsersAttempt` of the exchange; success replaces the users, and failure keeps them and shows that error's localized description; loading ends |

## Left out

- SwiftUI layout, focus handling, sheets, the share sheet, `DetailShell`, the app entry point and the disclosure's legal text: presentation only.
- Drawing: the PencilKit canvas is seen only through its stroke count, and `image.pngData()` is the parameter `png`. The PDF renderer, its coordinates and fonts are left out; only the selection of lines, the title, the signature and the file name are modelled.
- Networking: URLSession, its configurations and timeouts are left out. Each request's outcome is an input, so the exact error a real server or network produces is not modelled.
- Concurrency: `async`/`await`, MainActor scheduling, overlapping calls and the order of `defer` against other tasks. Each handler runs to completion in one step.
- `print` calls.
- The automatic submission to `createUser` after signing, and the writes to `isSubmittingUser`, `lastCreatedUser` and `lastAPIError`, are not part of the shown code. The model only reads those fields.
- The `dateFormatter` used to encode a `UserCreate` (OpenHouse/Support/API.swift:72-79) has no date field to act on.
- `UserCreate`, `UserResponseDTO` and `LoginRequest` are plain records with no code to model.
- Text.Lower: lowercases only A to Z. Swift's full Unicode case mapping is not modelled.
- Text.Trim: works on Unicode scalars, not on Swift's grapheme clusters.
- Text.Contains: compares Unicode scalars. Swift's `contains` may compare grapheme clusters, depending on the overload, so a comma followed by a combining mark is found here but may not be in Swift. `Csv.EscapeCsv`, `Csv.DoubleQuotes` and the CRM filter inherit this.
- Csv.EscapeCsv: a value holding a line break but no comma or double quote is left unquoted, as written (unless `containsEmpty` holds for it). RFC 4180, section 2, rule 6 asks for quotes there. The record reader accepts such a bare cell, and it does not enforce rule 5 either.
- Csv.EscapeCsv: `s.contains("")` is the parameter `containsEmpty`, because its answer depends on which Swift overload is chosen. No result is asserted for it.
- Api.DecodingFailure: every JSON decoding failure is one fixed `DecodingError` code; the different decoding errors are not told apart.
- Api.AppendingPathComponent: `append(path: "/users")` and `appendingPathComponent("users")` are treated as the same operation.
- Flow.AppState.ExportPdf: the "Signed At" fallback is the literal text of the source, U+00E2 U+20AC U+201D (an em dash read in the wrong encoding), as written.
- Flow.AppState.ExportCsv: rows are joined with an empty separator, so no line breaks separate the header and the rows, as written.
- Settings.AgentSettings: nothing requires the address to be non-empty, and the model adds no such rule.
- The Disclosure screen's Back button is always disabled, so it has no handler.
