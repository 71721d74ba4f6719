# agent-instructor, modelled in Dafny

agent-instructor is a VS Code extension that helps people write instructions for AI
agents. It has five commands:

- **Analyze** sends the open `instruction.txt` to a chat-completion endpoint (OpenAI or
  Azure OpenAI). It expects a JSON verdict back: a clarity score and a list of
  phrase/suggestion corrections. The verdict is shown in a panel, and from there a
  correction can be applied to the document.
- **Generate** asks the same endpoint for a new set of instructions from an agent
  description and appends them to the document.
- **Set secret** and **Clear secret** store or remove a Microsoft Graph client secret.
- **Copilot connectors** opens a panel. With app-only credentials (tenant id, client id
  and the stored secret), it lists the tenant's Graph external connections. It asks
  v1.0 first and falls back to beta.

A stand-alone Node script, `scripts/test-graph-app-only.js`, checks the same app-only
flow from a terminal.

The model has one module per concern:

- `JsValues`: the JavaScript values the code handles. It defines truthiness, `||`, `??`,
  optional and throwing property reads, string conversion and ASCII lower-casing.
- `Http`: requests as data.
- `AppOnlyAuth`: the client-credentials token request and its guard.
- `Connectors`: the v1.0-then-beta fetch and the normalisation of each item.
- `LlmRequests`: the two chat requests and how content is read from a reply.
- `Analysis`: the analyze command.
- `Corrections`: the case-insensitive global replace, and the apply-correction handler
  over an `Editor.Document`.
- `Generate`: the generate command.
- `ConnectorPanel`: the secret store and the connectors panel, as classes whose fields
  change in place.
- `GraphScript`: the terminal script.

Network replies, the secret store's contents, the user's answers and `JSON.parse` are
parameters. The commands and the script return the requests they would send, and the
connectors panel records them in its `sent` field. This lets the model state which
requests happen before a guard and which are never sent.

Some behaviour of the code is easy to misread; the model states it as the code has it:

- "Present" values are tested by JavaScript truthiness, not presence. A clarity score
  of `0` and an empty corrections string both fall back to their defaults.
- The Azure endpoint type with an empty URL is not rejected. The request then goes to `""`.
- The generate command always uses the public OpenAI URL for the non-Azure endpoint
  type. It ignores a configured URL, unlike analyze. `LlmRequests.EndpointsAgree`
  states exactly when the two commands' URLs coincide.
- The connector panel's `refresh` redraws with the configuration flag it had before
  when the credentials are no longer all present
  (`ConnectorPanel.UnconfiguredRefreshKeepsSession`).
- "Phrase not found" is reported whenever the replace leaves the text unchanged. That
  includes a suggestion equal to the text it matched, which differs from the phrase only
  in letter case (`Corrections.FoundYetUnchanged`).
- The script treats a non-nullish, non-array `value` as an empty list. The extension's
  fetch throws on it (`Connectors.ReadConnections`). Both read a nullish `value` as the
  empty list.

## Model

| member | source | states |
|---|---|---|
| AppOnlyAuth.LoadGraphSettings | src/extension.ts:57-63 | tenant and client id are the configured values, `""` when unset |
| AppOnlyAuth.Configured | src/extension.ts:734-738 | `!!(tenantId && clientId && s)` holds exactly when tenant, client id and stored secret are all present and non-empty |
| AppOnlyAuth.TokenFromReply | src/extension.ts:78-81 | a failed token POST propagates its error; a null or missing body throws the read error for `access_token`; an object body yields its `access_token` and any other body `undefined` |
| AppOnlyAuth.AcquireToken | src/extension.ts:65-82 | no request is sent iff tenant, client id or secret is empty, and then the not-configured error is thrown; otherwise exactly the client-credentials form for the tenant is posted and the reply decides the token |
| LlmRequests.LoadLlmConfig | src/extension.ts:546-552 | each setting is the configured value or its default: `openai`, `""`, `""`, 1000 |
| LlmRequests.AnalysisEndpoint | src/extension.ts:89-100 | Azure: the configured URL with an `api-key` header; otherwise the configured URL or the public OpenAI URL when empty, with a Bearer header; JSON content type and no other header |
| LlmRequests.GenerationEndpoint | src/extension.ts:493-500 | Azure: the configured URL; otherwise always the public OpenAI URL |
| LlmRequests.EndpointsAgree | src/extension.ts:493-500 | the generate request carries the same headers as analyze, and goes to the same URL iff Azure or the configured URL is empty or the public one |
| LlmRequests.AnalysisRequest | src/extension.ts:105-117 | gpt-4, temperature 0.7, the configured token limit, the analyzer prompt then the document text, sent to the analysis endpoint |
| LlmRequests.GenerationRequest | src/extension.ts:502-516 | gpt-4, temperature 0.7, the configured token limit, the generator prompt then the description message, sent to the generation endpoint |
| LlmRequests.AnalysisContent | src/extension.ts:564 | the lenient read throws exactly on a nullish body; otherwise a missing or nullish first-choice content reads as `""` and a present one is returned as it is |
| LlmRequests.GeneratedContent | src/extension.ts:518-519 | the strict read throws at the first nullish link (body, choices, first choice, message) with the matching read error, and otherwise returns the first choice's content |
| LlmRequests.StrictReadAgreesWithLenient | src/extension.ts:518-519 | wherever the strict read succeeds, the lenient read gives the same content, `""` in place of a nullish one |
| LlmRequests.FirstOfSeveralChoices | src/extension.ts:564 | with several choices both reads take the first |
| LlmRequests.ContentOfWellFormedReply | src/extension.ts:564 | both readers return the content of a well-formed single-choice reply |
| Analysis.ParseAnalysis | src/extension.ts:567-577 | fails exactly when `JSON.parse` fails, with its message; otherwise score and corrections are the parsed fields when truthy, else 0 and `[]` |
| Analysis.WellFormedReplyKept | src/extension.ts:575-577 | a reply with a numeric score and a corrections array is kept as it is |
| Analysis.MissingFieldsDefaulted | src/extension.ts:575-577 | a reply object lacking both keys yields score 0 and no corrections |
| Analysis.RowsFault | src/extension.ts:125-133 | building the rows throws exactly for a list with a nullish item (reading `phrase` of the first one) or a truthy non-list whose `length` is greater than 0 (`map` is not a function) |
| Analysis.LengthLikeObjectsThrow | src/extension.ts:125-126 | objects whose `length` is `"3"`, `true` or `[1]` throw; an object without `length` and a number do not |
| Analysis.Analyze | src/extension.ts:525-633 | a request is sent iff an editor shows a non-empty file ending in `instruction.txt`, and then exactly the analysis request; each early stop has its warning; a failed request or read shows "NLP analysis failed: " and the message; a failed parse shows "Failed to parse JSON response: " and the parse error; a parsed verdict is shown iff building its rows does not throw, otherwise the panel stays empty and the failure is shown |
| Analysis.NullCorrectionBreaksPanel | src/extension.ts:575-586 | a verdict with corrections `[null]` leaves the panel empty and reports reading `phrase` of `null` |
| Analysis.EmptyReplyShowsNoPanel | src/extension.ts:564-573 | a reply without choices ends in the JSON parse error, with no panel |
| Connectors.Normalize | src/extension.ts:355-360 | throws the read error exactly on a nullish item; otherwise id and description are copied, name is `name` or `displayName`, state is `state` or `status` |
| Connectors.NormalizeAll | src/extension.ts:355-360 | succeeds iff no item is nullish, then item by item and in order; otherwise fails with the first nullish item's error |
| Connectors.ReadConnections | src/extension.ts:354-355 | a nullish `value` gives the empty list, an array maps item by item, any other value throws |
| Connectors.Attempt | src/extension.ts:353-360 | a failed GET is the thrown error; an answered one is read as the connection list, empty when `value` is nullish |
| Connectors.FetchConnectors | src/extension.ts:348-378 | v1.0 is asked first; beta is asked iff v1.0 failed, and then its outcome is the result |
| Connectors.BetaUnusedAfterV1Success | src/extension.ts:349-360 | after a v1.0 success the beta reply makes no difference |
| Connectors.NormalizeCanonical | src/extension.ts:355-360 | normalising an already normalised record with truthy name and state gives it back |
| Connectors.NameFallback | src/extension.ts:357-359 | the name (state) is truthy iff `name` or `displayName` (`state` or `status`) is |
| Connectors.NormalizeExample | src/extension.ts:355-360 | a Graph item with only `displayName` and `status` is normalised to those values |
| Editor.Document.Replace | src/extension.ts:612-616 | the text becomes the prefix, the replacement and the suffix |
| Corrections.ReplaceWithoutMatch | src/extension.ts:606-607 | a text with no case-insensitive occurrence of the phrase is unchanged |
| Corrections.ReplaceLeftmost | src/extension.ts:606-607 | the replace rewrites the leftmost occurrence and continues after it |
| Corrections.MatchIgnoresTextCase | src/extension.ts:606 | an occurrence does not depend on the case of the text |
| Corrections.ReplaceIgnoresTextCase | src/extension.ts:606-607 | replacing in the lower-cased text gives the same result up to case |
| Corrections.ReplaceIgnoresPhraseCase | src/extension.ts:606-607 | phrases equal up to case replace identically |
| Corrections.ReplaceExample | src/extension.ts:606-607 | `Hello` → `Hi` rewrites both `hello` and `Hello` |
| Corrections.FoundYetUnchanged | src/extension.ts:606-611 | a phrase can occur while the replace leaves the text unchanged |
| Corrections.DecideCorrection | src/extension.ts:589-611 | invalid index iff the selected correction is falsy; declined iff not confirmed; otherwise not found iff the case-insensitive global replace of the phrase by the suggestion leaves the text unchanged, else a rewrite to exactly that replaced text |
| Corrections.RewriteOnlyWhenFound | src/extension.ts:606-611 | a rewrite implies the phrase occurs in the text |
| Corrections.InvalidIndexInList | src/extension.ts:590-595 | against a list, the index is invalid iff it is not a number in range naming a truthy entry |
| Corrections.IndexOutOfRangeExample | src/extension.ts:590-595 | index 99 into two corrections is invalid |
| Corrections.ApplyCorrection | src/extension.ts:588-626 | the document takes the rewritten text iff the handler rewrites and the edit succeeds, and is otherwise unchanged; the message matches the outcome |
| Generate.Compose | src/extension.ts:685-687 | the old text is kept as a prefix, followed by the separator only when it was non-empty, the heading, the description and the instructions |
| Generate.ComposeTwice | src/extension.ts:685-687 | a second generation appends the separator and the new block after the whole first result |
| Generate.PlanGeneration | src/extension.ts:639-703 | a request is sent iff the file is `instruction.txt` and a non-empty description is given; another file stops with the open-instruction.txt warning and a missing description with the cancel notice; the text is appended iff the reply yields content, and a failed request or read stops with "Failed to generate instructions: " and the error's message |
| Generate.GenerateCommand | src/extension.ts:648-703 | with no editor nothing is sent and the no-editor warning is shown; otherwise the plan's notice is shown when it stops, the success notice when it appends; the requests are the plan's, the document takes the planned text when the edit succeeds and is otherwise unchanged, and success is reported whether or not the edit applied |
| ConnectorPanel.SecretStore.SetCommand | src/extension.ts:710-720 | a non-empty input is stored and confirmed; an empty or cancelled one changes nothing |
| ConnectorPanel.SecretStore.ClearCommand | src/extension.ts:723-726 | the secret is removed and the removal confirmed |
| ConnectorPanel.ErrorText | src/extension.ts:764 | the API's error message, else the error's message, else the error as a string |
| ConnectorPanel.Load | src/extension.ts:753-762 | unconfigured: the not-configured error; a failed token read: that error; else the result of fetching with the token |
| ConnectorPanel.Refreshed | src/extension.ts:753-770 | the flag is re-read; a successful load replaces the list with no error; a failed one empties it and records the error text |
| ConnectorPanel.Step | src/extension.ts:780-811 | copy and unknown commands change nothing; refresh and set-secret reload when configured; an unconfigured refresh keeps the session; the secret commands re-read the flag; clear-secret empties the list |
| ConnectorPanel.Drawn | src/extension.ts:381-391 | a render draws the session unless some connector has a non-string id or a truthy non-string name, and then draws nothing |
| ConnectorPanel.FailedLoadIsDrawn | src/extension.ts:763-770 | after a failed load the render never throws |
| ConnectorPanel.ItemWithoutIdBreaksRender | src/extension.ts:355-384 | a Graph item without `id` loads as an all-undefined connector whose render throws |
| ConnectorPanel.StepKeepsConsistent | src/extension.ts:780-811 | after any message an error is shown only above an empty list |
| ConnectorPanel.EmptyListIsNotAnError | src/extension.ts:753-770 | a successful empty load shows no error |
| ConnectorPanel.ConfiguredRefreshSendsTokenRequest | src/extension.ts:753-762 | a configured refresh sends the token request first, and only that when it fails |
| ConnectorPanel.UnconfiguredRefreshKeepsSession | src/extension.ts:782-788 | an unconfigured refresh leaves the whole session, stale flag included, as it was |
| ConnectorPanel.Panel.Render | src/extension.ts:749-751 | the current session is drawn unless the render throws; nothing else changes |
| ConnectorPanel.Panel.RefreshAppOnly | src/extension.ts:753-771 | the session becomes the refreshed one, drawn in the `finally` block unless the render throws; the requests sent are the token request, then the connector GETs only when a token was read |
| ConnectorPanel.Panel.Open | src/extension.ts:730-780 | the panel is drawn empty, then, when configured, refreshed and drawn again; nothing is sent unless configured; the message handler is registered unless that render throws |
| ConnectorPanel.Panel.Receive | src/extension.ts:780-811 | without a registered handler nothing happens; otherwise the secret commands update the store, the session follows `Step`, refresh and the secret commands draw it unless the render throws, copy and unknown commands never draw, and copy puts a string id on the clipboard; the notice is the copied, saved or cleared confirmation, and none for refresh, unknown commands, a non-string id or an empty secret; requests are sent only by a refresh or set-secret that finds the credentials configured, and then exactly one refresh's |
| GraphScript.ReadSilent | scripts/test-graph-app-only.js:30-50 | the answer arrives iff some chunk is a terminator, and is the concatenation of the chunks before the first one |
| GraphScript.SelectVersion | scripts/test-graph-app-only.js:86 | `beta` iff the answer lower-cases to `beta`, else `v1.0`, also for an empty answer |
| GraphScript.ListUrlIsConnectorsUrl | scripts/test-graph-app-only.js:101 | the script lists from the extension's v1.0 or beta URL |
| GraphScript.Split | scripts/test-graph-app-only.js:57 | `split` yields at least one piece |
| GraphScript.SplitCount | scripts/test-graph-app-only.js:57-58 | one more piece than separators |
| GraphScript.SplitJoin | scripts/test-graph-app-only.js:57 | joining the pieces restores the token |
| GraphScript.SplitPiecesFree | scripts/test-graph-app-only.js:57 | no piece contains a dot |
| GraphScript.ReplaceChar | scripts/test-graph-app-only.js:59 | same length, every occurrence of the character replaced and nothing else |
| GraphScript.UrlToStandardPointwise | scripts/test-graph-app-only.js:59 | `-` becomes `+`, `_` becomes `/`, all else kept |
| GraphScript.UrlRoundTrip | scripts/test-graph-app-only.js:59 | on base64url text the mapping is undone by the issuer's inverse |
| GraphScript.DecodeJwtPayload | scripts/test-graph-app-only.js:55-64 | `null` for a non-string or a token without exactly three segments, or when decoding fails; otherwise the decoding of the mapped middle segment |
| GraphScript.DecodedOnlyWithTwoDots | scripts/test-graph-app-only.js:57-58 | a payload is decoded only from a token with exactly two dots |
| GraphScript.OnlyMiddleSegmentDecoded | scripts/test-graph-app-only.js:57-60 | tokens with the same middle segment decode alike |
| GraphScript.ItemsOf | scripts/test-graph-app-only.js:105 | `value` when it is an array, else the empty list |
| GraphScript.TokenClaims | scripts/test-graph-app-only.js:95-96 | the printed claims are the payload's `aud`, and `roles` when truthy, else `scp`; both are undefined when no payload decodes |
| GraphScript.ItemLine | scripts/test-graph-app-only.js:108 | a nullish item has no line (it throws); every line starts with `- `, and an item with a string id and no name or state prints the id between empty columns |
| GraphScript.ItemLines | scripts/test-graph-app-only.js:107-109 | the loop completes iff no item is nullish, one line per item in order; else it stops at the first nullish item |
| GraphScript.ItemLineAgreesWithNormalize | scripts/test-graph-app-only.js:108 | a script line shows the id, name and state the extension's normaliser picks |
| GraphScript.RunScript | scripts/test-graph-app-only.js:80-123 | exit 1 with no request iff a value is missing; otherwise the token request comes first; a failed token read exits 2 after that one request; a failed list request exits 2 with nothing listed; a nullish item exits 2 after the lines before it; exit 0 iff every value is present, the token is read, the list is answered and every item prints |
| GraphScript.CompletedListing | scripts/test-graph-app-only.js:105-113 | a completed run prints the count line, one line per item, and the hint when there are none |

## Left out

- HTTP is not modelled: a reply is a parameter (answered body or thrown error). The
  same holds for VS Code's configuration, secret storage, input boxes, confirmation
  dialogs and editor edits (a boolean says whether the edit applied).
- Asynchrony and interleaving are not modelled: commands and panel messages run one at
  a time, to completion.
- The HTML of both panels, the web view scripts (search, click handlers), Chart.js and
  console logging are presentation and are left out. `Analysis.RowsFault` and
  `ConnectorPanel.RenderThrows` capture the ways building either panel's rows can throw.
- Analysis.RowsFault: a string `length` counts as positive only in its integer and
  `Infinity` forms. Decimal fractions, exponents and `0x`/`0o`/`0b` strings are read as
  NaN, which `Number` would read otherwise.
- ConnectorPanel.Panel.Receive: a rejected message handler is an unhandled rejection
  in the source. The model records only that nothing is drawn.
- `JSON.parse`, `encodeURIComponent`, `URLSearchParams` and base64 decoding are
  parameters or left symbolic. The token form is kept as key/value pairs.
- Corrections.DecideCorrection: the model covers only a non-empty ASCII phrase without
  regular-expression metacharacters and a suggestion without `$`. For such a phrase
  the source's case-insensitive global regular expression is a literal ASCII
  case-insensitive replace. Any other correction ends in `OutsideLiteralSubset` with
  the document unstated, because the regex engine and `$` patterns are not modelled.
- JsValues.ToJsString: every object converts to `"[object Object]"`. In the source,
  `String(v)` and a template literal throw a TypeError on an object whose own
  `toString`/`valueOf` key is not callable (`JSON.parse` can produce one). The model
  misses that throw wherever the conversion happens: the `length > 0` test of the
  analysis rows, the rows of both panels, the script's item line, the generated
  instructions and the Bearer header.
- Numbers are integers: NaN, fractions and `-0` are not represented, and the
  temperature is a `real` constant.
- Strings are sequences of characters, not UTF-16 code units. Lower-casing
  (`JsValues.LowerStr`) folds ASCII letters only.
- GraphScript.RunScript: the token claims line, the raw-token print and the error
  output are not part of its result. `GraphScript.TokenClaims` gives the claims the
  script prints.
- GraphScript.ReadSilent: the terminal's echo of `*` and the readline handling are
  left out.
- `src/extension.js` is a compiled copy of an older build and is not part of this model.
