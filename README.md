# Mastermind core, modelled in Dafny

Mastermind is a small web application: a signed-in user creates a Google Doc, and a panel of AI
"agent" personas periodically analyses its text through a generative model. This project models
the pieces of it that hold logic of their own, and proves what they promise:

- **Document text extraction** (`DocsText`, src/lib/google.ts): a Docs body is a tree of structural
  elements (paragraphs of text runs, tables of rows of cells). The extraction is specified by
  recursive functions, and the accumulator loops of the source are proved equal to them.
- **Agent registry** (`Agents`, src/lib/agents.ts): the three personas and search by id.
- **Per-agent analysis client** (`Llm`, src/lib/llm.ts): the blank-input short-circuit, the model
  call and the failure fallback. JavaScript's `trim()` is written out.
- **Server actions** (`Actions`, src/app/actions.ts): session creation, document fetch, and the
  analysis batch that fetches once and fills a result map in a loop.
- **Token handling** (`Auth`, src/lib/auth.ts): the `jwt` callback (sign-in, unexpired, refresh),
  the refresh-token merge, and the `session` callback, which writes onto a session object.
- **Session screen state** (`Session`, src/components/SessionView.tsx): a class with the active
  agents, results, loading flag and last-update time. It has the toggle updater and one fetch cycle.

Every external call is a parameter of the member that makes it:
- the Docs API calls (`createDocument`, `getDocument`) answer `Some(record)` or `None` (threw);
- the Gemini call answers `Generated(analysis)` or `Failed`;
- the token endpoint answers `Granted`, `Rejected` or `FetchError`;
- the `analyzeSession` server action, as seen from the browser, answers a `Completion`;
- the server session is an `Option<ServerSession>`, and the clock is an integer `now`.

All files are verified together:
`dafny verify options.dfy agents.dfy llm.dfy docs_text.dfy actions.dfy auth.dfy session_view.dfy`.

## Model

| member | source | states |
|---|---|---|
| `Agents.Ids` | src/components/SessionView.tsx:30 | the ids of a list of agents, one per agent, in list order |
| `Agents.Find` | src/app/actions.ts:54 | `find` by id: nothing exactly when no agent has the id; otherwise the first agent carrying it |
| `Agents.FindAgent` | src/lib/agents.ts:18-58 | a registry lookup succeeds exactly for "critic", "creative" and "analyst", and returns a registry agent with that id |
| `Agents.RegistryIds` | src/lib/agents.ts:18-58 | the registry is non-empty and its ids, in order, are "critic", "creative", "analyst" |
| `Agents.RegistryIdsUnique` | src/lib/agents.test.ts:8-12 | no two registry agents share an id |
| `Agents.RegistryFieldsPresent` | src/lib/agents.test.ts:14-22 | every registry agent has a non-empty id, name, role, system prompt and avatar |
| `Agents.FindUnique` | src/lib/agents.ts:18-58 | in a list with unique ids, any agent carrying the id is the one found, so lookup yields at most one agent |
| `Llm.TrimStart` | src/lib/llm.ts:24 | the result is a suffix of the input; the dropped prefix is whitespace; the result does not start with whitespace |
| `Llm.TrimEnd` | src/lib/llm.ts:24 | the result is a prefix of the input; the dropped suffix is whitespace; the result does not end with whitespace |
| `Llm.TrimEmptyIffBlank` | src/lib/llm.ts:24 | `s.trim().length === 0` holds exactly when every character of `s` is JavaScript whitespace |
| `Llm.BuildRequest` | src/lib/llm.ts:33-38 | the request names gemini-1.5-flash, uses the agent's system prompt, and its prompt is the fixed prefix followed by the content |
| `Llm.AnalyzeDocumentWithAgent` | src/lib/llm.ts:22-49 | blank content gives the "Start typing" fallback; otherwise a failed model call gives the "Brain freeze" fallback and a generated analysis is returned unchanged |
| `Llm.AnalysisOutcomes` | src/lib/llm.ts:6-49 | every result is one of the two fallbacks or the model's own analysis; both fallbacks are NEUTRAL with exactly one suggestion; their summaries differ |
| `Llm.BlankIgnoresModel` | src/lib/llm.ts:23-30 | for blank content the result does not depend on the model at all |
| `Llm.WhitespaceExamples` | src/lib/llm.ts:24-47 | "" and " \n\t" get the empty fallback; "Hello world." with a failing model gets the error fallback |
| `DocsText.AppendParagraphText` | src/lib/google.ts:51-55 | the loop appends exactly the paragraph's text runs, in order |
| `DocsText.AppendCellText` | src/lib/google.ts:60-69 | the loop appends the cell's paragraph text, then the cell separator (space, bar, space) |
| `DocsText.AppendRowText` | src/lib/google.ts:59-71 | the loop appends every cell's text followed by the cell separator, then a newline |
| `DocsText.AppendTableText` | src/lib/google.ts:56-72 | the loop appends every row of the table in order |
| `DocsText.ExtractTextFromDocument` | src/lib/google.ts:43-77 | the accumulator loop yields exactly the recursive specification `DocumentText` |
| `DocsText.ContentTextAppend` | src/lib/google.ts:47-76 | extraction distributes over concatenation: the text of `a + b` is the text of `a` followed by the text of `b` |
| `DocsText.CellIgnoresNestedTables` | src/lib/google.ts:60-68 | a cell reads its elements as the top level would with every nested table removed, so nested tables are never visited |
| `DocsText.RowCount` | src/lib/google.ts:59-71 | occurrences of any character in a row's text = those in the cells' runs + one cell separator's worth per cell + one newline's worth |
| `DocsText.TableCount` | src/lib/google.ts:58-72 | occurrences of any character in a table's text = those in its runs + one cell separator per cell + one newline per row |
| `DocsText.ContentCount` | src/lib/google.ts:47-76 | every occurrence of a character in the extracted text comes from a run read, from a cell separator (one per cell) or from a row newline (one per row) |
| `DocsText.SeparatorCounts` | src/lib/google.ts:69-71 | newlines = newlines in the runs + rows read; bar characters = those in the runs + cells read |
| `DocsText.TextCellText` | src/lib/google.ts:60-69 | a cell holding one paragraph with one run s reads as s followed by the cell separator |
| `DocsText.MissingBodyIsEmpty` | src/lib/google.ts:44-45 | a document with no body, or a body with no content, yields "" |
| `DocsText.TableExample` | src/lib/google.ts:56-72 | a one-row table with cells "a" and "b" yields a, separator, b, separator, then a newline |
| `DocsText.ParagraphWinsExample` | src/lib/google.ts:50-56 | an element with both a paragraph and a table yields only the paragraph's text, and elements without a text run add nothing |
| `Actions.CreateNewSession` | src/app/actions.ts:11-26 | throws "Not authenticated" exactly when there is no session or no token; otherwise returns success with the created document's id, or the "Failed to create document" record; an omitted title is the default title |
| `Actions.CreateWithoutTitle` | src/app/actions.ts:11 | the call without arguments creates a document titled "New Mastermind Session"; a given title is passed on unchanged |
| `Actions.FetchDocumentContent` | src/app/actions.ts:28-42 | throws "Not authenticated" exactly when there is no session or no token; otherwise returns the extracted text and the title, or the "Failed to fetch document" record |
| `Actions.KnownIds` | src/app/actions.ts:53-55 | an id is kept exactly when it is requested and names a registry agent |
| `Actions.AnalyzeSession` | src/app/actions.ts:44-64 | an auth error propagates; a missing or empty text gives "Could not retrieve document" with no results; otherwise success, with keys exactly the requested registry ids, each mapped to that agent's analysis of the one fetched text |
| `Actions.NoIdsNoResults` | src/app/actions.ts:51-63 | with no requested ids the result map is empty |
| `Actions.KnownIdsExample` | src/app/actions.ts:53-55 | requesting the three registry ids plus an unknown one keeps exactly the three |
| `Actions.SuccessIndependentOfModel` | src/app/actions.ts:45-49 | whether the batch succeeds depends only on authentication, the fetch and a non-empty extracted text, never on the model |
| `Auth.RefreshRequestFor` | src/lib/auth.ts:15-22 | the grant has type "refresh_token" and carries the token's refresh token |
| `Auth.RefreshAccessToken` | src/lib/auth.ts:13-51 | success keeps every other field and sets the access token, expiry now + expires_in·1000 and the new refresh token or the old one; failure keeps every field and adds the error "RefreshAccessTokenError" |
| `Auth.SignInToken` | src/lib/auth.ts:71-78 | the sign-in token has exactly the access token, expiry now + (expires_at ?? 3600)·1000, refresh token and user |
| `Auth.Jwt` | src/lib/auth.ts:69-88 | sign-in rebuilds the token; otherwise an unexpired token is returned as is, and an expired or expiry-less one is refreshed. The comparison uses the first clock reading and the refreshed expiry a second, no earlier one |
| `Auth.RefreshExpiryUsesSecondReading` | src/lib/auth.ts:40 | a granted refresh dates the new expiry from the clock reading taken after the token endpoint answered, not from the one the comparison used |
| `Auth.RefreshedTokenIsUnexpired` | src/lib/auth.ts:37-42 | after a successful refresh with a positive lifetime, the next call at the same time returns the token unchanged |
| `Auth.SignInTokenIsUnexpired` | src/lib/auth.ts:71-84 | a sign-in token with a positive lifetime is returned unchanged by the next call at the same time |
| `Auth.FailedRefreshIsRetried` | src/lib/auth.ts:43-50 | a failed refresh keeps the old expiry, so the next call refreshes again; a later successful refresh keeps the error field |
| `Auth.SessionCallback` | src/lib/auth.ts:89-94 | the session object's user, access token and error become the token's (undefined when absent); nothing else changes and the same object is returned |
| `Auth.SessionAfterRefresh` | src/lib/auth.ts:87-94 | after a failed refresh the session reports "RefreshAccessTokenError"; after a successful one it reports the token's earlier error field |
| `Session.RemoveId` | src/components/SessionView.tsx:96 | the filter keeps exactly the entries with another id and leaves a list without that id untouched |
| `Session.RemoveIdIsFilter` | src/components/SessionView.tsx:96 | the result lists the entries of the list at exactly the positions not carrying the id (`KeptIndices`), each once and in their original order |
| `Session.KeptIndicesSpec` | src/components/SessionView.tsx:96 | the positions `KeptIndices` lists are exactly those whose entry carries another id, in strictly increasing order |
| `Session.Toggled` | src/components/SessionView.tsx:94-98 | an active id is removed entirely; an absent agent is appended at the end |
| `Session.ToggleAbsentTwice` | src/components/SessionView.tsx:94-98 | toggling an absent agent twice restores the original list |
| `Session.TogglePresentTwice` | src/components/SessionView.tsx:94-98 | toggling an active agent twice keeps the same set of active ids, with that agent moved to the end |
| `Session.SessionView.constructor` | src/components/SessionView.tsx:20-23 | initially every registry agent is active in registry order, results are empty, not loading, never updated |
| `Session.SessionView.ToggleAgent` | src/components/SessionView.tsx:93-99 | a click replaces the active list by its toggle and changes nothing else, so stale results stay |
| `Session.SessionView.FetchAnalysis` | src/components/SessionView.tsx:25-41 | the request carries the active ids in list order; an accepted response replaces results wholesale and stamps the time; anything else leaves both; loading ends false |
| `Session.ToggleCriticThenRefresh` | src/components/SessionView.test.tsx:71-117 | after "critic" is toggled off, the next request is ["creative", "analyst"] |

## Notes on behaviour

The model follows the code in these places, where a plain description of the application reads differently:

- Table cells are not joined by " | ". Every cell is followed by it, the last one included.
- The agent ids form a list, not a set. A duplicate id yields one key.
- An empty document never reaches the analysis client. Its text "" is falsy, so the batch fails with
  "Could not retrieve document" (src/app/actions.ts:47). Only whitespace-only text gets the
  "Start typing" fallback.
- A validated analysis may carry any number of suggestions. The schema only describes 1–3 in its text.
- Removing an agent from the active list keeps its last result in the map until the next accepted response.
- A successful refresh does not remove an earlier "RefreshAccessTokenError" field from the token.
- The sign-in expiry adds `expires_at` to the current time, as the code is written.

## Left out

- Rendering (all JSX, icons, CSS classes), the pages and the other components: presentation only.
- The 30-second interval timer and the effect that re-runs the fetch. Overlapping fetch cycles, which can race, are also left out: this is timer and concurrency behaviour, and one cycle is modelled as one atomic method.
- `Promise.all` concurrency in `analyzeSession`: it is modelled as a sequential loop, and the model call as a function of its request. In the source two requests for the same id are two separate model calls. They may return different objects, or one may fail, and `results[agentId]` then holds whichever call settles last. The model gives both the same value, so which one settles last is not modelled.
- The Docs API, Gemini, `getServerSession` and the token-endpoint `fetch` are parameters, not code. The client id and secret in the refresh URL, the provider configuration and the unused authorization URL are configuration.
- `console.error` logging.
- Session.SessionView.FetchAnalysis: the `loading == true` state while the request is in flight is not observable, because the cycle is atomic. Only the final `loading == false` is stated.
- DocsText.ExtractTextFromDocument: a present paragraph, table, row or cell whose element list is missing makes the source throw a TypeError. The model treats each of these as a list, so that case is not modelled. Neither is the resulting "Failed to fetch document".
- Auth.Jwt: the expiry comparison is modelled for numeric or absent expiries only. JavaScript's coercion of a string expiry is not modelled.
- Auth.RefreshAccessToken: a non-numeric `expires_in`, which would give a NaN expiry, is not modelled.
- Auth.SessionCallback: the session library encodes the token and drops `undefined` fields. That encoding is not modelled.
