# easy-api-chat-view, modelled in Dafny

This project models the logic of a small browser chat client. The client has four parts:

- **The model catalog**: a fixed list of 52 models (`src/lib/models.ts`). Each entry has an identifier, a name, a category, a provider, a free flag, a description and a context limit in tokens.
- **The model picker in the chat header** (`src/components/ChatHeader.tsx`):
  - a case-insensitive search on name and provider;
  - category buttons, where `free` also admits every entry marked free;
  - the lookup of the selected model by identifier.
- **The page state** (`src/pages/Index.tsx`): the list of conversations, the id of the open conversation and the API key, with the handlers that change them.
- **The chat pane's submit handler** (`src/components/ChatMain.tsx`):
  - It ignores blank input and input sent while a reply is pending.
  - Without a key it only shows a notice.
  - Otherwise it sends the user message and, on a conversation's first message, renames the conversation to the text's first 30 characters plus `...`, or to the whole text when it has at most 30 characters.
  - It then sends the history and the new text to the chat-completions endpoint.
  - Finally it sends the reply as an assistant message. On an error, the assistant message says the error, in a fixed format.

The project has seven modules:

| module | contents |
|---|---|
| `Wrappers` | `Option` and `Result` |
| `Seqs` | the list operations the source uses: `map`, `filter` and `find` |
| `Text` | `trim`, `toLowerCase` and `includes` |
| `Catalog` | the 52 entries as nine vendor groups, concatenated in catalog order, and the facts proved about them |
| `Picker` | the header's filter and lookup |
| `Conversations` | the page state, as the class `ChatState` |
| `Turn` | the submit handler, as the class `Composer` |

`Composer` holds the pane's own fields (`input`, `isLoading`). Its ghost trace `effects` records, in order, the calls the handler makes outside the pane:

- the two `onSendMessage` calls;
- `onUpdateTitle`;
- the request;
- the notices (toasts).

The handler's state changes go to a `ChatState` object, through that object's handler methods.

The provider's answer is an input to the model (`Reply`): a thrown error, or a status with a parsed body. Both `Date.now()` readings are parameters too.

Three facts of the code shape the model:

- The request always names `gpt-4o` and goes to `https://api.openai.com/v1/chat/completions`. The model chosen in the picker never reaches it.
- No placeholder assistant message is inserted while the reply is pending.
- The key is checked before the user message is added, so without a key nothing is added.

## Model

| member | source | states |
|---|---|---|
| Catalog.CatalogIdsDistinct | src/lib/models.ts:12-82 | no two catalog entries share an identifier |
| Catalog.CatalogIdsPrefixed | src/lib/models.ts:12-82 | every identifier starts with `openrouter:` |
| Catalog.CatalogContextLimits | src/lib/models.ts:12-82 | every context limit is positive and lies between 4000 and 1050000 tokens |
| Catalog.CatalogCategories | src/lib/models.ts:12-82 | every category is one of the nine vendor keys |
| Catalog.CatalogFreeEntriesMarked | src/lib/models.ts:76-81 | every entry in the `free` category is marked free and has an identifier ending in `:free` |
| Seqs.Map | src/pages/Index.tsx:18-22 | `Array.prototype.map` (also at src/pages/Index.tsx:33-35 and src/components/ChatMain.tsx:113-116): the result has the input's length, and each element is the function applied to the element at the same index |
| Seqs.Filter | src/components/ChatHeader.tsx:17 | `Array.prototype.filter`: the result is a subsequence of the input, and a value is in it exactly when it is in the input and passes the test |
| Seqs.FilterMultiset | src/components/ChatHeader.tsx:17 | `filter` keeps each passing value exactly as often as it occurs in the input, and drops every value that fails |
| Seqs.Find | src/components/ChatHeader.tsx:27 | `Array.prototype.find`: it is absent exactly when no element passes; otherwise it is the first element that passes |
| Seqs.FindFirst | src/pages/Index.tsx:15 | an element that passes, with no earlier element passing, is the one `find` returns |
| Text.Trim | src/components/ChatMain.tsx:85 | `trim` removes exactly the leading and trailing JavaScript whitespace; the result is empty exactly when the input is blank |
| Text.Lower | src/components/ChatHeader.tsx:18-19 | lower-casing maps each character and keeps the length |
| Text.LowerIdempotent | src/components/ChatHeader.tsx:18-19 | lower-casing twice is lower-casing once |
| Text.Contains | src/components/ChatHeader.tsx:18-19 | `includes`: a string includes only needles no longer than itself, and includes each of its prefixes |
| Text.ContainsEmpty | src/components/ChatHeader.tsx:18-19 | every string includes the empty string |
| Picker.MatchesSearch | src/components/ChatHeader.tsx:18-19 | an entry matches a term only if the term is no longer than its name or its provider, and matches whenever the lower-cased term begins its lower-cased name or provider |
| Picker.MatchesCategory | src/components/ChatHeader.tsx:20-22 | `all` admits every entry; a vendor key admits exactly the entries of that category; `free` admits exactly the free-category entries and the entries marked free |
| Picker.FilteredModels | src/components/ChatHeader.tsx:16-25 | the filter's result is a subsequence of the catalog and holds exactly the entries that match the search and the category |
| Picker.EmptySearchMatches | src/components/ChatHeader.tsx:18-19 | the empty search term matches every entry |
| Picker.UnfilteredIsCatalog | src/components/ChatHeader.tsx:16-25 | the empty term under `all` lists the whole catalog, in order |
| Picker.VendorCategoryExact | src/components/ChatHeader.tsx:20-22 | under a vendor category, an entry is listed exactly when it has that category and matches the search |
| Picker.FreeCategoryExact | src/components/ChatHeader.tsx:20-22 | under `free`, an entry is listed exactly when it matches the search and is in the free category or marked free |
| Picker.FreeFilterListsMarkedVendorEntry | src/lib/models.ts:53 | Llama 3.1 8B is in category `meta` and marked free, so the `free` filter lists it |
| Picker.SearchIgnoresCase | src/components/ChatHeader.tsx:18-19 | a search term and its lower-cased form select the same entries |
| Picker.CategoryKeys | src/components/ChatHeader.tsx:29-40 | the button keys are `all` followed by the nine vendor keys, and `all` is not a vendor key |
| Picker.CatalogCategoriesListed | src/components/ChatHeader.tsx:29-40 | every catalog category is a button key other than `all` |
| Picker.SelectedModel | src/components/ChatHeader.tsx:27 | the lookup is absent exactly when no entry has the id; otherwise it is a catalog entry with that id |
| Picker.SelectedModelIsTheEntry | src/components/ChatHeader.tsx:27 | because identifiers are distinct, looking up an entry's id gives back that entry |
| Conversations.FindConversation | src/pages/Index.tsx:15 | the lookup is absent exactly when no conversation has the id; otherwise it is the first conversation with that id |
| Conversations.AppendMessage | src/pages/Index.tsx:17-23 | `addMessage` keeps the number, order, ids and titles; it appends the message to every conversation with the current id and leaves the others unchanged |
| Conversations.Retitle | src/pages/Index.tsx:32-36 | `updateConversationTitle` keeps the number, order, ids and messages; it gives the title to every conversation with the id and leaves the others unchanged |
| Conversations.CurrentAfterAppend | src/pages/Index.tsx:15-23 | after `addMessage`, the open conversation is the one it was, with the message at the end |
| Conversations.FindAfterRetitle | src/pages/Index.tsx:32-36 | after a rename, the lookup by that id finds the same conversation, with the new title |
| Conversations.RetitleIdempotent | src/pages/Index.tsx:32-36 | renaming twice to the same title is renaming once |
| Conversations.FindAfterCreate | src/pages/Index.tsx:25-30 | after `createNewConversation` with a fresh id, the open conversation is the new empty one; with an id already in use, the older conversation stays the one found |
| Conversations.InitialCurrentConversation | src/pages/Index.tsx:8-15 | at first render, the open conversation is the empty `New conversation` with id `1` |
| Conversations.ChatState.constructor | src/pages/Index.tsx:8-12 | the initial state: one empty conversation, current id `1`, empty key |
| Conversations.ChatState.CurrentConversation | src/pages/Index.tsx:15 | `currentConversation` is absent exactly when no conversation has the current id; otherwise it is the first conversation with that id, as `FindConversation` gives it |
| Conversations.ChatState.HasApiKey | src/pages/Index.tsx:46 | `hasApiKey` holds exactly when the key is not empty |
| Conversations.ChatState.AddMessage | src/pages/Index.tsx:17-23 | the new list is `AppendMessage` of the old one; the current id and the key are unchanged |
| Conversations.ChatState.CreateNewConversation | src/pages/Index.tsx:25-30 | an empty `New conversation` is appended and made current; the key is unchanged |
| Conversations.ChatState.UpdateConversationTitle | src/pages/Index.tsx:32-36 | the new list is `Retitle` of the old one; the current id and the key are unchanged |
| Conversations.ChatState.SelectConversation | src/pages/Index.tsx:43 | only the current id changes |
| Conversations.ChatState.SaveApiKey | src/pages/Index.tsx:58 | only the key changes |
| Turn.Title | src/components/ChatMain.tsx:105 | a title is at most 33 characters long; text of up to 30 characters is kept whole; longer text gives its first 30 characters followed by `...` |
| Turn.History | src/components/ChatMain.tsx:111 | the history is the open conversation's messages, or none when no conversation is open |
| Turn.ChatRequest | src/components/ChatMain.tsx:48-59 | the request goes to the fixed endpoint and model with temperature 0.7 and 1000 tokens; the authorization header is `Bearer ` followed by the key; the messages are passed unchanged |
| Turn.ApiMessages | src/components/ChatMain.tsx:111-118 | the request's messages are the history's roles and contents, in order, followed by the user text |
| Turn.OrElse | src/components/ChatMain.tsx:73 | the `or` fallback on a string gives the value when it is present and non-empty, and otherwise the fallback |
| Turn.IsOk | src/components/ChatMain.tsx:64 | `response.ok` is a 2xx status, so 401 and 429 are never ok |
| Turn.StatusReason | src/components/ChatMain.tsx:64-75 | 401 gives the invalid-key reason and 429 the rate-limit reason; any other rejected status gives the body's `error.message` when it is present and non-empty, and the generic reason otherwise; the reason is never empty |
| Turn.Complete | src/components/ChatMain.tsx:64-80 | `callOpenAI` succeeds exactly on an ok status with choices present; the content is the first choice's non-empty content or `No response received`; a thrown error, a rejected status and missing choices each fail with their reason |
| Turn.KnownStatusIgnoresBody | src/components/ChatMain.tsx:68-71 | a 401 or 429 response fails with the same reason whatever its body |
| Turn.ErrorContent | src/components/ChatMain.tsx:143 | the error message is `Error: `, then the reason, then the fixed suffix, and has exactly their total length |
| Turn.ErrorReason | src/components/ChatMain.tsx:143 | a reason read back from a message rebuilds that message |
| Turn.ErrorReasonOfContent | src/components/ChatMain.tsx:143 | the reason can be recovered from every error message, so different reasons give different messages |
| Turn.ReplyContent | src/components/ChatMain.tsx:123-144 | the assistant message is never empty; it is the reply's content on success and otherwise the error message carrying the failure's reason |
| Turn.TitleEffect | src/components/ChatMain.tsx:103-107 | the rename call of a turn: exactly one, giving the open conversation `Title(text)`, when the open conversation has no messages; otherwise none |
| Turn.ReplyEffects | src/components/ChatMain.tsx:123-144 | on success the assistant message and then the success notice; on failure the error notice and then the assistant error message; both carry `ReplyContent` |
| Turn.ExchangeEffects | src/components/ChatMain.tsx:100-144 | the calls of an accepted turn, in order: the user message, the rename if any, the one request (history then text), then `ReplyEffects` |
| Turn.SubmitEffects | src/components/ChatMain.tsx:83-148 | blank input or a pending reply makes no call; with no key the only call is the key notice; otherwise the calls are those of an accepted turn on the trimmed text |
| Turn.ExchangeSendsTwice | src/components/ChatMain.tsx:100-144 | an accepted turn calls `onSendMessage` exactly twice: first with the user text, then with the assistant message |
| Turn.ExchangeRequestsOnce | src/components/ChatMain.tsx:109-123 | an accepted turn makes one request, to the fixed endpoint and model, with the bearer key, the history followed by the user text, temperature 0.7 and 1000 tokens |
| Turn.ExchangeRetitlesFirstTurnOnly | src/components/ChatMain.tsx:103-107 | an accepted turn renames the open conversation exactly when it had no messages, and then to the title of the text |
| Turn.AfterUserMessage | src/components/ChatMain.tsx:100-107 | the list after the user message and the title has as many conversations as before; `AfterUserMessageKeepsOthers`, `AfterUserMessageEveryCurrent` and `CurrentAfterUserMessage` state its contents |
| Turn.AfterUserMessageKeepsOthers | src/components/ChatMain.tsx:100-107 | the user message and the title change no conversation whose id differs from the current id |
| Turn.AfterUserMessageEveryCurrent | src/components/ChatMain.tsx:100-107 | every conversation carrying the current id, not only the first, gets the user message, and on a first message each is renamed to `Title(text)` |
| Turn.TurnConversations | src/components/ChatMain.tsx:100-144 | the list after a whole turn has as many conversations as before; `TurnKeepsOthers`, `TurnEveryCurrent` and `TurnExtendsCurrent` state its contents |
| Turn.TurnKeepsOthers | src/components/ChatMain.tsx:96-144 | a turn keeps the number and order of conversations and changes no conversation whose id differs from the current id |
| Turn.TurnEveryCurrent | src/components/ChatMain.tsx:96-144 | every conversation carrying the current id, not only the first, gets the user message and then the assistant message, and on a first message each is renamed to `Title(text)` |
| Turn.TurnWithoutCurrent | src/components/ChatMain.tsx:104 | without an open conversation, a turn changes no conversation |
| Turn.CurrentAfterUserMessage | src/components/ChatMain.tsx:100-107 | after the user message, the open conversation has it at the end, and was renamed if it had no messages |
| Turn.CurrentAfterReply | src/components/ChatMain.tsx:124 | after the assistant message, the open conversation has it at the end |
| Turn.TurnExtendsCurrent | src/components/ChatMain.tsx:96-144 | after a turn, the open conversation ends with the user message and then the assistant message, and is renamed only when it had no messages |
| Turn.Composer.constructor | src/components/ChatMain.tsx:28-29 | the box is empty, no reply is pending and no call has been made |
| Turn.Composer.Edit | src/components/ChatMain.tsx:234 | only the box's text changes |
| Turn.Composer.Submit | src/components/ChatMain.tsx:83-148 | the calls made are `SubmitEffects`; a rejected submit changes no state; an accepted one leaves the box empty, no reply pending, the current id and key unchanged, and the conversations as `TurnConversations` gives them |
| Turn.Composer.Accept | src/components/ChatMain.tsx:96-147 | the accepted path's calls are `ExchangeEffects`; afterwards the box is empty and no reply is pending |
| Turn.Composer.SendUserMessage | src/components/ChatMain.tsx:100-107 | sends the user message, then renames the conversation on its first message |
| Turn.Composer.SendReply | src/components/ChatMain.tsx:109-144 | on success, sends the content and then the success notice; on failure, the error notice and then the error message |

## Left out

- Network and JSON: `fetch`, `response.json()` and the request body's serialisation are not modelled. The request is modelled as a value, and the answer as the `Reply` parameter. A body that fails to parse is a `Thrown` reply.
- Logging: the `console.log` and `console.error` calls are left out.
- Timing and concurrency:
  - The handler's `await` points, React's batching of state updates and re-renders are not modelled. A submit runs to completion as one call. So every `Composer` method leaves `isLoading` false, and no sequence of calls starts a submit while a reply is pending. The busy guard is still stated for any state, by `SubmitEffects` and by `Submit`'s contract, but the model never reaches that case.
  - The pane's `conversation` prop is the open conversation as it was when the submit started. The model uses that snapshot for the title and the history, as the code does.
- Ids: `Date.now()` is replaced by the parameters `messageId`, `newId`, `userMessageId` and `replyMessageId`. Nothing is claimed about their uniqueness, which the source does not guarantee either.
- Text.Lower: handles only ASCII letters, while `toLowerCase` folds all of Unicode.
- Turn.Title: lengths are counted in Unicode scalar values, while JavaScript counts UTF-16 code units, so text outside the Basic Multilingual Plane is cut at a different place.
- Turn.Complete: a value thrown that is not an `Error` (reported as 'An unexpected error occurred') is not modelled. Every failure carries a string reason.
- Turn.StatusReason: an `error.message` that is not a string is not modelled.
- Turn.ChatRequest: the `Content-Type` header and the `POST` method are not modelled.
- Keyboard: `handleKeyDown`, which calls the same submit handler on Enter without Shift, is not modelled separately.
- Rendering: the empty pane shown when there is no open conversation, scrolling and the textarea's height are not modelled. The rendering of `ChatSidebar`, `ChatMessage`, `ApiKeyModal` and of the header's lists and buttons is not part of this model either. The sidebar's selection and the key dialog's save are modelled only as the state changes they cause (`SelectConversation`, `SaveApiKey`).
- Notices: toasts are modelled by kind and, for errors, by reason. Their titles, styles and display are not modelled.
- Picker.SelectedModel: the picker's selection is a lookup only. The request never uses it.
