# Session state machine of the Ed GPT Telegram bot

This project models, in Dafny, the per-chat core of a Telegram bot that relays
messages to a chat-completion service. The core has these parts:

- **Session record.** It holds the mode, the optional OpenAI token, the message
  counter, the transcript and the settings map. The bot's handlers and commands
  change it in place.
- **Mode table and lookups.** The table lists the personas. The bot searches it
  by display name, by name or code, and by code. Each search returns a mode or
  `undefined`.
- **Quota gate.** It refuses a message once the free message limit is used up
  and no token is stored.
- **Transcript manager.** It seeds the transcript or appends a user turn, and
  the `/clear` command resets it.
- **Completion exchange.** It sends the transcript to the completion service,
  raises the counter and stores the reply.
- **Prompt composer and reply formatter.** The formatter escapes replies for
  Telegram's MarkdownV2 parse mode.
- **Commands and menus.** These are `/token`, the short-replies toggle and the
  mode menu.
- **Environment schema.** It is checked at startup.

Modules, one per source file or component:

- `Wrappers`: `Option` and `Result`.
- `ChatTypes`: the transcript entry, the roles, the completion service's message
  type, and the transcript invariant `SystemOnlyAtHead`.
- `Modes`: the mode table, `Array.prototype.find` over it and the three lookups.
- `Utils`: the environment schema, the initial mode, the initial transcript and
  the initial settings.
- `JsString`: JavaScript `split` with a one-character separator, and how a
  template literal renders `undefined`.
- `MarkdownV2`: the reply escaper, written as a tokenizer (`Scan`) and a
  renderer. The tokenizer keeps a link `[text](http…)`, escapes a special
  character and copies any other character.
- `App`: the gate, the prompt, the pure transcript functions, the reply
  formatter, the `/token` parser and the `Session` class. The class's methods
  are the handlers and commands.

External collaborators become parameters:
- **Completion call.** `CompletionOutcome` is either `Throws` or
  `Resolved(message)`, where the message may be absent.
- **Typing indicator.** `typingSent` is false when that call throws.
- **Platform token.** `platformToken`.
- **Configured limit.** `limit` is the limit after numeric conversion. `None`
  stands for a value that does not convert (NaN).
- **Environment.** It is a string map.

Four behaviours of the code are easy to misread. The model follows the code
each time:
- `/clear` resets the transcript to one system entry; it does not empty it.
- The gate treats an empty stored token as no token. The API key expression
  `token ?? platformToken` still uses that empty token.
- The counter rises when the call resolves, even when no message came back.
- The initial mode is a code, but the seeding and parse-mode lookups search by
  display name. A fresh session's replies therefore go out with no parse mode.

## Model

| member | source | states |
|---|---|---|
| `Modes.Find` | src/app.ts:207 | the result is the first mode of the table that matches the key, and it is `undefined` exactly when no mode matches |
| `Modes.FindByName` | src/app.ts:207 | definition: `find` by display name only, also used at src/app.ts:262; its results are stated by `Modes.LookupUnique` and `Modes.LookupTable` |
| `Modes.FindByNameOrCode` | src/app.ts:142 | definition: `find` by name or code; its results are stated by `Modes.LookupUnique` and `App.ClearedHistoryContent` |
| `Modes.FindByCode` | src/utils/index.ts:52 | definition: `find` by code; its results are stated by `Modes.LookupTable` and `Utils.InitialHistoryShape` |
| `Modes.TableShape` | src/config/modes.ts:3-22 | there are exactly two modes, ASSISTANT first with HTML, then TECHNICAL_WRITER with MarkdownV2 |
| `Modes.KeysDistinct` | src/config/modes.ts:5-15 | codes are pairwise distinct, names are pairwise distinct, and no code equals any name |
| `Modes.PromptsNonEmpty` | src/config/modes.ts:9-19 | every promptStart is non-empty |
| `Modes.LookupUnique` | src/app.ts:141-143 | each of the three searches finds the one mode that carries the key, so the name-or-code search is unambiguous |
| `Modes.LookupTable` | src/utils/index.ts:52 | the code lookup finds ASSISTANT for "ASSISTANT"; the name lookup misses for both codes |
| `JsString.Split` | src/app.ts:162 | `split(" ")` gives at least one piece, no piece holds the separator, and joining the pieces gives back the input |
| `JsString.SplitUnique` | src/app.ts:162 | any separator-free decomposition of a string is the one `split` returns |
| `JsString.SplitNoSeparator` | src/app.ts:162 | a string without the separator splits into itself |
| `JsString.SecondPiece` | src/app.ts:162 | `split(" ")[1]` is `undefined` exactly when the text has no space |
| `JsString.SecondPieceIs` | src/app.ts:162 | the second piece is the text between the first space and the next space or the end |
| `JsString.Show` | src/app.ts:254-256 | definition: a template literal renders `undefined` as the text "undefined"; used by `App.GetPrompt`, whose properties are in `App.PromptFrame` and `App.PromptInjective` |
| `MarkdownV2.FirstOf` | src/app.ts:268 | a greedy negated character class stops at the first stop character or at the end |
| `MarkdownV2.FirstOfUnique` | src/app.ts:268 | that stopping point is the only one, so the greedy run never backtracks |
| `MarkdownV2.MatchLink` | src/app.ts:268 | a match of the link alternative is a valid link `[text](http…)` that is a prefix of the input |
| `MarkdownV2.MatchLinkComplete` | src/app.ts:268 | every valid link at the current position is matched, with exactly its parts |
| `MarkdownV2.Scan` | src/app.ts:267-270 | each token is a valid link, a special character to escape, or a non-special character to copy |
| `MarkdownV2.Escape` | src/app.ts:267-270 | the escaped reply is never shorter than the input and at most twice as long; its exact behaviour is stated by `MarkdownV2.EscapeLink`, `MarkdownV2.EscapeSpecial`, `MarkdownV2.EscapeOther` and `MarkdownV2.EscapeLength` |
| `MarkdownV2.ScanCoversInput` | src/app.ts:267-270 | the tokens cover the input exactly and in order |
| `MarkdownV2.RenderLength` | src/app.ts:269 | rendering adds exactly one character per escaped token |
| `MarkdownV2.EscapeLength` | src/app.ts:267-270 | output length is input length plus the number of escaped characters |
| `MarkdownV2.EscapedCountBound` | src/app.ts:268 | for any token sequence, no more characters are escaped than the tokens consume |
| `MarkdownV2.EscapeLink` | src/app.ts:268-269 | a valid link at the current position is copied verbatim and the scan resumes after it |
| `MarkdownV2.EscapeSpecial` | src/app.ts:268-269 | a special character that starts no link gets exactly one preceding backslash |
| `MarkdownV2.EscapeOther` | src/app.ts:267-270 | any other character is copied unchanged |
| `MarkdownV2.EscapePlainText` | src/app.ts:267-270 | a reply with no special character is returned unchanged |
| `MarkdownV2.EscapeExample` | src/app.ts:267-270 | `a*b.` becomes `a\*b\.` |
| `Utils.InvalidKeys` | src/utils/index.ts:8-19 | the failing keys are exactly the schema keys that are missing or empty |
| `Utils.ParseEnv` | src/utils/index.ts:8-21 | parsing succeeds iff all ten keys are non-empty strings. On success it keeps exactly those keys and their values. On failure it names exactly the invalid keys |
| `Utils.LimitOnlyNonEmpty` | src/utils/index.ts:11 | the message limit is only checked for non-emptiness; a non-numeric value is accepted |
| `Utils.InitialHistoryShape` | src/utils/index.ts:49-54 | the initial transcript is one system entry holding ASSISTANT's promptStart, and it satisfies the transcript invariant |
| `Utils.InitialHistory` | src/utils/index.ts:49-54 | definition: the initial transcript, one system entry whose content comes from the code lookup; its value and invariant are stated by `Utils.InitialHistoryShape` |
| `App.ShouldWarnAboutToken` | src/app.ts:192-195 | definition of the gate: count at or above the limit and `!token`; its properties are stated by `App.QuotaGate` |
| `App.QuotaGate` | src/app.ts:192-195 | the gate fires iff the counter is at or above the limit and the token is absent or empty. It never fires for a non-numeric limit |
| `App.Session.ShouldWarn` | src/app.ts:285 | definition: the gate applied to this session's counter and token; `App.Session.HandleMessage` states what follows when it fires |
| `App.GetPrompt` | src/app.ts:253-259 | definition of the prompt template; its properties are stated by `App.PromptFrame`, `App.PromptInjective` and `App.PromptReflectsToggle` |
| `App.PromptFrame` | src/app.ts:253-259 | the prompt starts with the message text, ends with the mode instruction, and has the computed length |
| `App.PromptInjective` | src/app.ts:253-259 | different message texts give different prompts |
| `App.PromptReflectsToggle` | src/app.ts:254-256 | two settings give the same prompt iff they agree on the short-replies toggle |
| `App.WithUserTurn` | src/app.ts:202-220 | an absent transcript is seeded with the system entry of the mode found by name, then the user turn. An existing one gets exactly one user entry at the end, and its earlier entries are unchanged |
| `App.UserTurnKeepsSystemHead` | src/app.ts:202-220 | a user turn keeps the system entry alone at index 0 |
| `App.ClearedHistory` | src/app.ts:136-145 | `/clear` leaves exactly one entry, a system entry |
| `App.ClearedHistoryContent` | src/app.ts:138-145 | that entry holds the non-empty prompt of the mode matched by name or code, whichever of the two the session mode is |
| `App.ClearFreshSession` | src/app.ts:138-145 | clearing a fresh session, whose mode is the code "ASSISTANT", gives back the initial transcript |
| `App.ApiKey` | src/app.ts:225 | definition of `token ?? platformToken`; its properties are stated by `App.ApiKeyPrecedence` |
| `App.ApiKeyPrecedence` | src/app.ts:225 | a stored token, even an empty one, is used as the API key. The platform token is used only when none is stored |
| `App.WithReply` | src/app.ts:242-244 | definition: the reply is appended only when the call resolved with a message; its effect is stated by `App.ExchangeEffect` and `App.ReplyKeepsSystemHead` |
| `App.CountAfter` | src/app.ts:240 | definition: the counter rises by one whenever the call resolved; stated by `App.ExchangeEffect` |
| `ChatTypes.StoredItem` | src/app.ts:243 | definition: the entry stored for a returned message keeps its role and content; used by `App.ExchangeEffect` |
| `ChatTypes.SystemOnlyAtHead` | src/types/index.ts:4-7 | definition of the transcript invariant: non-empty, a system entry first and no system entry later; kept by `App.UserTurnKeepsSystemHead`, `App.ReplyKeepsSystemHead`, `App.ClearedHistory` and the session methods |
| `App.ExchangeEffect` | src/app.ts:232-246 | earlier entries are unchanged and the user turn comes next. The reply is appended only when present. The counter rises by one whenever the call resolved |
| `App.ReplyKeepsSystemHead` | src/app.ts:242-244 | appending a non-system reply keeps the transcript invariant |
| `App.ReplyWithChatCompletion` | src/app.ts:261-273 | the parse mode comes from the name lookup. The text is escaped iff that mode is MarkdownV2 |
| `App.ReplyFormatByMode` | src/app.ts:262-273 | for the initial mode, replies go out unescaped with no parse mode. The technical writer's replies are escaped. The assistant's replies are HTML |
| `App.TokenArgument` | src/app.ts:162 | definition: `split(" ")[1]` of the message text, `undefined` when there is no text; its value is stated by `JsString.SecondPiece` and `JsString.SecondPieceIs` |
| `App.AcceptedToken` | src/app.ts:162-166 | a token is accepted iff the second space-separated piece exists and has at least five characters |
| `App.TokenCommand` | src/app.ts:160-180 | `/token w…` accepts `w` iff it has at least five characters. The bare command and a doubled space are rejected |
| `App.Session.constructor` | src/utils/index.ts:44-58 | a new session has mode "ASSISTANT", counter 0, no token, the initial transcript, and short replies off |
| `App.Session.GetChatHistory` | src/app.ts:202-220 | the stored transcript becomes the user-turn transcript and is returned. The transcript invariant is kept |
| `App.Session.GetChatCompletion` | src/app.ts:222-251 | if the typing action fails, nothing changes. Otherwise the request carries `token ?? platformToken` and the transcript with the user turn appended. The counter then rises iff the call resolved. The reply is appended only when present. A thrown call keeps the user turn |
| `App.Session.HandleMessage` | src/app.ts:282-297 | when the gate fires, it sends the warning and changes nothing. Otherwise it runs one exchange on the composed prompt and replies with the formatted message, or with the error message when there is no reply |
| `App.Session.Clear` | src/app.ts:136-145 | the transcript becomes the single system entry of the current mode, and the invariant holds. Nothing else changes |
| `App.Session.SetToken` | src/app.ts:160-181 | the argument is stored iff it is accepted. Otherwise the session is unchanged |
| `App.Session.SetSkipProse` | src/app.ts:59-72 | afterwards `isSet` returns the new state and other keys are unchanged. It returns true when settings existed, else the new state |
| `App.Session.IsSkipProseSet` | src/app.ts:71 | definition of `!!settings?.skipProse`; `App.Session.SetSkipProse` states that it returns the new state afterwards |
| `App.Session.SelectMode` | src/app.ts:78-89 | the mode becomes the key, and `isSet` holds for exactly that key |
| `App.Session.IsModeSelected` | src/app.ts:87 | definition of `key === session.mode`; `App.Session.SelectMode` states that it holds for exactly the chosen key afterwards |
| `App.QuotaScenario` | src/app.ts:282-297 | with a limit of three, the counter goes 1, 2, 3. The fourth message is refused and leaves the transcript unchanged. After a valid `/token`, it goes to 4 |

## Left out

- Express, Sentry, grammy wiring, the rate limiter, session storage in Postgres, menu registration and the `/start`, `/debug`, `/settings` and `/mode` commands are framework plumbing. They are not modelled.
- The completion and transcription clients are foreign calls. Their outcome is a parameter. An empty `choices` array behaves like `Resolved(None)`: the counter is already raised, then the access throws and the handler replies with the error message.
- `COMPLETION_PARAMS` and the model name are only forwarded to the completion service, and the temperature is a float.
- `Number(NO_OAI_TOKEN_MESSAGE_LIMIT)` is float and NaN conversion. The gate takes the converted limit as `Option<int>`, where `None` means NaN, so the gate never fires.
- The voice path is not modelled because it is file I/O, ffmpeg and callbacks. It reuses the same quota gate (src/app.ts:302). It passes the transcript text to the completion exchange without composing a prompt (src/app.ts:335).
- The random choice of the `/clear` acknowledgement is randomness, and the wording of the fixed replies is not modelled.
- `initial: () => initialSession` hands every new chat the same object, so pushes could alias across chats. The model gives each session a fresh copy, because whether this aliasing leaks depends on the storage adapter.
- The unawaited `replyWithChatCompletion` call and overlapping updates for one chat are concurrency concerns. The model runs each handler to completion. A failure of the second typing action or of the final reply is not modelled.
- String lengths count Unicode scalar values, while JavaScript counts UTF-16 code units. For a token with characters outside the Basic Multilingual Plane, the five-character minimum is therefore counted differently. The escaper's special characters are all ASCII, so the escaper is unaffected.
- `messagesCount` is an unbounded integer, whereas JavaScript numbers lose precision above 2^53.
