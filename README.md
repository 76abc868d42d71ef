# Koala chat backend — Dafny model of the `/ai/chat` handler

The Koala backend is a small HTTP proxy. `POST /ai/chat` takes a request
holding a `text` and an optional history of `user`/`assistant` turns. It
sends a fixed French system instruction, followed by that history, to a
chat-completion service, and relays the answer. A failure of the service
becomes an HTTP error. The error is chosen by looking for marker substrings
in the failure text: quota markers give 429, credential markers give 401,
and anything else gives 500 with the text quoted.

The model has four modules:

- `Wrappers` (`wrappers.dfy`): the `Option` and `Result` shapes.
- `Messages` (`messages.dfy`): the request shapes (`ChatMsg`, `ChatIn`).
  It builds the history and the dispatched message list. It also reads a
  role string back the way the request schema does (`ParseRole`,
  `ParseTurns`). That reading is the inverse used to show that dispatch
  keeps the caller's turns intact.
- `ErrorMapping` (`error_mapping.dfy`): Python's substring test `in`, written
  as a recursive search (`Contains`). Its contract ties it to an independent
  definition by position (`Occurs`). The module also holds the ordered
  classification `Classify`.
- `KoalaApi` (`koala_api.dfy`): the handler `AiChat`. The completion service
  is a function parameter: it receives the model name and the dispatched
  list, and returns either the answer text or the failure text (`str(e)`).

The handler never tests `text`. With no history, an empty `text` is sent as
an empty user turn (main.py:74-75), and the model does the same.

## Model

| member | source | states |
|---|---|---|
| `Messages.RoleName` | main.py:50-52 | a caller role is written as "user" or "assistant", one name per role, never "system" |
| `Messages.ParseRole` | main.py:50-52 | only "user" and "assistant" are accepted as roles, and reading one back inverts `RoleName` |
| `Messages.ToWire` | main.py:72 | a caller turn becomes a dictionary with the same content and a role that reads back to the same role |
| `Messages.CopyTurns` | main.py:72 | the comprehension keeps the number of turns and converts each turn in place, in order |
| `Messages.HasTurns` | main.py:71 | the history test is false for an absent `messages` and for an empty list, and true for a list with at least one turn |
| `Messages.History` | main.py:70-75 | with present, non-empty `messages` the history is those turns one for one; otherwise it is exactly one user turn holding `text` |
| `Messages.BuildDispatch` | main.py:79-89 | the dispatched list is the system entry followed by the history: length is history length + 1, element 0 is the fixed instruction, the rest is the history |
| `Messages.DispatchCopiesTurns` | main.py:70-89 | with a non-empty history, element i+1 of the dispatched list has the role and content of caller turn i, and the length is one more than the number of turns |
| `Messages.DispatchFallsBackToText` | main.py:74-75 | with `messages` absent or empty, the dispatched list is exactly the system entry then one user turn with `text` |
| `Messages.SystemOnlyAtHead` | main.py:50-89 | every element after the head has role "user" or "assistant", never "system" |
| `Messages.TextIgnoredWithTurns` | main.py:71-75 | when `messages` is non-empty, `text` has no effect on the dispatched list |
| `Messages.ParseCopyRoundTrip` | main.py:50-72 | reading the copied turns back yields the caller's turns unchanged |
| `Messages.DispatchRecoversTurns` | main.py:70-89 | everything after the head of the dispatched list reads back as the caller's exact history |
| `Messages.DispatchHeadIsNotACallerTurn` | main.py:50-89 | the dispatched list as a whole is never a valid caller history, because its head carries the system role |
| `ErrorMapping.Contains` | main.py:97-103 | Python's `sub in s` is true exactly when `sub` starts at some position of `s` |
| `ErrorMapping.QuotaMarked` | main.py:97 | the first test holds exactly when "insufficient_quota" or "Error code: 429" occurs in the failure text |
| `ErrorMapping.KeyMarked` | main.py:103 | the second test holds exactly when "invalid_api_key" or "Error code: 401" occurs in the failure text |
| `ErrorMapping.Classify` | main.py:94-106 | every failure text maps to exactly one of 429, 401 or 500. The result is 429 iff a quota marker occurs, and 401 iff no quota marker occurs but a credential marker does. The detail is the fixed quota message, the fixed "Clé OpenAI invalide." or "Erreur serveur: " followed by the text |
| `ErrorMapping.QuotaWinsOverKey` | main.py:97-104 | a text carrying both a quota marker and a credential marker is classified 429 with the quota message |
| `ErrorMapping.ClassifyInContext` | main.py:97-106 | adding text on either side of a failure text never lowers its class: 429 stays 429, and 401 never becomes 500 |
| `ErrorMapping.ServerDetailQuotesFailure` | main.py:106 | a 500 detail contains the failure text verbatim, right after the "Erreur serveur: " prefix |
| `ErrorMapping.TimeoutIsServerError` | main.py:106 | "timeout" is classified as 500 with detail "Erreur serveur: timeout" |
| `ErrorMapping.QuotaExampleIs429` | main.py:97-101 | "Error code: 429 - insufficient_quota" is classified 429 |
| `ErrorMapping.KeyExampleIs401` | main.py:103-104 | "Error code: 401 - invalid_api_key" is classified 401 with detail "Clé OpenAI invalide." |
| `KoalaApi.AiChat` | main.py:67-106 | the reply is an answer iff the service call on the dispatched list succeeds, and the answer is the service's text unchanged. A failure is raised with status 429, 401 or 500, chosen by the markers of the failure text, with the fixed quota message, the fixed credential message or "Erreur serveur: " followed by the failure text |
| `KoalaApi.AiChatIgnoresTextWithTurns` | main.py:71-75 | for a fixed behaviour of the completion service, the reply to a request with a non-empty history does not depend on `text` |
| `KoalaApi.BonjourExample` | main.py:70-92 | `{"text": "Bonjour"}` sends the system entry plus one user turn "Bonjour", and relays a successful answer unchanged |
| `KoalaApi.TimeoutExample` | main.py:94-106 | a service failure with text "timeout" gives a 500 with detail "Erreur serveur: timeout" |

## Left out

- The OpenAI client and its network call (main.py:45, 77-90) are external. They are a function parameter of `AiChat`, which receives the model name "gpt-4.1-mini" and the dispatched list.
- The service may return a `None` message content, or no choices at all (main.py:92). Neither is modelled: the parameter returns the answer text or a failure text, and an exception raised while reading the response counts as a failure text.
- FastAPI routing, JSON decoding and the 422 rejection of malformed bodies are framework behaviour. The role restriction of the schema (main.py:51) is built into the `Role` type, and `ParseRole` states which role strings the schema accepts.
- The CORS configuration (main.py:31-40) is static framework configuration with no logic.
- Loading `.env` and the startup check for the API key (main.py:16-21) are process environment and I/O.
- `KoalaApi.Health` models `GET /health` (main.py:62-64) as its constant body. It has no contract because there is nothing to state beyond the constant.
- Dafny's `string` is a sequence of Unicode scalar values. A Python `str` can also hold lone surrogates (for example from a JSON `"\ud800"` escape in `text` or `content`); those have no counterpart in the model. Unicode normalisation of the French literals is not modelled either.
- The completion service is modelled as one fixed function, so it gives the same outcome for the same model name and list every time. The real service is nondeterministic: two identical requests may get different answers. That nondeterminism is not modelled.
