# Data Science Assistant chat session — a Dafny model

The app is one Streamlit script that reads a Gemini API key, keeps a chat
history in the Streamlit session state, forwards each message to a remote
Gemini chat and shows the conversation. This project models the part of it
that is logic rather than layout:

- **Credential selection** (`credentials.dfy`): the key file, when it exists,
  is read and stripped; otherwise `GEMINI_API_KEY`, falling back to
  `GOOGLE_API_KEY` when the first is unset or empty; an empty or missing key
  is the fatal stop before the client is configured.
- **History store and chat-handle lifecycle** (`conversation.dfy`, class
  `Session`): the history is a sequence of `{role, parts}` turns seeded with
  one system turn; reset replaces it with a fresh system turn and deletes the
  chat handle; the handle is started from the current history whenever it is
  absent, and a failed start stops the run.
- **Send handling** (`Session.Send`, specified by `AfterSend`): Send not
  pressed or whitespace-only input does nothing; otherwise the stripped input
  is appended as a user turn and sent; a reply adds an assistant turn; a
  failure only reports the error and leaves the user turn in place.
- **Reply extraction** (`replies.dfy`): `resp.text`, then `resp.last.text`,
  then `chat.last.text`, then `str(resp)`. The response is a tagged value
  whose probed attributes are optional fields.
- **Rendering text** (`turns.dfy`, `Session.Render`): the text parts of a
  turn joined with newlines, and the label "You", "Assistant" or the raw role.
- `text.dfy` models Python's `str.strip()` (with `str.isspace()`'s whitespace
  set) and `'\n'.join`. `wrappers.dfy` holds `Option`.

The remote model, the file system and the environment are parameters:
`keyFile`, `gemini`, `google` for the key sources; `StartResult` for what
`start_chat` did; `RemoteResult` (`Success(resp, chatLast) | Failure(error)`)
for what `send_message` did, where `chatLast` is the handle's `last`
attribute after the call.

Behaviours of the code that a reader might not expect are kept as written:
the stored history always starts with a system turn (never empty); environment values are used as they are (a key of spaces from
the environment is accepted, only the file's contents are stripped); the
"max output tokens" setting is never passed to the remote call; a chat that
cannot be started stops the current run instead of being reported and
carried on from; and the renderer also labels the role `model` "Assistant".

## Model

| member | source | states |
|---|---|---|
| Credentials.Or | gemini_app.py:12-14 | Python `a or b`: the first value when it is truthy (`Truthy`: set and non-empty, the test behind `or` at line 12 and `if not api_key` at line 14), otherwise the second; the result is truthy iff either is |
| Credentials.ResolveKey | gemini_app.py:6-16 | a resolved key is never empty; with a key file a key results iff the file is not blank; without one, iff either variable is set and non-empty |
| Credentials.KeyFileShadowsEnvironment | gemini_app.py:8-16 | with a key file the variables do not matter; its stripped contents are the key, and a blank file is a fatal stop even when a variable is set |
| Credentials.EnvironmentPriority | gemini_app.py:11-16 | without a key file a non-empty `GEMINI_API_KEY` wins, `GOOGLE_API_KEY` is used exactly when the first is unset or empty, and the stop happens iff both are unset or empty |
| Text.IsSpace | gemini_app.py:10 | Python's `str.isspace()` set, which `strip()` removes at line 10 and 91; no visible ASCII character and nothing above U+3000 is whitespace |
| Text.LeadingSpace | gemini_app.py:10 | the index where the stripped text starts: everything before it is whitespace and the character there is not |
| Text.TrailingSpaceStart | gemini_app.py:10 | the index where the stripped text ends: everything from it on is whitespace and the character before it is not |
| Text.Strip | gemini_app.py:91 | neither end of the result is whitespace, and it is empty exactly when the input is whitespace only (the Send guard) |
| Text.StripKeepsCore | gemini_app.py:93 | the stripped text is a contiguous slice of the input with only whitespace on either side |
| Text.StripTrimmedIsIdentity | gemini_app.py:93 | a string with no whitespace at its ends is not changed by stripping |
| Text.StripIdempotent | gemini_app.py:93 | stripping twice equals stripping once |
| Text.Join | gemini_app.py:73 | joining nothing gives the empty string and joining one string gives that string |
| Text.JoinConcat | gemini_app.py:73 | joining two non-empty lists is joining each with one separator between them |
| Text.JoinLength | gemini_app.py:73 | the joined text has every character of the parts plus one separator per pair of neighbours |
| Turns.TextTurn | gemini_app.py:43-44 | a stored turn has the given role and displays exactly the given text |
| Turns.TextsOf | gemini_app.py:73 | only text-typed parts contribute; with no text parts the list is empty, with only text parts it is every part's text (or `''`) in order |
| Turns.TextsOfConcat | gemini_app.py:73 | the filtered texts keep the order of their parts |
| Turns.DisplayText | gemini_app.py:69-73 | a turn without parts shows the empty string, otherwise the newline-join of its text parts |
| Turns.DisplayTextAppendPart | gemini_app.py:73 | a non-text part changes nothing; a text part appends a newline and its text when the entry already has text parts, and is the whole display text when it has none |
| Turns.RoleOf | gemini_app.py:68 | a present role is used as it is, and the role reads as `user` exactly when it is `user` or missing |
| Turns.LabelOf | gemini_app.py:68-79 | "You" iff the role is `user` or missing, "Assistant" iff it is `assistant` or `model`, otherwise the raw role |
| Replies.FirstAvailable | gemini_app.py:102-111 | the first present candidate in order, or the fallback when none is present |
| Replies.ExtractReply | gemini_app.py:102-111 | the reply is `str(resp)` or the value of one of the three probed attributes |
| Replies.ExtractReplyPriority | gemini_app.py:104-111 | a present `resp.text` wins, then `resp.last.text`, then `chat.last.text` (each read through `LastText`, the `hasattr(x, 'last') and hasattr(x.last, 'text')` probe of lines 106 and 108), and `str(resp)` only when all three are absent |
| Replies.ExtractReplyIsFirstAvailable | gemini_app.py:104-111 | the if/elif chain equals first-available over the three sources in priority order |
| Conversation.SystemTurn | gemini_app.py:43-47 | the seeded and reset entry has role `system`, renders under that raw role and displays exactly the prompt |
| Conversation.AfterSend | gemini_app.py:91-119 | no-op iff Send is not pressed or the input is blank; a reply iff the chat exists and the call succeeds, adding exactly the user turn with the stripped input and the assistant turn with the extracted reply; a failure adds only the user turn and reports the error |
| Conversation.AfterSendKeepsWellFormed | gemini_app.py:91-114 | the send handler keeps the history well formed: system turn first and only there, every assistant turn right after a user turn |
| Conversation.AppendKeepsWellFormed | gemini_app.py:94-114 | appending a user turn, or an assistant turn after a user turn, keeps the history well formed |
| Conversation.ReplayAppendsInOrder | gemini_app.py:91-114 | after any sequence of interactions the history is the old history followed by each interaction's turns in order |
| Conversation.StoredTurnsRender | gemini_app.py:67-79 | the system, user and assistant turns the app stores render under their labels with exactly the text they were built from |
| Conversation.Session.constructor | gemini_app.py:41-44 | a new session holds exactly one system turn with the prompt and no chat handle |
| Conversation.Session.Reset | gemini_app.py:46-49 | after reset the history is exactly one system turn with the current prompt and there is no chat handle |
| Conversation.Session.EnsureChat | gemini_app.py:56-61 | an existing handle is reused; otherwise a handle seeded with the current history is created, or the start error is reported and no handle exists; the history is unchanged |
| Conversation.Session.Send | gemini_app.py:91-119 | the new history and status are those of `AfterSend` on the old history, and the handle is unchanged |
| Conversation.Session.Run | gemini_app.py:46-119 | reset if asked, then a handle exists (a fresh one seeded with the single system turn after a reset) or the run stops with the start error, then the send handler runs |
| Conversation.Session.Render | gemini_app.py:67-79 | one line per turn, in history order, with its label and display text |

## Left out

- Page layout, widgets, Markdown formatting, the raw-history JSON view, page config and footer: presentation only. `Render` yields the label and text of each line, not the Markdown around them.
- `genai.configure`, `GenerativeModel`, `start_chat`, `send_message`: foreign SDK and network calls, replaced by the `StartResult` and `RemoteResult` parameters. What the remote chat itself remembers is not modelled; the handle records only the history it was seeded with.
- Reading the key file and the environment: I/O, replaced by optional string parameters. A key path that exists but cannot be read (a directory, no permission) raises an uncaught exception; that crash is not modelled.
- `st.stop` and `st.experimental_rerun`: script control. A stop is the `MissingCredential` result or the `Stopped` outcome; the rerun after a reply is taken to leave the script without being caught by the handler's `except`, as in Streamlit releases that have `st.experimental_rerun`. In releases without it, line 117 raises `AttributeError` inside the `try`: both turns are already in the history, but the user sees "Error sending message: …" instead of the reply; `AfterSend`'s `Replied` status does not describe that case.
- The model-name text input and the switch to another `GenerativeModel`: it only swaps a foreign object and does not restart an existing chat.
- The "max output tokens" slider: its value is never used.
- The first-run check that creates the history only when the session has none: a `Session` always has one, so it is the constructor.
- Conversation.AfterSend: the exact wording of Streamlit's error for the missing `chat` key is approximated; that path cannot be reached through `Run`, which always starts a chat or stops first.
- Text.IsSpace: the complete set of the 29 characters for which Python's `str.isspace()` holds (none lie outside the Basic Multilingual Plane); no other Unicode handling, such as normalisation, is done.
- A response attribute whose getter raises (rather than being absent) would be caught as a send error in the app; the model treats every probed attribute as either present or absent.
- The second, near-duplicate implementation of the app (which prepends the system prompt to every message) is not part of this model.
