# tavus-demo helpers, modelled in Dafny

The demo talks to the Tavus conversational-video API. Almost all of its code
is HTTP calls and Streamlit UI. The part with its own logic is a handful of
helpers in `tavus_utils.py` that shape already-decoded JSON data. This project
models those helpers and proves properties of the model:

- `extract_transcript_text` (module `Transcript`). It turns a conversation
  payload into a plain-text transcript. First it tries three top-level fields
  in a fixed order. Otherwise it joins the `text`/`content` of the `messages`
  with newlines. `TranscriptOf` is the specification. `ExtractTranscriptText`
  is the loop-based operation, proved equal to it. A reference reading,
  `Lines`, describes well-formed messages at the level of strings, and the
  lemmas tie `TranscriptOf` to it.
- The name scans of `find_document_by_name` and `find_persona_by_name` (module
  `NameLookup`). The listing is indexed with `"data"`. The records are then
  scanned in order, stopping at the first whose name field equals `name`.
  `FirstMatch` is the specification and `FindByName` the `while` loop.
- `end_conversation`, `get_conversation` and `get_conversation_messages`
  (module `Conversations`). This covers the empty-id guard, the request each
  one issues, and the normalisation of the messages reply. The server's reply
  is a parameter. A `Call` records the requests sent, so "rejected before any
  request" can be stated.

Python values are the datatype `PyValues.Json`. Python's truthiness, `dict.get`
and the `s.strip()` emptiness test are written out: whitespace is the
character set of Python's `str.isspace`. Every exception the code can raise on
these inputs is a `PyError` in a `Result`, not a precondition:

- `.get` on a non-dict raises `AttributeError`.
- `"\n".join` on a non-string raises `TypeError`.
- `listing["data"]` raises `KeyError` or `TypeError`.
- The guards raise `ValueError`.
- `raise_for_status` raises an HTTP error for statuses 400 to 599.
- `response.json()` on a body that is not JSON raises a decode error.

Three facts about the code that the model follows:

- `end_conversation` calls `response.json()` unconditionally, so a reply with
  no JSON body raises. `EndConversation` models that.
- Each message is read for `text` only, then `content`; no other field name
  is tried. The three top-level transcript fields are tried before the
  messages.
- `extract_transcript_text` takes a payload that was already fetched; it
  issues no request itself.

## Model

| member | source | states |
|---|---|---|
| `Transcript.TranscriptOf` | tavus_utils.py:117-134 | a falsy payload gives `""`; only AttributeError or TypeError can be raised, only for a truthy payload, and for a dict payload only when its `messages` is truthy; a non-blank top-level transcript field is returned whenever one exists |
| `Transcript.ExtractTranscriptText` | tavus_utils.py:117-134 | the loop over the three keys (early return) and the loop building `parts` return or raise exactly what `TranscriptOf` specifies |
| `Transcript.MessageText` | tavus_utils.py:129 | `text or content or ""`: truthy exactly when `text` or `content` is; `text` wins when truthy, else `content`; a falsy result is `""` |
| `Transcript.Texts` | tavus_utils.py:133 | the strings of `parts` exist exactly when every part is a string, one per part in the same order |
| `Transcript.JoinParts` | tavus_utils.py:133 | `"\n".join(parts)` raises TypeError exactly when some part is not a string, and otherwise is `JoinLines` (the newline join) of the strings |
| `Transcript.PayloadShape` | tavus_utils.py:119-122 | a falsy payload (None, `{}`, `""`, `[]`, 0, False) gives `""`; a truthy non-dict raises AttributeError at `.get` |
| `Transcript.TopLevelTranscriptWins` | tavus_utils.py:121-124 | if one of `transcript`, `full_transcript`, `conversation_transcript` holds a non-blank string, the first such in that order is the result, unchanged (not stripped); replacing `messages` by any value changes nothing |
| `Transcript.FirstTranscriptField` | tavus_utils.py:121-124 | the key loop finds only a non-blank string, and it is the value stored under one of the keys |
| `Transcript.FirstTranscriptFieldIsFirstNonBlank` | tavus_utils.py:121-124 | the key scan `FirstTranscriptField` returns the value at the first key whose value is a non-blank string |
| `Transcript.FirstTranscriptFieldSound` | tavus_utils.py:121-124 | a value found comes from the first non-blank key; nothing is found exactly when no key holds a non-blank string |
| `Transcript.Parts` | tavus_utils.py:127-131 | the `parts` list exists exactly when every message is a dict (else AttributeError); it has at most one entry per message and every entry is truthy |
| `Transcript.PartsAreLines` | tavus_utils.py:127-131 | on dict messages whose text/content are strings or absent, `parts` is made of strings and equals the reference lines |
| `Transcript.MessagesFallback` | tavus_utils.py:125-133 | when no top-level transcript key holds a non-blank string and `messages` is a list of dicts whose `text` and `content` are strings or absent, the result is `"\n".join` of each message's `text` if non-empty, else its `content`, empty ones skipped, in message order |
| `Transcript.NoMessageTextYieldsEmpty` | tavus_utils.py:125-134 | when no top-level transcript key holds a non-blank string, and `messages` is absent, not a list, or a (possibly empty) list of dicts none of which carries a truthy `text` or `content`, the result is `""` and no error is raised |
| `Transcript.NonDictMessageRaises` | tavus_utils.py:128-129 | a message that is not a dict anywhere in the list raises AttributeError, whatever the others hold |
| `Transcript.NonStringTextRaises` | tavus_utils.py:128-133 | among dict messages, a truthy message text that is not a string, at any position, reaches the join and raises TypeError |
| `Transcript.BlankTopLevelSkippedBlankTextKept` | tavus_utils.py:121-133 | a whitespace-only top-level transcript is skipped while the same whitespace-only message text is kept and returned |
| `Transcript.LinesConcat` | tavus_utils.py:128-131 | the lines of two message lists one after the other are the lines of the first followed by those of the second (order is kept) |
| `Transcript.LinesMembership` | tavus_utils.py:128-131 | a string is a line of the transcript exactly when it is non-empty and some dict message contributes it |
| `Transcript.FallbackOfConcatenation` | tavus_utils.py:126-133 | when no top-level transcript key holds a non-blank string, both lists are dicts whose `text` and `content` are strings or absent, and each list contributes at least one line, the transcript of the concatenation is the two transcripts with one newline between them |
| `Transcript.JoinLinesConcat` | tavus_utils.py:133 | `JoinLines`, the model of `"\n".join` on strings: joining two non-empty runs of lines puts exactly one newline between the two joins |
| `Transcript.SplitJoinLines` | tavus_utils.py:133 | for a non-empty list of lines none of which holds a newline, splitting their join on newlines (`SplitLines`, the model of `str.split("\n")`) gives back the lines (the join loses nothing) |
| `NameLookup.FirstMatch` | tavus_utils.py:22-28 | a record found is one of the records, a dict whose name field equals `name` (`HasName`, the model of `record.get(field) == name`); the scan raises only AttributeError, and only when some record is not a dict |
| `NameLookup.FindByName` | tavus_utils.py:22-28 | the scan loop with its early returns returns exactly `FirstMatch` |
| `NameLookup.FirstMatchFound` | tavus_utils.py:22-26 | the scan returns record `x` exactly when `x` is the first record whose name field equals `name` exactly, all earlier records being dicts without it |
| `NameLookup.FirstMatchNone` | tavus_utils.py:22-28 | the scan returns None exactly when every record is a dict without the name |
| `NameLookup.FirstMatchRaises` | tavus_utils.py:22-24 | the scan raises, always AttributeError, exactly when it reaches a non-dict before any match |
| `NameLookup.RestNotExamined` | tavus_utils.py:24-26 | records after the one that decides the scan are never examined: appending records leaves the result unchanged |
| `NameLookup.Subscript` | tavus_utils.py:22 | `listing["data"]` succeeds exactly on a dict holding the key and returns its value; otherwise KeyError on a dict, TypeError on anything else |
| `NameLookup.LookupByName` | tavus_utils.py:21-28 | a listing without `"data"` raises (KeyError or TypeError); a record found is a dict carrying the name, taken from the listing's `data` list |
| `NameLookup.ScanListing` | tavus_utils.py:21-28 | indexing the listing with `"data"` then scanning returns exactly `LookupByName` (a list is scanned; an iterable string or dict yields None when empty and AttributeError otherwise; anything else raises TypeError) |
| `NameLookup.LookupFindsNamedRecord` | tavus_utils.py:22-28 | a record found is a dict whose name field is `name` and the first such record of the `data` list; conversely the first such record is what the lookup returns |
| `NameLookup.FindDocumentByName` | tavus_utils.py:16-28 | the document lookup matches on `document_name`; a document found carries that name |
| `NameLookup.FindPersonaByName` | tavus_utils.py:42-54 | the persona lookup matches on `persona_name`; a persona found carries that name |
| `Conversations.CheckedJson` | tavus_utils.py:88-89 | `raise_for_status` (`IsHttpError`: status 400-599) then `.json()`: succeeds exactly on a non-error status with a JSON body, which it returns; otherwise it raises an HTTP error or a decode error |
| `Conversations.MessagesShape` | tavus_utils.py:110-114 | a dict with `"data"` gives that value, a list gives itself, any other shape gives `[]` |
| `Conversations.MessagesFromReply` | tavus_utils.py:105-114 | status 404 gives `[]` whatever the body; another 4xx/5xx raises; an unparsable body raises; otherwise the body is normalised |
| `Conversations.EndConversation` | tavus_utils.py:82-89 | the guard's ValueError is raised exactly when the id is missing or empty (`IdGiven`, the model of `not conversation_id`), and then nothing is sent; otherwise exactly one POST to `/v2/conversations/<id>/end` (the URL string built by `ConversationUrl`), and the reply is checked and decoded |
| `Conversations.GetConversation` | tavus_utils.py:91-97 | the guard's ValueError is raised exactly when the id is missing or empty, and then nothing is sent; otherwise exactly one GET to `/v2/conversations/<id>`, and the reply is checked and decoded |
| `Conversations.GetConversationMessages` | tavus_utils.py:100-114 | the guard's ValueError is raised exactly when the id is missing or empty, and then nothing is sent; otherwise exactly one GET to `/v2/conversations/<id>/messages`, and a 404 reply gives `[]` |
| `Conversations.EmptyIdRejectedBeforeRequest` | tavus_utils.py:82-102 | with a missing or empty id, all three operations send nothing and raise ValueError, whatever the server would reply |
| `Conversations.ConversationUrlInjective` | tavus_utils.py:86 | for one operation, the URL string built by `ConversationUrl` (the f-string passed to `requests`) determines the conversation id |
| `Conversations.UnescapedIdAliasesMessagesRequest` | tavus_utils.py:94-103 | the id is put into the URL unescaped: fetching the conversation `id + "/messages"` passes `requests` exactly the request (verb and URL string) that fetches the messages of `id` |

## Left out

- The HTTP requests themselves are not modelled: the network, the connection and timeout errors of `requests`, and the `x-api-key` header from `_get_headers`. The reply a request receives is a parameter instead.
- Decoding JSON is not modelled. A body is either an already-decoded `Json` value or "not JSON".
- `load_dotenv` and the `API_KEY` lookup are not modelled (environment variables).
- The `print` tracing is not modelled. It has no effect on results.
- `create_document_from_url`, `create_persona` and `create_conversation` are left out. Each only builds a literal payload, POSTs it and returns the decoded reply. Nothing in them depends on data.
- The HTTP fetch and `raise_for_status` of the two `find_*_by_name` functions are left out. Only the handling of the decoded listing is modelled.
- setup.py (`provision_resources`) is left out. It is find-or-create orchestration over remote calls, plus console output.
- app.py is left out. It is Streamlit UI with inline HTTP calls.
- None of `tavus_utils.py`, `setup.py` and `app.py` contains lead capture (name or email extraction, lead storage, webhook forwarding), so none is modelled.
- `NameLookup.FirstMatch`: the name is a string. A non-string `name`, such as `None` matching a record without the field, is not modelled, because every caller passes a string constant.
- `Conversations.EndConversation`: the id is `None` or a string; ids of other types, which the f-string would format with `str()`, are not modelled. `_get_headers()` is assumed to succeed: with `API_KEY` unset it raises ValueError after the guard and before the request, which the model does not capture. `PyError` records the exact exception type, not Python's class hierarchy, so "ValueError exactly when the id is missing" means the guard's ValueError; the decode error, a ValueError subclass in Python, is kept apart as `JsonDecodeError`.
- `Conversations.GetConversation`: the same limits as `EndConversation`: ids are `None` or strings, `_get_headers()` is assumed to succeed, and the ValueError stated is the guard's, with the decode error kept apart as `JsonDecodeError`.
- `Conversations.GetConversationMessages`: the same limits as `EndConversation`: ids are `None` or strings, `_get_headers()` is assumed to succeed, and the ValueError stated is the guard's, with the decode error kept apart as `JsonDecodeError`.
- `Conversations.EmptyIdRejectedBeforeRequest`: states the guard's ValueError; the ValueError `_get_headers()` raises when `API_KEY` is unset is not modelled.
- `Conversations.ConversationUrlInjective`: `Request.url` is the URL string passed to `requests`; its URL preparation is not modelled (a `#…` fragment is not sent, unsafe characters are percent-encoded), so an id holding `#`, `?` or `%` can reach a different resource than `sent` shows. The same holds for the `sent` traces of `EndConversation`, `GetConversation`, `GetConversationMessages` and `UnescapedIdAliasesMessagesRequest`.
- JSON numbers are integers only. Floats are not modelled, and no comparison in the modelled code depends on them.
- The messages of the exceptions are not modelled. Only their kind is kept, plus the status of an HTTP error.
