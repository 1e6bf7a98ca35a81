# Meeting-minutes pipeline: a Dafny model

This project models the request pipeline of a small FastAPI service that turns an
uploaded meeting transcript (PDF or plain text) into structured meeting minutes
by calling a chat model. What is modelled:

- `extract_text`: the file name's suffix picks the extractor. `.pdf` is tested first,
  and its page texts are joined in order with nothing between them. `.txt` is decoded
  as UTF-8. Any other name raises HTTP 400 "Unsupported file format".
- The reply cleanup `response.strip("`").strip("\n").strip("json").strip("")`.
  This is Python's `str.strip` with a character SET: `strip("json")` cuts any run of
  the letters j, s, o, n from either end, not the word "json".
- `InputAgent`: `get_input` turns an extraction exception into the dict
  `{"error": "Error generating acta: <str(e)>"}`. `receive` appends every result to
  `inputs`. That list lives on the module-global state machine, so it grows across requests.
- `CritiqueAgent.critique`: the model sees a copy of the article without `source`.
  The exact reply `None` means approval. Any other reply is the critique, and it resets `message`.
- `WriterAgent.run`: revise when `critique` is present and not None, otherwise draft
  from `source` and `words`. The result is merged into the same dict with `dict.update`.
- `StateMachine.process`: extract, critique the seed `{source, words}`, merge, then run
  the writer once. Any exception becomes `{"error": "Error generating acta: ..."}`.
- The handlers `/generate_minutes` (always 500 words) and `/process_critique`. The second
  overwrites `critique` and `source` in the posted article and returns revise's output
  unmerged. Nothing is caught there.

Python dicts are objects shared by reference (`Python.Dict`). JSON values are the
datatype `Python.Value`. The chat model is a class (`Oracles.ChatModel`): it logs
every request, and its reply to call number `n` is an arbitrary function of `n` and
the request. PDF reading, UTF-8 decoding and `json.loads` are functions in
`Oracles.Library` that return a value or an exception message.

Behaviour of api/index.py a reader may not expect:

- An unsupported upload to `/generate_minutes` does not produce an `{error}` payload.
  `get_input` swallows the HTTP 400, so `source` becomes the error dict and the critic
  and the writer still run (`Pipeline.UnsupportedUploadReachesWriter`).
- The cleanup strips characters, not a literal "json" tag. A newline after the closing
  fence stops the first strip, so the fence reaches `json.loads`
  (`CleanupFacts.CleanupKeepsFenceBeforeNewline`).
- `inputs` belongs to the module-global `state_machine`, so it is shared by every request.
- `source` is not protected: a writer reply that holds a `source` key overwrites it,
  because `dict.update` lets the reply's keys win.
- `/process_critique` returns whatever revise parsed. That may lack fields the posted article had, since nothing merges it back.
- The critique runs on the raw seed record before any draft exists. If it is not `None`,
  the revise step receives only `source`, `words`, `critique` and `message`.

## Model

| member | source | states |
|---|---|---|
| Python.Describe | api/index.py:183 | `str(e)` for each exception the core can raise: Starlette's "400: Unsupported file format", `'k'` for a KeyError, and the message for the others |
| Python.Get | api/index.py:134 | `d.get(k)`: the value under `k`, or None when `k` is absent |
| Python.Update | api/index.py:136-138 | `dict.update` with a dict: the keys are the union, the argument's values win, every other entry is kept |
| Python.Merged | api/index.py:136-138 | `dict.update` with a parsed reply: it succeeds exactly for an object, `""` or `[]`. An object merges, and `""` or `[]` returns the dict exactly as it was. A non-empty string raises ValueError "dictionary update sequence element #0 has length 1; 2 is required", and a non-empty array raises a ValueError. null, bool and int raise TypeError "'<type>' object is not iterable" |
| Python.ItemAssignmentError | api/index.py:233 | the TypeError text of `x["critique"] = ...` when the posted article parsed to a list ("list indices must be integers or slices, not str") or to a scalar ("'<type>' object does not support item assignment") |
| Python.Dict.Copy | api/index.py:145 | `article.copy()` is a fresh dict with the same entries |
| Python.Dict.Delete | api/index.py:146 | `del d[k]` removes exactly `k` and reports whether it was there (KeyError otherwise) |
| Python.Dict.Set | api/index.py:233 | `d[k] = v` overrides any previous value of `k` |
| Python.Dict.UpdateWith | api/index.py:136-138 | in-place `update` with a reply: on success the new entries are `Merged`, on failure the dict is unchanged |
| Python.Dict.UpdateWithDict | api/index.py:213 | in-place `update` with the critique dict |
| PyStrip.Strip | api/index.py:91 | `s.strip(chars)` as CPython computes it: the characters between where the left scan and then the right scan stop. StripCharacterized states what that is |
| PyStrip.FirstKept | api/index.py:91 | the left scan stops at an index from which on the character is not in C (or at the end), and every character it passed is in C |
| PyStrip.EndKept | api/index.py:91 | the right scan never goes below where the left scan stopped, every character it passed is in C, and it stops after a character outside C (or at the left stop) |
| PyStrip.StripIsStripOf | api/index.py:91 | `s.strip(C)` is an infix `s[i..j]`, only characters of C lie outside it, and neither of its ends is in C |
| PyStrip.StripOfIsStrip | api/index.py:91 | every infix of that kind is what `strip` returns |
| PyStrip.StripCharacterized | api/index.py:91 | `r == s.strip(C)` if and only if `r` is an infix of that kind |
| PyStrip.StripIdempotent | api/index.py:91 | stripping twice with the same set is stripping once |
| PyStrip.StripNothing | api/index.py:91 | `strip("")` is the identity |
| PyStrip.TrimmedTransitive | api/index.py:91 | two successive strips cut only characters of the union of their sets |
| PyStrip.Cleanup | api/index.py:91 | the four calls `strip("`")`, `strip("\n")`, `strip("json")` and `strip("")`, in that order. CleanupTrims and the CleanupFacts lemmas state what they leave |
| PyStrip.CleanupTrims | api/index.py:128 | the cleaned reply is an infix of the reply. Only backticks, newlines and j, s, o, n were cut, and it neither starts nor ends with j, s, o or n |
| CleanupFacts.StripFrame | api/index.py:91 | `strip(C)` of `p + m + q` is `m` when `p` and `q` consist of C and `m` has no end in C (any run of j, s, o, n goes, and a `json` inside stays) |
| CleanupFacts.CleanupFencedJson | api/index.py:91 | a reply fenced as "```json\n" + body + "\n```" is cleaned to "\n" + body |
| CleanupFacts.CleanupKeepsFenceBeforeNewline | api/index.py:91 | for a reply "```json\n" + m + "\n" where `m` ends in a backtick (a closing fence followed by a newline), the cleaned text is "\n" + m, fence included |
| Oracles.ChatModel.Invoke | api/index.py:90 | one model call: the request is appended to the log and the reply is the oracle's answer for that call |
| Extraction.EndsWith | api/index.py:42 | `filename.endswith(suffix)`: the last `|suffix|` characters are `suffix` |
| Extraction.Concat | api/index.py:44-46 | the page texts joined in order with nothing between them. ConcatAppend, ConcatAt and ConcatLength state its properties |
| Extraction.Extracted | api/index.py:41-51 | UnsupportedFormat exactly when the name ends in neither `.pdf` nor `.txt`. `.pdf` yields the joined pages or the reader's error; otherwise `.txt` yields the decoded text or the decoder's error |
| Extraction.ExtractText | api/index.py:41-51 | the page-appending loop returns exactly `Extracted` |
| Extraction.ConcatAppend | api/index.py:44-46 | joining the pages of `a + b` is joining `a`, then `b` |
| Extraction.ConcatAt | api/index.py:44-46 | page `k` appears whole, between the text of the pages before it and of those after it |
| Extraction.ConcatLength | api/index.py:44-46 | no separator is inserted: the text is exactly as long as all pages together |
| Input.ErrorDict | api/index.py:183 | the one-key dict `{"error": "Error generating acta: " + str(e)}` |
| Input.InputText | api/index.py:178-184 | `get_input` yields a string exactly when extraction succeeds, and otherwise the error dict of what it raised. For an unsupported name that dict reads "Error generating acta: 400: Unsupported file format" |
| Input.InputAgent.constructor | api/index.py:175-176 | a new agent starts with no inputs |
| Input.InputAgent.GetInput | api/index.py:178-184 | the method (which never raises) returns `InputText` |
| Input.InputAgent.Receive | api/index.py:186-190 | appends exactly the value it returns to `inputs`, and earlier entries stay |
| Writer.Generated | api/index.py:90-92 | a failed call raises the service's error. Otherwise `json.loads` sees the cleaned reply, and its result or error is what the writer yields |
| Writer.Applied | api/index.py:136-138 | the writer's exception propagates, and a parsed reply is merged as `dict.update` merges it |
| Writer.Draft | api/index.py:55-92 | one model call with the text and the word count, and its parsed, cleaned reply |
| Writer.Revise | api/index.py:94-130 | one model call with the whole article, and its parsed, cleaned reply |
| Writer.UnderCritique | api/index.py:134-135 | the article is under critique exactly when `article.get("critique")` is not None, so an absent key counts as None |
| Writer.RunRequest | api/index.py:134-138 | revise exactly when `critique` is present and not None. Otherwise draft from `source` and `words`, raising KeyError 'source' before 'words' |
| Writer.Run | api/index.py:132-139 | on success the same dict is returned, holding the merged reply. On any failure it is unchanged, and no call is made when a key is missing |
| Critic.Verdict | api/index.py:168-171 | `{'critique': None}` with no `message` exactly for the reply `None`; any other reply gives `{'critique': reply, 'message': None}` |
| Critic.Critique | api/index.py:144-171 | the model gets the caller's entries minus `source`, and the caller's dict is unchanged. KeyError 'source' comes with no call |
| Pipeline.Seed | api/index.py:207-210 | the record `{"source": the_text, "words": words}` |
| Pipeline.Final | api/index.py:213-219 | the merged article when the writer's call and the merge succeed, otherwise the error dict of the exception |
| Pipeline.Processed | api/index.py:200-219 | one or two model calls. The first critiques `{words}` alone, and a second happens only if it answered. That second is a draft from `source` and `words` after `None`, else a revise of the four-key record. Any failure becomes the error dict |
| Pipeline.UnsupportedUploadReachesWriter | api/index.py:200-219 | for an unsupported file name the pipeline goes on: after approval it drafts from the error dict, which stays the payload's `source` |
| Pipeline.StateMachine.constructor | api/index.py:195-198 | a new state machine owns a fresh input agent with no inputs |
| Pipeline.StateMachine.Process | api/index.py:200-219 | appends one input, and its payload and the calls it makes are those of `Processed` |
| Pipeline.GenerateMinutes | api/index.py:225-227 | `process` with 500 words |
| Pipeline.ProcessCritique | api/index.py:230-242 | parse errors, non-object articles and extraction errors propagate with no model call. Otherwise one revise call gets the article with `critique` and `source` overridden, and its output is returned unmerged |

## Left out

- The prompt wording, `convert_openai_messages` and the model's settings (`temperature`, `max_retries`, `response_format`): a request records only the dict or values serialised into the prompt.
- `datetime.now()` in the prompts: time only changes the wording, and the reply oracle may depend on anything.
- PyPDF2 page decoding and `bytes.decode('utf-8')`: library parsing, given as oracles that yield pages or text, or an error message.
- `json.loads` and `json.dumps`: library serialisation. `json.loads` is an oracle; dict key order (which only changes the serialised text) is not modelled, and JSON floats are not modelled.
- The text of exceptions raised by the libraries and the model service: supplied by the oracles. `str(HTTPException)` is taken in Starlette's form "400: Unsupported file format"; `str(KeyError(k))` is `'k'` (the keys used have no quotes to escape).
- Python.Merged: a non-empty JSON array reply is treated as a failed update that changes nothing. Python's `dict.update` instead accepts an array of key/value pairs, and otherwise raises, possibly after a partial update. The ValueError text `NotPairMessage` for that case is a placeholder, not a message Python produces: Python's text depends on the first element that is not a pair.
- An upload without a file name (`filename` None), which would raise AttributeError inside `get_input`.
- Concurrent requests interleaving on the shared `inputs` list: each request runs to completion in the model.
- `print` logging, `load_dotenv`, FastAPI routing, reading the `UploadFile`, `CORSMiddleware` and the unused `MinutesData` class: I/O and transport glue.
- app/page.tsx: the browser UI is not part of this model.
- The stateless `WriterAgent` and `CritiqueAgent` objects: their methods are module-level methods here.
