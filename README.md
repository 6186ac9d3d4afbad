# traefik-openai-header, modelled in Dafny

A Traefik middleware plugin that inspects OpenAI chat-completion requests.

When a request's URI matches the configured regular expression and its method is
POST, the handler:

- reads the JSON body and decodes it into a chat-completion record;
- copies the model name and a fixed set of optional parameters into request headers;
- reports parse problems in the header `X-OpenAI-Parse-Failure`;
- puts a fresh reader over the bytes it consumed back on the request.

Every request, matched or not, is then passed to the next handler.

The header names come from a table that maps logical field names (`model`, `user`,
`temperature`, …) to header names. The default table maps each one to an
`X-OpenAI-…` header.

The model is split into these files:

- `wrappers.dfy`: `Option`.
- `payload.dfy`: the two records the body is decoded into, reduced to the fields the
  handler reads, and the outcome of a decode (the possibly partially filled record
  plus an optional error).
- `format.dfy`: the `%v` rendering of integers and booleans, with its read-back.
- `headers.dfy`: the request header set. It is a class whose `Set` overwrites in
  place. Beside it is the pure fold `ApplyAll`, which gives what a sequence of `Set`
  calls leaves behind, and `LastWrite`, which gives the last value written to a name.
- `http.dfy`: the request (fixed method and URI, a header set, a replaceable body),
  the response writer `http.Error` writes to, and a next handler that records each
  request it receives.
- `openai_header.dfy`: the configuration, `CreateConfig`, `New` and the handler's
  `ServeHTTP`.
  - `Writes` is a pure function that lists, in order, every header `Set` the handler
    performs on an inspected request.
  - `ServeHTTP` is an imperative method. It is proved to leave the headers at
    `ApplyAll(old headers, Writes(...))`, to replace the body by a reader over the
    bytes read, and to call the next handler exactly once.
- `properties.dfy`: what those writes mean for the final headers. This covers the
  default table and each decode outcome. It also covers presence (not truthiness)
  deciding which optional fields are emitted, missing table keys, re-running the
  handler, and five scenarios from the test suite.

Some pieces of code the handler calls are parameters of the model, bundled in
`OpenAIHeader.Foreign`:

- the regular-expression engine;
- `json.Unmarshal` into each record;
- `%v` of a `float32`.

Behaviour the model follows because the code does it:

- **Read errors.** After a failed body read, the handler writes a 500 error. It then
  carries on: it sets headers from whatever bytes were read, replays those bytes, and
  still calls the next handler (`openai_header.go:132-135`, `openai_header.go:201`).
- **Model-only fallback.** If the full decode fails and the model-only decode
  succeeds, the diagnostic header keeps the first decode's error text. The model
  header then gets the model of the partially filled *full* record. The model-only
  record's own model is never read (`openai_header.go:143-152`).
- **URI matching.** The pattern is matched against `RequestURI`, so the query string
  is included (`openai_header.go:122`).
- **Missing table keys.** A table without a logical key looks that key up as a nil
  interface. That renders as the header name `<nil>` (`openai_header.go:151-194`).

## Model

| member | source | states |
|---|---|---|
| OpenAIHeader.CreateConfig | openai_header.go:21-37 | builds the default table one insertion at a time; the result is exactly the eleven-entry default table with pattern `/v1/chat/completions` |
| OpenAIHeader.Handler.New | openai_header.go:49-60 | a given configuration's table and pattern are kept as they are; a nil configuration yields the defaults of `CreateConfig`; name and next handler are stored |
| OpenAIHeader.DefaultRequestFields | openai_header.go:22-33 | the default table's keys are exactly the eleven logical field names |
| OpenAIHeader.Inspected | openai_header.go:122-128 | only POST requests are inspected, and a pattern that fails to compile (the engine reports an error) never lets a request through |
| OpenAIHeader.IntText | openai_header.go:169-175 | an optional Go int yields a text exactly when it is non-nil, and that text is a signed decimal that reads back to the int |
| OpenAIHeader.FieldWrites | openai_header.go:157-195 | one guard performs at most one `Set`: exactly one when the field is emitted, under the header name the table yields for that field (which is `<nil>` when the key is missing) |
| OpenAIHeader.OptionalWrites | openai_header.go:157-195 | the ten guards perform at most ten `Set` calls; `SetOptionalFields` is proved to perform exactly these, in source order |
| OpenAIHeader.DecodeWrites | openai_header.go:142-155 | the decode step performs one or two `Set` calls. The first and the last go to the diagnostic header or the model's header, and after a failed full decode the first one records that decode's error text. `SetDecodeOutcome` is proved to perform exactly these |
| OpenAIHeader.Writes | openai_header.go:137-196 | an inspected request gets at most twelve `Set` calls, and with an empty table at most one (the empty-body diagnostic). `Handler.ServeHTTP` is proved to leave the headers at exactly the result of performing these writes in order |
| OpenAIHeader.Key | openai_header.go:157-195 | every optional field is looked up under one of the eleven logical names, never under `model` |
| OpenAIHeader.Handler.ServeHTTP | openai_header.go:121-202 | for a POST whose URI matches, the headers end at the old headers updated by `Writes`, in order. The body becomes `ReaderOver` the bytes read: a fresh reader yielding exactly those bytes and then a clean end of file. A read error adds a 500 status (if none was written yet) and the error line. Any other request keeps its headers, body and response. The next handler is called exactly once, with the request as it now is |
| OpenAIHeader.Handler.SetHeaders | openai_header.go:137-196 | the header-setting part of an inspected request performs exactly `Writes`: the empty-body diagnostic, or the decode step followed by the optional fields when the table is non-empty |
| OpenAIHeader.Handler.SetDecodeOutcome | openai_header.go:142-155 | the decode step performs the decode writes: the model header after a full decode; else the error text, then "Unknown model" or the model of the partially filled full record |
| OpenAIHeader.Handler.SetOptionalFields | openai_header.go:157-195 | the ten presence-guarded writes, performed in source order, equal the optional writes |
| OpenAIHeader.Handler.SetField | openai_header.go:157-195 | one guarded write: a non-nil pointer, a non-empty `user` or a string `tool_choice` is rendered and set under its configured name; otherwise nothing changes |
| OpenAIHeader.OptionalWritesStepwise | openai_header.go:157-195 | performing the optional writes all at once equals performing them field by field in source order |
| Headers.Header.constructor | openai_header.go:138 | a header set starts with the given entries |
| Headers.Header.Set | openai_header.go:138 | `Set` replaces the value under a name and leaves every other name as it was |
| Headers.ApplyAllAt | openai_header.go:138-194 | after a sequence of writes, a header is present iff it was before or was written, and it holds the last value written to it, or else its old value |
| Headers.ApplyAllAppend | openai_header.go:138-194 | performing `a` and then `b` equals performing `a + b` |
| Headers.LastWriteAppend | openai_header.go:138-194 | the last write to a name in `a + b` is its last write in `b`, or else in `a` |
| Headers.LastWriteAbsent | openai_header.go:138-194 | a header that no write in the sequence targets has no last write |
| Headers.ApplyAllIdempotent | openai_header.go:138-194 | every write overwrites, so performing the same writes twice leaves what performing them once does |
| Http.Request.constructor | openai_header.go:121 | a request holds the given method, URI, header set and body |
| Http.Request.ReadAll | openai_header.go:132 | `io.ReadAll` returns everything the body yields and the error it ends with; the drained body has nothing left |
| Http.ResponseWriter.constructor | openai_header.go:134 | a fresh response has no status and no text |
| Http.ResponseWriter.Error | openai_header.go:134 | `http.Error` sets the status only if none was written yet, and appends the message as a line |
| Http.Downstream.constructor | openai_header.go:201 | the next handler starts having seen no request |
| Http.Downstream.ServeHTTP | openai_header.go:201 | the next handler records the headers and body of the request it is handed |
| Format.FormatNat | openai_header.go:170 | at least one character, all decimal digits, no leading zero |
| Format.FormatInt | openai_header.go:170-174 | `%v` of an int is a signed decimal text (an optional minus sign, then digits) that starts with `-` exactly when the int is negative |
| Format.ParseFormatNat | openai_header.go:170-174 | reading back the digits of a natural number gives the number |
| Format.ParseFormatInt | openai_header.go:170-174 | the integer rendering loses nothing: reading it back gives the integer |
| Format.FormatIntInjective | openai_header.go:170-174 | distinct `logprobs` / `top_logprobs` values give distinct header values |
| HeaderProperties.DefaultTableInvertible | openai_header.go:22-33 | the default table has exactly the eleven logical keys, and each default header name reads back to its key; the diagnostic header reads back to none |
| HeaderProperties.DefaultsAreDistinct | openai_header.go:22-33 | the default table satisfies `DistinctNames`: the header names it yields for the model and the ten optional fields are pairwise distinct, and none is the diagnostic header, so no write clobbers another field's |
| HeaderProperties.DefaultsWithoutKeyStayDistinct | openai_header.go:151-194 | removing any one key from the default table still satisfies `DistinctNames`: the missing field's header becomes `<nil>`, which equals no default name and is not the diagnostic header. So the lemmas below cover such tables too |
| HeaderProperties.DefaultsHaveElevenEntries | openai_header.go:22-33 | the default table has exactly eleven entries |
| HeaderProperties.LogicalKeysCount | openai_header.go:23-33 | the eleven logical names are all different |
| HeaderProperties.KeyInjective | openai_header.go:157-195 | distinct optional fields are looked up under distinct logical names, and conversely |
| HeaderProperties.FieldWritesAt | openai_header.go:157-195 | if field `g`'s header name differs from field `f`'s whenever `g` is not `f`, then `g`'s guarded write touches `f`'s header only when `g` is `f`, and then carries `f`'s emitted value |
| HeaderProperties.FieldWritesAvoid | openai_header.go:157-195 | a field's guarded write touches no header other than its configured one |
| HeaderProperties.OptionalWritesAt | openai_header.go:157-195 | the last optional write to a header is found by scanning the fields from `stream` back to `user`, the reverse of source order |
| HeaderProperties.OptionalWritesField | openai_header.go:157-195 | if no other optional field shares its header name, an optional field's header is last written with exactly the value emitted for that field, and is not written when none is emitted |
| HeaderProperties.OptionalWritesSpare | openai_header.go:157-195 | if the table satisfies `SeparateNames` (no optional field's header name is the model's or the diagnostic's), the optional writes never touch the model header or the diagnostic header |
| HeaderProperties.OptionalWritesTargets | openai_header.go:157-195 | every optional write goes to a header name the table yields for some optional field |
| HeaderProperties.DecodeWritesAt | openai_header.go:143-155 | the decode writes touch only the model and diagnostic headers. The diagnostic header last gets the error text, or "Unknown model" when both decodes fail, and nothing after a full decode. The model header gets the full record's model unless both decodes fail |
| HeaderProperties.WritesAt | openai_header.go:141-196 | for a non-empty body and table, a header's last write is its last optional write, else its last decode write |
| HeaderProperties.WritesTargets | openai_header.go:137-195 | every header the handler sets is the diagnostic header, the model's header or an optional field's header |
| HeaderProperties.OtherHeadersUntouched | openai_header.go:137-198 | for every body, table and decode outcome, a client header that is neither the diagnostic header nor a header name the table yields for a field reaches the next handler unchanged: present exactly when it was, with the same value |
| HeaderProperties.EmptyBodyOnlyDiagnostic | openai_header.go:137-141 | an empty body sets only the diagnostic header, to "empty body", whatever the table holds |
| HeaderProperties.EmptyTableNoHeaders | openai_header.go:141 | with an empty table, a non-empty body changes no header |
| HeaderProperties.ModelWrittenOnSuccess | openai_header.go:153-155 | for a non-empty body, a non-empty table satisfying `SeparateNames` (keys may be missing) and a successful full decode: the model header holds the decoded model (even an empty one), and the diagnostic header is untouched |
| HeaderProperties.BothDecodesFail | openai_header.go:143-149 | for a non-empty body and a non-empty table satisfying `SeparateNames`, when both decodes fail: the diagnostic header ends as "Unknown model" and the model header is untouched |
| HeaderProperties.ModelOnlyFallback | openai_header.go:143-151 | for a non-empty body and a non-empty table satisfying `SeparateNames`, when only the full decode fails: the diagnostic header keeps its error text and the model header holds the partially filled full record's model |
| HeaderProperties.ModelOnlyValueUnused | openai_header.go:146-151 | the model-only record matters only through its error: the model it decodes never changes the writes |
| HeaderProperties.OptionalFieldHeader | openai_header.go:157-195 | for a non-empty body and a table satisfying `SeparateNames` in which no other optional field shares the field's header name: whatever the decode outcome, the field's header ends with the value emitted for it by the full record, or as it was when none is emitted |
| HeaderProperties.PresenceDecidesEmission | openai_header.go:161-195 | a pointer field is emitted exactly when present, so `false` and `0` are written as `false` and `0` (the `%v` of a bool and an int), and a float is written as its `%v` rendering. `user` is emitted exactly when non-empty; `tool_choice` exactly when it is a string, with that string |
| HeaderProperties.EmittedReadsBack | openai_header.go:157-175 | an emitted `user` is the non-empty user; an emitted `stream` text is `true` exactly when the flag is true; an emitted `logprobs` or `top_logprobs` text is a signed decimal that reads back to the int |
| HeaderProperties.StructuredToolChoiceSkipped | openai_header.go:177-179 | for a non-empty body and a table satisfying `SeparateNames` in which no other optional field shares `tool_choice`'s header name: an object-valued `tool_choice` leaves its header untouched, while a successful decode still writes the model header |
| HeaderProperties.SecondPassIdempotent | openai_header.go:137-196 | applying the same body's writes a second time, with the same decodes, leaves the headers as one application does |
| HeaderProperties.ServeReplayedTwice | openai_header.go:121-202 | handing an inspected request to the handler twice: the replayed body yields the same bytes, so the headers end at one application of `Writes` and the body is a reader over the original bytes. The next handler is called twice and sees identical headers and bodies both times |
| HeaderProperties.MissingKeyWritesNil | openai_header.go:157-159 | `%v` of a missing table entry is `<nil>` (`HeaderName`), so a table that lacks `user` sends a non-empty user to the header `<nil>` |
| HeaderProperties.DefaultNames | openai_header.go:23-31 | the default table names the model, top-logprobs and presence-penalty headers `X-OpenAI-Model`, `X-OpenAI-Top-Logprobs` and `X-OpenAI-Presence-Penalty` |
| HeaderProperties.NoOptionalWrites | openai_header.go:157-195 | a record that emits no optional field produces no optional write |
| HeaderProperties.OptionalWritesOfOne | openai_header.go:157-195 | when every guard but one performs no write, the optional writes are that one guard's |
| HeaderProperties.OneOptionalWrite | openai_header.go:157-195 | a record that emits exactly one optional field produces exactly that one write, under the field's configured name |
| HeaderProperties.OnlyModelHeader | openai_header.go:153-195 | starting from no headers, a full decode with no optional field set yields exactly one header: the model |
| HeaderProperties.ModelAndOneHeader | openai_header.go:153-195 | starting from no headers, a full decode with exactly one optional field set yields exactly the model header and that field's header |
| HeaderProperties.OnlyUnknownModel | openai_header.go:143-149 | starting from no headers, when both decodes fail and no optional field is set, the only header is the diagnostic, reading "Unknown model" |
| HeaderProperties.ModelBodyScenario | openai_header_test.go:33-39 | `{"model": "test"}` with the default table gives exactly `X-OpenAI-Model: test` |
| HeaderProperties.NonJsonScenario | openai_header_test.go:26-32 | a body that is not JSON, with the default table, gives exactly `X-OpenAI-Parse-Failure: Unknown model` |
| HeaderProperties.ToolChoiceObjectScenario | openai_header_test.go:96-102 | an object-valued `tool_choice` with model `gpt-4.1` gives exactly `X-OpenAI-Model: gpt-4.1` |
| HeaderProperties.NullLogprobsScenario | openai_header_test.go:110-116 | `"logprobs": null, "top_logprobs": 2` gives exactly the model header and `X-OpenAI-Top-Logprobs: 2` |
| HeaderProperties.ZeroPenaltyScenario | openai_header_test.go:117-123 | a present `presence_penalty` of 0.0 is still written: exactly the model header and `X-OpenAI-Presence-Penalty` carrying the rendering of 0.0 |

## Left out

- Regular-expression matching (`openai_header.go:122`) is a parameter. A pattern
  that does not compile counts as no match, as in the code. The log line it prints
  (`openai_header.go:125`) is not modelled.
- JSON decoding (`openai_header.go:143`, `openai_header.go:147`) is a parameter. The
  model takes whatever record and error it returns, so how Go fills a record
  partially after an error is not modelled.
- The `%v` rendering of a `float32` is a parameter. Floats are carried as their
  IEEE-754 bit patterns.
- Logging with `fmt.Println` (`openai_header.go:125`, `openai_header.go:145`) is not
  modelled.
- The `TeeReader` into a `bytes.Buffer` (`openai_header.go:129-130`) is modelled as a
  plain read, because the buffer is never read afterwards. The handler replaces the
  original body (`openai_header.go:198`) without closing it, and the model does the
  same.
- Headers are a map with one value per name. Go's canonicalisation of header names
  (`X-OpenAI-Model` is stored as `X-Openai-Model`) and multi-valued headers are not
  modelled. Names are compared verbatim.
- Of `http.Error`, only the status and the message line are modelled. Its
  `Content-Type` and `X-Content-Type-Options` response headers are not.
- The next handler is modelled only by the requests it receives.
- Config values are `interface{}` in Go. The model keeps each value's `%v` rendering
  as a string.
- `New`'s context argument is ignored, and `New` never fails, so it is a constructor.
- The request record keeps only the fields the handler reads. Messages, audio,
  metadata, `n`, `seed`, `store`, stream options, web-search options and the other
  unread fields are dropped.
- Go's `int` is taken to be 64 bits wide (`Payload.Int64`).
- The batch request schema of the test file (`openai_header_test.go:152-213`) has no
  counterpart in the handler, so it is not modelled.
- Only five test cases are restated as scenario lemmas. The rest are covered by the
  general lemmas, such as `ModelWrittenOnSuccess` and `OptionalFieldHeader`.
- ZeroPenaltyScenario: the test body also sets `temperature` and `top_p`. The lemma
  keeps only `presence_penalty`, the header that test checks.
