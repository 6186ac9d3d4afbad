/**
 * What the handler promises about the headers of an inspected request, stated over
 * `Writes` (the ordered `Set` calls) and `ApplyAll` (what they leave behind), which
 * `Handler.ServeHTTP` is proved to perform.
 */
module HeaderProperties {
  import opened Wrappers
  import opened Headers
  import opened Format
  import opened Payload
  import opened Http
  import opened OpenAIHeader

  // ---------------------------------------------------------------------------
  // Configuration
  // ---------------------------------------------------------------------------

  /** Reads a default header name back to its logical field name ("" for any other). */
  function DefaultKeyOf(name: string): string
  {
    if name == "X-OpenAI-Model" then "model"
    else if name == "X-OpenAI-Frequency-Penalty" then "frequency_penalty"
    else if name == "X-OpenAI-User" then "user"
    else if name == "X-OpenAI-Temperature" then "temperature"
    else if name == "X-OpenAI-Top-P" then "top_p"
    else if name == "X-OpenAI-Max-Completion-Tokens" then "max_completion_tokens"
    else if name == "X-OpenAI-Presence-Penalty" then "presence_penalty"
    else if name == "X-OpenAI-Logprobs" then "logprobs"
    else if name == "X-OpenAI-Top-Logprobs" then "top_logprobs"
    else if name == "X-OpenAI-Tool-Choice" then "tool_choice"
    else if name == "X-OpenAI-Stream" then "stream"
    else ""
  }

  /** The default table names exactly the eleven logical fields, and reading each header
      name back gives its field. */
  lemma DefaultTableInvertible()
    ensures DefaultRequestFields().Keys == LogicalKeys
    ensures DefaultKeyOf(DefaultRequestFields()["model"]) == "model"
    ensures forall f :: DefaultKeyOf(DefaultRequestFields()[Key(f)]) == Key(f)
    ensures DefaultKeyOf(ParseFailureHeader) == ""
  {
  }

  /** The default table gives each of the eleven logical fields its own header, none of
      them the diagnostic header. */
  lemma DefaultsAreDistinct()
    ensures DistinctNames(DefaultRequestFields())
  {
    var m := DefaultRequestFields();
    DefaultTableInvertible();
    assert HeaderName(m, "model") == m["model"];
    forall f ensures HeaderName(m, Key(f)) != ParseFailureHeader && HeaderName(m, Key(f)) != HeaderName(m, "model") {
      assert HeaderName(m, Key(f)) == m[Key(f)];
      assert DefaultKeyOf(m[Key(f)]) == Key(f);
      assert Key(f) != "" && Key(f) != "model";
    }
    forall f, g | f != g ensures HeaderName(m, Key(f)) != HeaderName(m, Key(g)) {
      assert HeaderName(m, Key(f)) == m[Key(f)] && HeaderName(m, Key(g)) == m[Key(g)];
      KeyInjective(f, g);
      assert DefaultKeyOf(m[Key(f)]) != DefaultKeyOf(m[Key(g)]);
    }
  }

  /** The default table has exactly eleven entries. */
  lemma DefaultsHaveElevenEntries()
    ensures |DefaultRequestFields()| == 11
  {
    DefaultTableInvertible();
    LogicalKeysCount();
  }

  /** There are eleven logical field names. */
  lemma LogicalKeysCount()
    ensures |LogicalKeys| == 11
  {
  }

  /** Distinct optional fields are looked up under distinct logical names. */
  lemma KeyInjective(f: OptionalField, g: OptionalField)
    ensures Key(f) == Key(g) <==> f == g
  {
  }

  // ---------------------------------------------------------------------------
  // Where each write lands
  // ---------------------------------------------------------------------------

  /** When `g`'s header name differs from `f`'s (or `g` is `f`), the writes for field `g`
      touch field `f`'s header only when `g` is `f`, and then carry `f`'s emitted value. */
  lemma FieldWritesAt(fields: map<string, string>, req: ChatCompletionRequest, g: OptionalField,
                      f: OptionalField, formatFloat32: Float32 -> string)
    requires g != f ==> HeaderName(fields, Key(g)) != HeaderName(fields, Key(f))
    ensures LastWrite(FieldWrites(fields, req, g, formatFloat32), HeaderName(fields, Key(f)))
         == if g == f then Emitted(req, f, formatFloat32) else None
  {
    KeyInjective(f, g);
  }

  /** The writes for field `g` never touch a header that is no optional field's. */
  lemma FieldWritesAvoid(fields: map<string, string>, req: ChatCompletionRequest, g: OptionalField,
                         name: string, formatFloat32: Float32 -> string)
    requires name != HeaderName(fields, Key(g))
    ensures LastWrite(FieldWrites(fields, req, g, formatFloat32), name) == None
  {
  }

  /** The optional part of the writes, split at its last field. */
  lemma OptionalWritesAt(fields: map<string, string>, req: ChatCompletionRequest, name: string,
                         formatFloat32: Float32 -> string)
    ensures LastWrite(OptionalWrites(fields, req, formatFloat32), name) ==
      var w := (g: OptionalField) => LastWrite(FieldWrites(fields, req, g, formatFloat32), name);
      if w(Stream).Some? then w(Stream) else if w(TopP).Some? then w(TopP)
      else if w(PresencePenalty).Some? then w(PresencePenalty) else if w(FrequencyPenalty).Some? then w(FrequencyPenalty)
      else if w(ToolChoice).Some? then w(ToolChoice) else if w(TopLogprobs).Some? then w(TopLogprobs)
      else if w(Logprobs).Some? then w(Logprobs) else if w(MaxCompletionTokens).Some? then w(MaxCompletionTokens)
      else if w(Temperature).Some? then w(Temperature) else w(User)
  {
    var fw := (g: OptionalField) => FieldWrites(fields, req, g, formatFloat32);
    var p1 := fw(User);
    var p2 := p1 + fw(Temperature);
    var p3 := p2 + fw(MaxCompletionTokens);
    var p4 := p3 + fw(Logprobs);
    var p5 := p4 + fw(TopLogprobs);
    var p6 := p5 + fw(ToolChoice);
    var p7 := p6 + fw(FrequencyPenalty);
    var p8 := p7 + fw(PresencePenalty);
    var p9 := p8 + fw(TopP);
    assert OptionalWrites(fields, req, formatFloat32) == p9 + fw(Stream);
    LastWriteAppend(p1, fw(Temperature), name);
    LastWriteAppend(p2, fw(MaxCompletionTokens), name);
    LastWriteAppend(p3, fw(Logprobs), name);
    LastWriteAppend(p4, fw(TopLogprobs), name);
    LastWriteAppend(p5, fw(ToolChoice), name);
    LastWriteAppend(p6, fw(FrequencyPenalty), name);
    LastWriteAppend(p7, fw(PresencePenalty), name);
    LastWriteAppend(p8, fw(TopP), name);
    LastWriteAppend(p9, fw(Stream), name);
  }

  /** When no other optional field shares its header name, an optional field's header
      ends up with exactly the value emitted for that field, if any. */
  lemma OptionalWritesField(fields: map<string, string>, req: ChatCompletionRequest, f: OptionalField,
                            formatFloat32: Float32 -> string)
    requires forall g :: g != f ==> HeaderName(fields, Key(g)) != HeaderName(fields, Key(f))
    ensures LastWrite(OptionalWrites(fields, req, formatFloat32), HeaderName(fields, Key(f)))
         == Emitted(req, f, formatFloat32)
  {
    var name := HeaderName(fields, Key(f));
    OptionalWritesAt(fields, req, name, formatFloat32);
    forall g ensures LastWrite(FieldWrites(fields, req, g, formatFloat32), name) == if g == f then Emitted(req, f, formatFloat32) else None {
      FieldWritesAt(fields, req, g, f, formatFloat32);
    }
  }

  /** When no optional field shares the model's or the diagnostic header's name, the
      optional writes never touch either. */
  lemma OptionalWritesSpare(fields: map<string, string>, req: ChatCompletionRequest, name: string,
                            formatFloat32: Float32 -> string)
    requires SeparateNames(fields)
    requires name == HeaderName(fields, "model") || name == ParseFailureHeader
    ensures LastWrite(OptionalWrites(fields, req, formatFloat32), name) == None
  {
    OptionalWritesAt(fields, req, name, formatFloat32);
    forall g ensures LastWrite(FieldWrites(fields, req, g, formatFloat32), name) == None {
      FieldWritesAvoid(fields, req, g, name, formatFloat32);
    }
  }

  /** The decode writes touch only the model header and the diagnostic header. */
  lemma DecodeWritesAt(fields: map<string, string>, full: Decoded<ChatCompletionRequest>,
                       modelOnly: Decoded<ModelOnlyRequest>, name: string)
    ensures name != HeaderName(fields, "model") && name != ParseFailureHeader ==>
      LastWrite(DecodeWrites(fields, full, modelOnly), name) == None
    ensures name == ParseFailureHeader && name != HeaderName(fields, "model") ==>
      LastWrite(DecodeWrites(fields, full, modelOnly), name) ==
        if full.err.None? then None else if modelOnly.err.Some? then Some("Unknown model") else full.err
    ensures name == HeaderName(fields, "model") && name != ParseFailureHeader ==>
      LastWrite(DecodeWrites(fields, full, modelOnly), name) ==
        if full.err.Some? && modelOnly.err.Some? then None else Some(full.value.model)
  {
    if full.err.Some? {
      var failure := [Write(ParseFailureHeader, full.err.value)];
      var rest := DecodeWrites(fields, full, modelOnly)[1..];
      assert DecodeWrites(fields, full, modelOnly) == failure + rest;
      LastWriteAppend(failure, rest, name);
    }
  }

  /** For a non-empty body and a non-empty table, the last write to a header is its
      last optional write, else its last decode write. */
  lemma WritesAt(fields: map<string, string>, data: seq<Byte>, full: Decoded<ChatCompletionRequest>,
                 modelOnly: Decoded<ModelOnlyRequest>, formatFloat32: Float32 -> string, name: string)
    requires |data| > 0 && |fields| > 0
    ensures LastWrite(Writes(fields, data, full, modelOnly, formatFloat32), name) ==
      var opt := LastWrite(OptionalWrites(fields, full.value, formatFloat32), name);
      if opt.Some? then opt else LastWrite(DecodeWrites(fields, full, modelOnly), name)
  {
    var dec := DecodeWrites(fields, full, modelOnly);
    var opt := OptionalWrites(fields, full.value, formatFloat32);
    assert Writes(fields, data, full, modelOnly, formatFloat32) == dec + opt;
    LastWriteAppend(dec, opt, name);
  }

  // ---------------------------------------------------------------------------
  // Request-level outcomes
  // ---------------------------------------------------------------------------

  /** An empty body sets the diagnostic header to "empty body" and nothing else,
      whatever the table holds (an empty table included). */
  lemma EmptyBodyOnlyDiagnostic(h: map<string, string>, fields: map<string, string>, data: seq<Byte>,
                                full: Decoded<ChatCompletionRequest>, modelOnly: Decoded<ModelOnlyRequest>,
                                formatFloat32: Float32 -> string)
    requires |data| == 0
    ensures ApplyAll(h, Writes(fields, data, full, modelOnly, formatFloat32)) == h[ParseFailureHeader := "empty body"]
  {
    assert Writes(fields, data, full, modelOnly, formatFloat32) == [Write(ParseFailureHeader, "empty body")];
  }

  /** With an empty table, a non-empty body is not decoded and no header changes. */
  lemma EmptyTableNoHeaders(h: map<string, string>, fields: map<string, string>, data: seq<Byte>,
                            full: Decoded<ChatCompletionRequest>, modelOnly: Decoded<ModelOnlyRequest>,
                            formatFloat32: Float32 -> string)
    requires |data| > 0 && |fields| == 0
    ensures ApplyAll(h, Writes(fields, data, full, modelOnly, formatFloat32)) == h
  {
    assert Writes(fields, data, full, modelOnly, formatFloat32) == [];
  }

  /** After a successful full decode the model header always carries the decoded model,
      the empty string included, and the diagnostic header is left as it was. */
  lemma ModelWrittenOnSuccess(h: map<string, string>, fields: map<string, string>, data: seq<Byte>,
                              full: Decoded<ChatCompletionRequest>, modelOnly: Decoded<ModelOnlyRequest>,
                              formatFloat32: Float32 -> string)
    requires SeparateNames(fields) && |data| > 0 && |fields| > 0 && full.err.None?
    ensures var r := ApplyAll(h, Writes(fields, data, full, modelOnly, formatFloat32));
      && HeaderName(fields, "model") in r && r[HeaderName(fields, "model")] == full.value.model
      && (ParseFailureHeader in r <==> ParseFailureHeader in h)
      && (ParseFailureHeader in h ==> r[ParseFailureHeader] == h[ParseFailureHeader])
  {
    var ws := Writes(fields, data, full, modelOnly, formatFloat32);
    var model := HeaderName(fields, "model");
    DecodeWritesAt(fields, full, modelOnly, model);
    DecodeWritesAt(fields, full, modelOnly, ParseFailureHeader);
    WritesAt(fields, data, full, modelOnly, formatFloat32, model);
    WritesAt(fields, data, full, modelOnly, formatFloat32, ParseFailureHeader);
    OptionalWritesSpare(fields, full.value, model, formatFloat32);
    OptionalWritesSpare(fields, full.value, ParseFailureHeader, formatFloat32);
    ApplyAllAt(h, ws, model);
    ApplyAllAt(h, ws, ParseFailureHeader);
  }

  /** When both decodes fail the diagnostic header ends as "Unknown model" and the model
      header is left as it was. */
  lemma BothDecodesFail(h: map<string, string>, fields: map<string, string>, data: seq<Byte>,
                        full: Decoded<ChatCompletionRequest>, modelOnly: Decoded<ModelOnlyRequest>,
                        formatFloat32: Float32 -> string)
    requires SeparateNames(fields) && |data| > 0 && |fields| > 0 && full.err.Some? && modelOnly.err.Some?
    ensures var r := ApplyAll(h, Writes(fields, data, full, modelOnly, formatFloat32));
      var model := HeaderName(fields, "model");
      && ParseFailureHeader in r && r[ParseFailureHeader] == "Unknown model"
      && (model in r <==> model in h)
      && (model in h ==> r[model] == h[model])
  {
    var ws := Writes(fields, data, full, modelOnly, formatFloat32);
    var model := HeaderName(fields, "model");
    DecodeWritesAt(fields, full, modelOnly, model);
    DecodeWritesAt(fields, full, modelOnly, ParseFailureHeader);
    WritesAt(fields, data, full, modelOnly, formatFloat32, model);
    WritesAt(fields, data, full, modelOnly, formatFloat32, ParseFailureHeader);
    OptionalWritesSpare(fields, full.value, model, formatFloat32);
    OptionalWritesSpare(fields, full.value, ParseFailureHeader, formatFloat32);
    ApplyAllAt(h, ws, model);
    ApplyAllAt(h, ws, ParseFailureHeader);
  }

  /** When only the full decode fails, the diagnostic header keeps its error text and the
      model header takes the model of the partially filled full record. */
  lemma ModelOnlyFallback(h: map<string, string>, fields: map<string, string>, data: seq<Byte>,
                          full: Decoded<ChatCompletionRequest>, modelOnly: Decoded<ModelOnlyRequest>,
                          formatFloat32: Float32 -> string)
    requires SeparateNames(fields) && |data| > 0 && |fields| > 0 && full.err.Some? && modelOnly.err.None?
    ensures var r := ApplyAll(h, Writes(fields, data, full, modelOnly, formatFloat32));
      && ParseFailureHeader in r && r[ParseFailureHeader] == full.err.value
      && HeaderName(fields, "model") in r && r[HeaderName(fields, "model")] == full.value.model
  {
    var ws := Writes(fields, data, full, modelOnly, formatFloat32);
    var model := HeaderName(fields, "model");
    DecodeWritesAt(fields, full, modelOnly, model);
    DecodeWritesAt(fields, full, modelOnly, ParseFailureHeader);
    WritesAt(fields, data, full, modelOnly, formatFloat32, model);
    WritesAt(fields, data, full, modelOnly, formatFloat32, ParseFailureHeader);
    OptionalWritesSpare(fields, full.value, model, formatFloat32);
    OptionalWritesSpare(fields, full.value, ParseFailureHeader, formatFloat32);
    ApplyAllAt(h, ws, model);
    ApplyAllAt(h, ws, ParseFailureHeader);
  }

  /** The model-only record is decoded only for its error: which model it holds never
      changes the writes. */
  lemma ModelOnlyValueUnused(fields: map<string, string>, data: seq<Byte>, full: Decoded<ChatCompletionRequest>,
                             a: Decoded<ModelOnlyRequest>, b: Decoded<ModelOnlyRequest>,
                             formatFloat32: Float32 -> string)
    requires a.err.Some? == b.err.Some?
    ensures Writes(fields, data, full, a, formatFloat32) == Writes(fields, data, full, b, formatFloat32)
  {
  }

  /** Whatever the decode outcome, an optional field's header ends with the value emitted
      for it by the (possibly partially filled) full record, or as it was. */
  lemma OptionalFieldHeader(h: map<string, string>, fields: map<string, string>, data: seq<Byte>,
                            full: Decoded<ChatCompletionRequest>, modelOnly: Decoded<ModelOnlyRequest>,
                            formatFloat32: Float32 -> string, f: OptionalField)
    requires SeparateNames(fields) && |data| > 0
    requires forall g :: g != f ==> HeaderName(fields, Key(g)) != HeaderName(fields, Key(f))
    ensures var r := ApplyAll(h, Writes(fields, data, full, modelOnly, formatFloat32));
      var name := HeaderName(fields, Key(f));
      var v := Emitted(full.value, f, formatFloat32);
      && (name in r <==> name in h || v.Some?)
      && (name in r ==> r[name] == if v.Some? then v.value else h[name])
  {
    var ws := Writes(fields, data, full, modelOnly, formatFloat32);
    var name := HeaderName(fields, Key(f));
    assert name != HeaderName(fields, "model") && name != ParseFailureHeader;
    DecodeWritesAt(fields, full, modelOnly, name);
    WritesAt(fields, data, full, modelOnly, formatFloat32, name);
    OptionalWritesField(fields, full.value, f, formatFloat32);
    ApplyAllAt(h, ws, name);
  }

  /** Presence, not truthiness: a pointer field's header is set exactly when the field
      is present, so `false`, `0` and `0.0` are written; `user` only when non-empty;
      `tool_choice` only when it holds a string. */
  lemma PresenceDecidesEmission(req: ChatCompletionRequest, formatFloat32: Float32 -> string)
    ensures Emitted(req, Stream, formatFloat32).Some? <==> req.stream.Some?
    ensures req.stream == Some(false) ==> Emitted(req, Stream, formatFloat32) == Some("false")
    ensures req.logprobs == Some(0) ==> Emitted(req, Logprobs, formatFloat32) == Some("0")
    ensures Emitted(req, Logprobs, formatFloat32).Some? <==> req.logprobs.Some?
    ensures Emitted(req, TopLogprobs, formatFloat32).Some? <==> req.topLogprobs.Some?
    ensures Emitted(req, Temperature, formatFloat32).Some? <==> req.temperature.Some?
    ensures Emitted(req, MaxCompletionTokens, formatFloat32).Some? <==> req.maxCompletionTokens.Some?
    ensures Emitted(req, FrequencyPenalty, formatFloat32).Some? <==> req.frequencyPenalty.Some?
    ensures Emitted(req, PresencePenalty, formatFloat32).Some? <==> req.presencePenalty.Some?
    ensures Emitted(req, TopP, formatFloat32).Some? <==> req.topP.Some?
    ensures req.temperature.Some? ==>
      Emitted(req, Temperature, formatFloat32) == Some(formatFloat32(req.temperature.value))
    ensures req.maxCompletionTokens.Some? ==>
      Emitted(req, MaxCompletionTokens, formatFloat32) == Some(formatFloat32(req.maxCompletionTokens.value))
    ensures req.frequencyPenalty.Some? ==>
      Emitted(req, FrequencyPenalty, formatFloat32) == Some(formatFloat32(req.frequencyPenalty.value))
    ensures req.presencePenalty.Some? ==>
      Emitted(req, PresencePenalty, formatFloat32) == Some(formatFloat32(req.presencePenalty.value))
    ensures req.topP.Some? ==>
      Emitted(req, TopP, formatFloat32) == Some(formatFloat32(req.topP.value))
    ensures Emitted(req, User, formatFloat32).Some? <==> req.user != ""
    ensures Emitted(req, ToolChoice, formatFloat32).Some? <==> req.toolChoice.Text?
    ensures req.toolChoice.Text? ==> Emitted(req, ToolChoice, formatFloat32) == Some(req.toolChoice.s)
  {
  }

  /** The emitted texts carry their values: a non-empty `user` as it is, a boolean as a
      text that is "true" exactly for true, and an int as a text that reads back to it. */
  lemma EmittedReadsBack(req: ChatCompletionRequest, f: OptionalField, formatFloat32: Float32 -> string)
    ensures var r := Emitted(req, f, formatFloat32);
      && (f == User && r.Some? ==> r.value == req.user && r.value != "")
      && (f == Stream && r.Some? ==> req.stream.Some? && (r.value == "true" <==> req.stream.value))
      && (f == Logprobs && r.Some? ==>
            req.logprobs.Some? && IsIntText(r.value) && ParseInt(r.value) == req.logprobs.value as int)
      && (f == TopLogprobs && r.Some? ==>
            req.topLogprobs.Some? && IsIntText(r.value) && ParseInt(r.value) == req.topLogprobs.value as int)
  {
  }

  /** An object-valued `tool_choice` leaves the tool-choice header as it was, while the
      model header is still written after a successful decode. */
  lemma StructuredToolChoiceSkipped(h: map<string, string>, fields: map<string, string>, data: seq<Byte>,
                                    full: Decoded<ChatCompletionRequest>, modelOnly: Decoded<ModelOnlyRequest>,
                                    formatFloat32: Float32 -> string)
    requires SeparateNames(fields) && |data| > 0 && full.err.None? && full.value.toolChoice.Structured?
    requires forall g :: g != ToolChoice ==> HeaderName(fields, Key(g)) != HeaderName(fields, "tool_choice")
    ensures var r := ApplyAll(h, Writes(fields, data, full, modelOnly, formatFloat32));
      var name := HeaderName(fields, "tool_choice");
      && (name in r <==> name in h)
      && (name in h ==> r[name] == h[name])
      && HeaderName(fields, "model") in r && r[HeaderName(fields, "model")] == full.value.model
  {
    assert Key(ToolChoice) == "tool_choice";
    assert Emitted(full.value, ToolChoice, formatFloat32) == None;
    OptionalFieldHeader(h, fields, data, full, modelOnly, formatFloat32, ToolChoice);
    ModelWrittenOnSuccess(h, fields, data, full, modelOnly, formatFloat32);
  }

  /** Handling the replayed body a second time, with the same decodes, leaves the headers
      exactly as the first pass did. */
  lemma SecondPassIdempotent(h: map<string, string>, fields: map<string, string>, data: seq<Byte>,
                             full: Decoded<ChatCompletionRequest>, modelOnly: Decoded<ModelOnlyRequest>,
                             formatFloat32: Float32 -> string)
    ensures var ws := Writes(fields, data, full, modelOnly, formatFloat32);
      ApplyAll(ApplyAll(h, ws), ws) == ApplyAll(h, ws)
  {
    ApplyAllIdempotent(h, Writes(fields, data, full, modelOnly, formatFloat32));
  }

  /** Handing the request to the handler again after it replayed the body: the second
      pass reads the same bytes, performs the same writes over headers that already hold
      them, and so the next handler sees the same headers and body both times. */
  method ServeReplayedTwice(hd: Handler, w: ResponseWriter, r: Request, ffi: Foreign)
    requires Inspected(ffi, hd.requestUriRegex, r)
    modifies w, r, r.header, hd.next
    ensures var data := old(r.body).data;
      && r.header.entries == ApplyAll(old(r.header.entries),
           Writes(hd.requestFields, data, ffi.unmarshalFull(data), ffi.unmarshalModelOnly(data), ffi.formatFloat32))
      && r.body == ReaderOver(data)
    ensures |hd.next.seen| == |old(hd.next.seen)| + 2
    ensures hd.next.seen[|hd.next.seen| - 1] == hd.next.seen[|hd.next.seen| - 2]
  {
    ghost var data := r.body.data;
    ghost var ws := Writes(hd.requestFields, data, ffi.unmarshalFull(data), ffi.unmarshalModelOnly(data),
                           ffi.formatFloat32);
    hd.ServeHTTP(w, r, ffi);
    ghost var first := r.header.entries;
    ApplyAllIdempotent(old(r.header.entries), ws);
    hd.ServeHTTP(w, r, ffi);
    assert r.header.entries == first;
  }

  /** A table that lacks a logical key sends that field to the header "<nil>". */
  lemma MissingKeyWritesNil(fields: map<string, string>, data: seq<Byte>, full: Decoded<ChatCompletionRequest>,
                            modelOnly: Decoded<ModelOnlyRequest>, formatFloat32: Float32 -> string)
    requires |data| > 0 && |fields| > 0 && "user" !in fields && full.value.user != ""
    ensures Write("<nil>", full.value.user) in Writes(fields, data, full, modelOnly, formatFloat32)
  {
    var dec := DecodeWrites(fields, full, modelOnly);
    assert Writes(fields, data, full, modelOnly, formatFloat32)[|dec|] == Write("<nil>", full.value.user);
  }

  /** Dropping any one key from the default table keeps the names distinct: the missing
      field's header becomes "<nil>", which no default name and not the diagnostic
      header equals. */
  lemma DefaultsWithoutKeyStayDistinct(k: string)
    ensures DistinctNames(DefaultRequestFields() - {k})
  {
    var m := DefaultRequestFields();
    var t := m - {k};
    DefaultTableInvertible();
    assert DefaultKeyOf("<nil>") == "";
    assert HeaderName(t, "model") == (if k == "model" then "<nil>" else m["model"]);
    forall f ensures DefaultKeyOf(HeaderName(t, Key(f))) == (if Key(f) == k then "" else Key(f)) {
      assert Key(f) in m;
    }
    assert DefaultKeyOf(HeaderName(t, "model")) == (if k == "model" then "" else "model");
    forall f, g | f != g ensures HeaderName(t, Key(f)) != HeaderName(t, Key(g)) {
      KeyInjective(f, g);
    }
  }

  /** The optional writes go only to optional fields' header names. */
  lemma OptionalWritesTargets(fields: map<string, string>, req: ChatCompletionRequest, formatFloat32: Float32 -> string)
    ensures forall w | w in OptionalWrites(fields, req, formatFloat32) :: IsFieldHeader(fields, w.name)
  {
    forall f, w | w in FieldWrites(fields, req, f, formatFloat32) ensures IsFieldHeader(fields, w.name) {
      assert w.name == HeaderName(fields, Key(f));
    }
  }

  /** Every header the handler sets is the diagnostic header, the model's header or an
      optional field's header. */
  lemma WritesTargets(fields: map<string, string>, data: seq<Byte>, full: Decoded<ChatCompletionRequest>,
                      modelOnly: Decoded<ModelOnlyRequest>, formatFloat32: Float32 -> string)
    ensures forall w | w in Writes(fields, data, full, modelOnly, formatFloat32) ::
      w.name == ParseFailureHeader || w.name == HeaderName(fields, "model") || IsFieldHeader(fields, w.name)
  {
    OptionalWritesTargets(fields, full.value, formatFloat32);
  }

  /** Any other header the client sent reaches the next handler unchanged, whatever the
      body, the table and the decode outcome. */
  lemma OtherHeadersUntouched(h: map<string, string>, fields: map<string, string>, data: seq<Byte>,
                              full: Decoded<ChatCompletionRequest>, modelOnly: Decoded<ModelOnlyRequest>,
                              formatFloat32: Float32 -> string, name: string)
    requires name != ParseFailureHeader && name != HeaderName(fields, "model")
    requires forall f :: name != HeaderName(fields, Key(f))
    ensures var r := ApplyAll(h, Writes(fields, data, full, modelOnly, formatFloat32));
      && (name in r <==> name in h)
      && (name in h ==> r[name] == h[name])
  {
    var ws := Writes(fields, data, full, modelOnly, formatFloat32);
    WritesTargets(fields, data, full, modelOnly, formatFloat32);
    LastWriteAbsent(ws, name);
    ApplyAllAt(h, ws, name);
  }

  // ---------------------------------------------------------------------------
  // Scenarios of the handler's test suite, on the default table and a request
  // that arrives with no headers
  // ---------------------------------------------------------------------------

  /** The default header names the scenarios below rely on. */
  lemma DefaultNames()
    ensures HeaderName(DefaultRequestFields(), "model") == "X-OpenAI-Model"
    ensures HeaderName(DefaultRequestFields(), Key(TopLogprobs)) == "X-OpenAI-Top-Logprobs"
    ensures HeaderName(DefaultRequestFields(), Key(PresencePenalty)) == "X-OpenAI-Presence-Penalty"
  {
  }

  /** A request that emits no optional field produces no optional writes. */
  lemma NoOptionalWrites(fields: map<string, string>, req: ChatCompletionRequest, formatFloat32: Float32 -> string)
    requires forall f :: Emitted(req, f, formatFloat32).None?
    ensures OptionalWrites(fields, req, formatFloat32) == []
  {
    var fw := (f: OptionalField) => FieldWrites(fields, req, f, formatFloat32);
    assert forall f :: fw(f) == [];
  }

  /** When every field but `g` contributes no write, the optional writes are `g`'s. */
  lemma OptionalWritesOfOne(fields: map<string, string>, req: ChatCompletionRequest, g: OptionalField,
                            formatFloat32: Float32 -> string)
    requires forall f :: f != g ==> FieldWrites(fields, req, f, formatFloat32) == []
    ensures OptionalWrites(fields, req, formatFloat32) == FieldWrites(fields, req, g, formatFloat32)
  {
    var fw := (f: OptionalField) => FieldWrites(fields, req, f, formatFloat32);
    var ws := fw(User) + fw(Temperature) + fw(MaxCompletionTokens) + fw(Logprobs) + fw(TopLogprobs)
            + fw(ToolChoice) + fw(FrequencyPenalty) + fw(PresencePenalty) + fw(TopP) + fw(Stream);
    assert OptionalWrites(fields, req, formatFloat32) == ws;
    var e: seq<Write> := [];
    match g
    case User => assert ws == fw(User) + e + e + e + e + e + e + e + e + e;
    case Temperature => assert ws == e + fw(Temperature) + e + e + e + e + e + e + e + e;
    case MaxCompletionTokens => assert ws == e + e + fw(MaxCompletionTokens) + e + e + e + e + e + e + e;
    case Logprobs => assert ws == e + e + e + fw(Logprobs) + e + e + e + e + e + e;
    case TopLogprobs => assert ws == e + e + e + e + fw(TopLogprobs) + e + e + e + e + e;
    case ToolChoice => assert ws == e + e + e + e + e + fw(ToolChoice) + e + e + e + e;
    case FrequencyPenalty => assert ws == e + e + e + e + e + e + fw(FrequencyPenalty) + e + e + e;
    case PresencePenalty => assert ws == e + e + e + e + e + e + e + fw(PresencePenalty) + e + e;
    case TopP => assert ws == e + e + e + e + e + e + e + e + fw(TopP) + e;
    case Stream => assert ws == e + e + e + e + e + e + e + e + e + fw(Stream);
  }

  /** A request that emits exactly one optional field produces exactly that write. */
  lemma OneOptionalWrite(fields: map<string, string>, req: ChatCompletionRequest, g: OptionalField,
                         formatFloat32: Float32 -> string)
    requires Emitted(req, g, formatFloat32).Some?
    requires forall f :: f != g ==> Emitted(req, f, formatFloat32).None?
    ensures OptionalWrites(fields, req, formatFloat32)
         == [Write(HeaderName(fields, Key(g)), Emitted(req, g, formatFloat32).value)]
  {
    forall f | f != g
      ensures FieldWrites(fields, req, f, formatFloat32) == []
    {
    }
    OptionalWritesOfOne(fields, req, g, formatFloat32);
  }

  /** A decoded request with no optional field set yields exactly one header: the model. */
  lemma OnlyModelHeader(fields: map<string, string>, data: seq<Byte>, full: Decoded<ChatCompletionRequest>,
                        modelOnly: Decoded<ModelOnlyRequest>, formatFloat32: Float32 -> string)
    requires |data| > 0 && |fields| > 0 && full.err.None?
    requires forall f :: Emitted(full.value, f, formatFloat32).None?
    ensures ApplyAll(map[], Writes(fields, data, full, modelOnly, formatFloat32))
         == map[HeaderName(fields, "model") := full.value.model]
  {
    NoOptionalWrites(fields, full.value, formatFloat32);
    assert Writes(fields, data, full, modelOnly, formatFloat32) == [Write(HeaderName(fields, "model"), full.value.model)];
  }

  /** A decoded request with exactly one optional field set yields exactly two headers. */
  lemma ModelAndOneHeader(fields: map<string, string>, data: seq<Byte>, full: Decoded<ChatCompletionRequest>,
                          modelOnly: Decoded<ModelOnlyRequest>, g: OptionalField, formatFloat32: Float32 -> string)
    requires |data| > 0 && |fields| > 0 && full.err.None?
    requires Emitted(full.value, g, formatFloat32).Some?
    requires forall f :: f != g ==> Emitted(full.value, f, formatFloat32).None?
    ensures ApplyAll(map[], Writes(fields, data, full, modelOnly, formatFloat32))
         == map[HeaderName(fields, "model") := full.value.model,
                HeaderName(fields, Key(g)) := Emitted(full.value, g, formatFloat32).value]
  {
    OneOptionalWrite(fields, full.value, g, formatFloat32);
    var ws := Writes(fields, data, full, modelOnly, formatFloat32);
    var second := Write(HeaderName(fields, Key(g)), Emitted(full.value, g, formatFloat32).value);
    var first := Write(HeaderName(fields, "model"), full.value.model);
    assert DecodeWrites(fields, full, modelOnly) == [first];
    assert ws == [first, second];
    assert ws[..1] == [first];
    assert ApplyAll(map[], [first]) == map[first.name := first.value];
    assert ApplyAll(map[], ws) == ApplyAll(map[], ws[..1])[second.name := second.value];
  }

  /** When both decodes fail on a request with no optional field, the only header left is
      the diagnostic, reading "Unknown model". */
  lemma OnlyUnknownModel(fields: map<string, string>, data: seq<Byte>, full: Decoded<ChatCompletionRequest>,
                         modelOnly: Decoded<ModelOnlyRequest>, formatFloat32: Float32 -> string)
    requires |data| > 0 && |fields| > 0 && full.err.Some? && modelOnly.err.Some?
    requires forall f :: Emitted(full.value, f, formatFloat32).None?
    ensures ApplyAll(map[], Writes(fields, data, full, modelOnly, formatFloat32))
         == map[ParseFailureHeader := "Unknown model"]
  {
    NoOptionalWrites(fields, full.value, formatFloat32);
    var ws := Writes(fields, data, full, modelOnly, formatFloat32);
    assert ws == [Write(ParseFailureHeader, full.err.value), Write(ParseFailureHeader, "Unknown model")];
    assert ApplyAll(map[], ws) == ApplyAll(map[], ws[..1])[ParseFailureHeader := "Unknown model"];
  }

  /** `{"model": "test"}` with the default table: the model header and nothing else. */
  lemma ModelBodyScenario(data: seq<Byte>, modelOnly: Decoded<ModelOnlyRequest>, formatFloat32: Float32 -> string)
    requires |data| > 0
    ensures var full := Decoded(EmptyRequest.(model := "test"), None);
      ApplyAll(map[], Writes(DefaultRequestFields(), data, full, modelOnly, formatFloat32))
        == map["X-OpenAI-Model" := "test"]
  {
    var full := Decoded(EmptyRequest.(model := "test"), None);
    assert forall f :: Emitted(full.value, f, formatFloat32).None?;
    DefaultNames();
    DefaultsHaveElevenEntries();
    OnlyModelHeader(DefaultRequestFields(), data, full, modelOnly, formatFloat32);
  }

  /** Text that is not JSON, with the default table: both decodes fail, so the diagnostic
      header reads "Unknown model" and nothing else is set. */
  lemma NonJsonScenario(data: seq<Byte>, e1: string, e2: string, formatFloat32: Float32 -> string)
    requires |data| > 0
    ensures var full := Decoded(EmptyRequest, Some(e1));
      ApplyAll(map[], Writes(DefaultRequestFields(), data, full, Decoded(ModelOnlyRequest(""), Some(e2)), formatFloat32))
        == map[ParseFailureHeader := "Unknown model"]
  {
    var full := Decoded(EmptyRequest, Some(e1));
    assert forall f :: Emitted(full.value, f, formatFloat32).None?;
    DefaultNames();
    DefaultsHaveElevenEntries();
    OnlyUnknownModel(DefaultRequestFields(), data, full, Decoded(ModelOnlyRequest(""), Some(e2)), formatFloat32);
  }

  /** An object-valued `tool_choice`, with the default table: the model header is set,
      the tool-choice header is not. */
  lemma ToolChoiceObjectScenario(data: seq<Byte>, modelOnly: Decoded<ModelOnlyRequest>, formatFloat32: Float32 -> string)
    requires |data| > 0
    ensures var full := Decoded(EmptyRequest.(model := "gpt-4.1", toolChoice := Structured), None);
      ApplyAll(map[], Writes(DefaultRequestFields(), data, full, modelOnly, formatFloat32))
        == map["X-OpenAI-Model" := "gpt-4.1"]
  {
    var full := Decoded(EmptyRequest.(model := "gpt-4.1", toolChoice := Structured), None);
    assert forall f :: Emitted(full.value, f, formatFloat32).None?;
    DefaultNames();
    DefaultsHaveElevenEntries();
    OnlyModelHeader(DefaultRequestFields(), data, full, modelOnly, formatFloat32);
  }

  /** `"logprobs": null, "top_logprobs": 2`, with the default table: a null pointer writes
      nothing, the present one writes its decimal value. */
  lemma NullLogprobsScenario(data: seq<Byte>, modelOnly: Decoded<ModelOnlyRequest>, formatFloat32: Float32 -> string)
    requires |data| > 0
    ensures var full := Decoded(EmptyRequest.(model := "gpt-4.1", topLogprobs := Some(2)), None);
      ApplyAll(map[], Writes(DefaultRequestFields(), data, full, modelOnly, formatFloat32))
        == map["X-OpenAI-Model" := "gpt-4.1", "X-OpenAI-Top-Logprobs" := "2"]
  {
    var full := Decoded(EmptyRequest.(model := "gpt-4.1", topLogprobs := Some(2)), None);
    assert forall f :: f != TopLogprobs ==> Emitted(full.value, f, formatFloat32).None?;
    assert FormatInt(2) == "2";
    assert Emitted(full.value, TopLogprobs, formatFloat32) == Some("2");
    DefaultNames();
    DefaultsHaveElevenEntries();
    ModelAndOneHeader(DefaultRequestFields(), data, full, modelOnly, TopLogprobs, formatFloat32);
  }

  /** `"presence_penalty": 0.0`, with the default table: a present zero is still written. */
  lemma ZeroPenaltyScenario(data: seq<Byte>, modelOnly: Decoded<ModelOnlyRequest>, formatFloat32: Float32 -> string)
    requires |data| > 0
    ensures var full := Decoded(EmptyRequest.(model := "deepseek-r1-0528", presencePenalty := Some(0)), None);
      ApplyAll(map[], Writes(DefaultRequestFields(), data, full, modelOnly, formatFloat32))
        == map["X-OpenAI-Model" := "deepseek-r1-0528", "X-OpenAI-Presence-Penalty" := formatFloat32(0)]
  {
    var full := Decoded(EmptyRequest.(model := "deepseek-r1-0528", presencePenalty := Some(0)), None);
    assert forall f :: f != PresencePenalty ==> Emitted(full.value, f, formatFloat32).None?;
    assert Emitted(full.value, PresencePenalty, formatFloat32) == Some(formatFloat32(0));
    DefaultNames();
    DefaultsHaveElevenEntries();
    ModelAndOneHeader(DefaultRequestFields(), data, full, modelOnly, PresencePenalty, formatFloat32);
  }
}
