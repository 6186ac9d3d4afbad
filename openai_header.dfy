/**
 * The middleware: its configuration, the decision of which headers a matched POST
 * request receives, and the handler that applies them, replays the body and
 * forwards the request.
 */
module OpenAIHeader {
  import opened Wrappers
  import opened Headers
  import opened Format
  import opened Payload
  import opened Http

  // ---------------------------------------------------------------------------
  // Configuration
  // ---------------------------------------------------------------------------

  /** The plugin configuration. `requestFields` maps a logical field name to the
      `%v` rendering of the header name configured for it. */
  datatype Config = Config(requestFields: map<string, string>, requestUriRegex: string)

  const DefaultRegex := "/v1/chat/completions"

  /** The eleven logical field names the handler looks up. */
  const LogicalKeys: set<string> := {
    "model", "frequency_penalty", "user", "temperature", "top_p", "max_completion_tokens",
    "presence_penalty", "logprobs", "top_logprobs", "tool_choice", "stream" }

  /** The header that carries every inspection failure. */
  const ParseFailureHeader := "X-OpenAI-Parse-Failure"

  /** The default logical-field-to-header table: it names exactly the eleven logical
      fields. */
  function DefaultRequestFields(): (m: map<string, string>)
    ensures m.Keys == LogicalKeys
  {
    map[
      "model" := "X-OpenAI-Model",
      "frequency_penalty" := "X-OpenAI-Frequency-Penalty",
      "user" := "X-OpenAI-User",
      "temperature" := "X-OpenAI-Temperature",
      "top_p" := "X-OpenAI-Top-P",
      "max_completion_tokens" := "X-OpenAI-Max-Completion-Tokens",
      "presence_penalty" := "X-OpenAI-Presence-Penalty",
      "logprobs" := "X-OpenAI-Logprobs",
      "top_logprobs" := "X-OpenAI-Top-Logprobs",
      "tool_choice" := "X-OpenAI-Tool-Choice",
      "stream" := "X-OpenAI-Stream"]
  }

  /** `CreateConfig`: builds the default table one insertion at a time. */
  method CreateConfig() returns (c: Config)
    ensures c.requestFields == DefaultRequestFields()
    ensures c.requestUriRegex == "/v1/chat/completions"
  {
    var fields: map<string, string> := map[];
    fields := fields["model" := "X-OpenAI-Model"];
    fields := fields["frequency_penalty" := "X-OpenAI-Frequency-Penalty"];
    fields := fields["user" := "X-OpenAI-User"];
    fields := fields["temperature" := "X-OpenAI-Temperature"];
    fields := fields["top_p" := "X-OpenAI-Top-P"];
    fields := fields["max_completion_tokens" := "X-OpenAI-Max-Completion-Tokens"];
    fields := fields["presence_penalty" := "X-OpenAI-Presence-Penalty"];
    fields := fields["logprobs" := "X-OpenAI-Logprobs"];
    fields := fields["top_logprobs" := "X-OpenAI-Top-Logprobs"];
    fields := fields["tool_choice" := "X-OpenAI-Tool-Choice"];
    fields := fields["stream" := "X-OpenAI-Stream"];
    c := Config(fields, DefaultRegex);
  }

  /** `fmt.Sprintf("%v", requestFields[key])`: a missing key reads as a nil interface,
      which renders as "<nil>". */
  function HeaderName(fields: map<string, string>, key: string): string
  {
    if key in fields then fields[key] else "<nil>"
  }

  // ---------------------------------------------------------------------------
  // Which headers a matched POST request receives
  // ---------------------------------------------------------------------------

  /** The ten optional fields, one per presence-guarded `Set` of the handler. */
  datatype OptionalField =
    | User | Temperature | MaxCompletionTokens | Logprobs | TopLogprobs
    | ToolChoice | FrequencyPenalty | PresencePenalty | TopP | Stream

  /** The logical name an optional field is looked up under. */
  function Key(f: OptionalField): (k: string)
    ensures k in LogicalKeys && k != "model"
  {
    match f
    case User => "user"
    case Temperature => "temperature"
    case MaxCompletionTokens => "max_completion_tokens"
    case Logprobs => "logprobs"
    case TopLogprobs => "top_logprobs"
    case ToolChoice => "tool_choice"
    case FrequencyPenalty => "frequency_penalty"
    case PresencePenalty => "presence_penalty"
    case TopP => "top_p"
    case Stream => "stream"
  }

  /** The header names the table yields for the model and for each optional field (a
      missing key yields "<nil>") differ from the diagnostic header, and no optional
      field shares the model's header. */
  ghost predicate SeparateNames(fields: map<string, string>)
  {
    && HeaderName(fields, "model") != ParseFailureHeader
    && (forall f :: HeaderName(fields, Key(f)) != ParseFailureHeader
                 && HeaderName(fields, Key(f)) != HeaderName(fields, "model"))
  }

  /** Moreover the optional fields' header names are pairwise distinct, so no write can
      clobber another field's. */
  ghost predicate DistinctNames(fields: map<string, string>)
  {
    && SeparateNames(fields)
    && (forall f, g :: f != g ==> HeaderName(fields, Key(f)) != HeaderName(fields, Key(g)))
  }

  /** `name` is the header name the table yields for some optional field. */
  ghost predicate IsFieldHeader(fields: map<string, string>, name: string)
  {
    exists f :: name == HeaderName(fields, Key(f))
  }

  function FloatText(v: Option<Float32>, formatFloat32: Float32 -> string): Option<string>
  {
    match v
    case None => None
    case Some(x) => Some(formatFloat32(x))
  }

  /** The text of an optional Go int: present exactly when the int is, and it reads
      back to the int. */
  function IntText(v: Option<Int64>): (r: Option<string>)
    ensures r.Some? <==> v.Some?
    ensures r.Some? ==> IsIntText(r.value) && ParseInt(r.value) == v.value as int
  {
    match v
    case None => None
    case Some(x) =>
      ParseFormatInt(x as int);
      Some(FormatInt(x as int))
  }

  /** The value written for an optional field of a decoded request, if any: a pointer
      field when it is non-nil, `user` when it is not empty, `tool_choice` when it
      holds a string. */
  function Emitted(req: ChatCompletionRequest, f: OptionalField, formatFloat32: Float32 -> string): Option<string>
  {
    match f
    case User => if req.user != "" then Some(req.user) else None
    case Temperature => FloatText(req.temperature, formatFloat32)
    case MaxCompletionTokens => FloatText(req.maxCompletionTokens, formatFloat32)
    case Logprobs => IntText(req.logprobs)
    case TopLogprobs => IntText(req.topLogprobs)
    case ToolChoice => if req.toolChoice.Text? then Some(req.toolChoice.s) else None
    case FrequencyPenalty => FloatText(req.frequencyPenalty, formatFloat32)
    case PresencePenalty => FloatText(req.presencePenalty, formatFloat32)
    case TopP => FloatText(req.topP, formatFloat32)
    case Stream => if req.stream.Some? then Some(FormatBool(req.stream.value)) else None
  }

  /** The write for one optional field: none, or one under its configured name. */
  function FieldWrites(fields: map<string, string>, req: ChatCompletionRequest, f: OptionalField,
                       formatFloat32: Float32 -> string): (ws: seq<Write>)
    ensures |ws| <= 1
    ensures |ws| == 1 <==> Emitted(req, f, formatFloat32).Some?
    ensures |ws| == 1 ==> ws[0].name == HeaderName(fields, Key(f))
  {
    match Emitted(req, f, formatFloat32)
    case None => []
    case Some(v) => [Write(HeaderName(fields, Key(f)), v)]
  }

  /** The writes for the ten optional fields, in the order the handler checks them. */
  function OptionalWrites(fields: map<string, string>, req: ChatCompletionRequest,
                          formatFloat32: Float32 -> string): (ws: seq<Write>)
    ensures |ws| <= 10
  {
    FieldWrites(fields, req, User, formatFloat32)
    + FieldWrites(fields, req, Temperature, formatFloat32)
    + FieldWrites(fields, req, MaxCompletionTokens, formatFloat32)
    + FieldWrites(fields, req, Logprobs, formatFloat32)
    + FieldWrites(fields, req, TopLogprobs, formatFloat32)
    + FieldWrites(fields, req, ToolChoice, formatFloat32)
    + FieldWrites(fields, req, FrequencyPenalty, formatFloat32)
    + FieldWrites(fields, req, PresencePenalty, formatFloat32)
    + FieldWrites(fields, req, TopP, formatFloat32)
    + FieldWrites(fields, req, Stream, formatFloat32)
  }

  /** The writes that report the decode outcome: the model header after a full decode;
      after a failed one, the error text, then either the model of the partially
      filled full record or "Unknown model" when the model-only decode fails too. */
  function DecodeWrites(fields: map<string, string>, full: Decoded<ChatCompletionRequest>,
                        modelOnly: Decoded<ModelOnlyRequest>): (ws: seq<Write>)
    ensures 1 <= |ws| <= 2
    ensures ws[0].name == ParseFailureHeader || ws[0].name == HeaderName(fields, "model")
    ensures ws[|ws| - 1].name == ParseFailureHeader || ws[|ws| - 1].name == HeaderName(fields, "model")
    ensures full.err.Some? ==> ws[0] == Write(ParseFailureHeader, full.err.value)
  {
    var modelWrite := Write(HeaderName(fields, "model"), full.value.model);
    if full.err.Some? then
      [Write(ParseFailureHeader, full.err.value)]
      + (if modelOnly.err.Some? then [Write(ParseFailureHeader, "Unknown model")] else [modelWrite])
    else
      [modelWrite]
  }

  /** Every `Set` the handler performs on a matched POST request whose body yielded
      `data`, in order. */
  function Writes(fields: map<string, string>, data: seq<Byte>, full: Decoded<ChatCompletionRequest>,
                  modelOnly: Decoded<ModelOnlyRequest>, formatFloat32: Float32 -> string): (ws: seq<Write>)
    ensures |ws| <= 12
    ensures |fields| == 0 ==> |ws| <= 1
  {
    (if |data| < 1 then [Write(ParseFailureHeader, "empty body")] else [])
    + (if |data| > 0 && |fields| > 0
       then DecodeWrites(fields, full, modelOnly) + OptionalWrites(fields, full.value, formatFloat32)
       else [])
  }

  // ---------------------------------------------------------------------------
  // The handler
  // ---------------------------------------------------------------------------

  /** The code the handler calls but that is not part of this model: the regular
      expression engine (`None` when the pattern does not compile), the two JSON
      decodes of the body, and the `%v` rendering of a `float32`. */
  datatype Foreign = Foreign(
    matchString: (string, string) -> Option<bool>,
    unmarshalFull: seq<Byte> -> Decoded<ChatCompletionRequest>,
    unmarshalModelOnly: seq<Byte> -> Decoded<ModelOnlyRequest>,
    formatFloat32: Float32 -> string)

  /** Whether a request is inspected: the pattern matches the request URI (a pattern
      error counts as no match) and the method is POST. */
  function Inspected(ffi: Foreign, regex: string, r: Request): (b: bool)
    reads r
    ensures b ==> r.httpMethod == "POST"
    ensures ffi.matchString(regex, r.requestUri).None? ==> !b
  {
    ffi.matchString(regex, r.requestUri) == Some(true) && r.httpMethod == "POST"
  }

  class Handler {
    const name: string
    const next: Downstream
    const requestFields: map<string, string>
    const requestUriRegex: string

    /** `New`: a nil configuration means the defaults. */
    constructor New(next: Downstream, config: Option<Config>, name: string)
      ensures this.next == next && this.name == name
      ensures config.Some? ==>
        requestFields == config.value.requestFields && requestUriRegex == config.value.requestUriRegex
      ensures config.None? ==> requestFields == DefaultRequestFields() && requestUriRegex == DefaultRegex
    {
      var c: Config;
      if config.None? {
        c := CreateConfig();
      } else {
        c := config.value;
      }
      this.name := name;
      this.next := next;
      this.requestFields := c.requestFields;
      this.requestUriRegex := c.requestUriRegex;
    }

    method ServeHTTP(w: ResponseWriter, r: Request, ffi: Foreign)
      modifies w, r, r.header, next
      // an inspected request gets exactly the planned writes and a fresh reader over the bytes read
      ensures Inspected(ffi, requestUriRegex, r) ==>
        var data := old(r.body).data;
        && r.header.entries == ApplyAll(old(r.header.entries),
             Writes(requestFields, data, ffi.unmarshalFull(data), ffi.unmarshalModelOnly(data), ffi.formatFloat32))
        && r.body == ReaderOver(data)
        && w.status == (if old(r.body).failure.Some? && old(w.status).None? then Some(500) else old(w.status))
        && w.text == (if old(r.body).failure.Some? then old(w.text) + old(r.body).failure.value + "\n" else old(w.text))
      // any other request is left exactly as it was
      ensures !Inspected(ffi, requestUriRegex, r) ==>
        && r.header.entries == old(r.header.entries)
        && r.body == old(r.body)
        && w.status == old(w.status) && w.text == old(w.text)
      // in every case the next handler is called once, with the request as it now is
      ensures next.seen == old(next.seen) + [Snapshot(r.header.entries, r.body)]
    {
      var matched := ffi.matchString(requestUriRegex, r.requestUri);
      if matched == Some(true) && r.httpMethod == "POST" {
        var data, err := r.ReadAll();
        if err.Some? {
          w.Error(err.value, 500);
        }
        SetHeaders(r.header, data, ffi);
        r.body := ReaderOver(data);
      }

      next.ServeHTTP(w, r);
    }

    /** The header-setting part of an inspected request: the empty-body diagnostic, or
        the decode step followed by the optional fields. */
    method SetHeaders(header: Header, data: seq<Byte>, ffi: Foreign)
      modifies header
      ensures header.entries == ApplyAll(old(header.entries),
                Writes(requestFields, data, ffi.unmarshalFull(data), ffi.unmarshalModelOnly(data), ffi.formatFloat32))
    {
      ghost var h0 := header.entries;
      if |data| < 1 {
        header.Set(ParseFailureHeader, "empty body");
      }
      ghost var h1 := header.entries;

      if |data| > 0 && |requestFields| > 0 {
        var full := ffi.unmarshalFull(data);
        SetDecodeOutcome(header, data, full, ffi);
        SetOptionalFields(header, full.value, ffi.formatFloat32);
        ApplyAllAppend(h1, DecodeWrites(requestFields, full, ffi.unmarshalModelOnly(data)),
                       OptionalWrites(requestFields, full.value, ffi.formatFloat32));
      }
      ghost var ws := Writes(requestFields, data, ffi.unmarshalFull(data), ffi.unmarshalModelOnly(data), ffi.formatFloat32);
      ghost var empty := if |data| < 1 then [Write(ParseFailureHeader, "empty body")] else [];
      assert ApplyAll(h0, empty) == h1;
      ApplyAllAppend(h0, empty, ws[|empty|..]);
      assert empty + ws[|empty|..] == ws;
    }

    /** The decode step: the model header after a full decode; otherwise the error
        text, then the model-only fallback. */
    method SetDecodeOutcome(header: Header, data: seq<Byte>, full: Decoded<ChatCompletionRequest>, ffi: Foreign)
      modifies header
      ensures header.entries == ApplyAll(old(header.entries),
                DecodeWrites(requestFields, full, ffi.unmarshalModelOnly(data)))
    {
      var request := full.value;
      var modelName := HeaderName(requestFields, "model");
      if full.err.Some? {
        ghost var h0 := header.entries;
        header.Set(ParseFailureHeader, full.err.value);
        var modelOnly := ffi.unmarshalModelOnly(data);
        if modelOnly.err.Some? {
          header.Set(ParseFailureHeader, "Unknown model");
        } else {
          header.Set(modelName, request.model);
        }
        ghost var failure := [Write(ParseFailureHeader, full.err.value)];
        ApplyAllAppend(h0, failure, DecodeWrites(requestFields, full, modelOnly)[1..]);
      } else {
        header.Set(modelName, request.model);
      }
    }

    /** The ten presence-guarded writes, in source order. */
    method SetOptionalFields(header: Header, request: ChatCompletionRequest, formatFloat32: Float32 -> string)
      modifies header
      ensures header.entries == ApplyAll(old(header.entries),
                OptionalWrites(requestFields, request, formatFloat32))
    {
      ghost var h0 := header.entries;
      SetField(header, request, User, formatFloat32);
      SetField(header, request, Temperature, formatFloat32);
      SetField(header, request, MaxCompletionTokens, formatFloat32);
      SetField(header, request, Logprobs, formatFloat32);
      SetField(header, request, TopLogprobs, formatFloat32);
      SetField(header, request, ToolChoice, formatFloat32);
      SetField(header, request, FrequencyPenalty, formatFloat32);
      SetField(header, request, PresencePenalty, formatFloat32);
      SetField(header, request, TopP, formatFloat32);
      SetField(header, request, Stream, formatFloat32);
      OptionalWritesStepwise(h0, requestFields, request, formatFloat32);
    }

    /** One presence-guarded write: a non-nil pointer, a non-empty `user`, or a string
        `tool_choice` is rendered and set under the field's configured header name. */
    method SetField(header: Header, request: ChatCompletionRequest, f: OptionalField, formatFloat32: Float32 -> string)
      modifies header
      ensures header.entries == ApplyAll(old(header.entries), FieldWrites(requestFields, request, f, formatFloat32))
    {
      match f
      case User =>
        if request.user != "" {
          header.Set(HeaderName(requestFields, "user"), request.user);
        }
      case Temperature =>
        if request.temperature.Some? {
          header.Set(HeaderName(requestFields, "temperature"), formatFloat32(request.temperature.value));
        }
      case MaxCompletionTokens =>
        if request.maxCompletionTokens.Some? {
          header.Set(HeaderName(requestFields, "max_completion_tokens"), formatFloat32(request.maxCompletionTokens.value));
        }
      case Logprobs =>
        if request.logprobs.Some? {
          header.Set(HeaderName(requestFields, "logprobs"), FormatInt(request.logprobs.value as int));
        }
      case TopLogprobs =>
        if request.topLogprobs.Some? {
          header.Set(HeaderName(requestFields, "top_logprobs"), FormatInt(request.topLogprobs.value as int));
        }
      case ToolChoice =>
        if request.toolChoice.Text? {
          header.Set(HeaderName(requestFields, "tool_choice"), request.toolChoice.s);
        }
      case FrequencyPenalty =>
        if request.frequencyPenalty.Some? {
          header.Set(HeaderName(requestFields, "frequency_penalty"), formatFloat32(request.frequencyPenalty.value));
        }
      case PresencePenalty =>
        if request.presencePenalty.Some? {
          header.Set(HeaderName(requestFields, "presence_penalty"), formatFloat32(request.presencePenalty.value));
        }
      case TopP =>
        if request.topP.Some? {
          header.Set(HeaderName(requestFields, "top_p"), formatFloat32(request.topP.value));
        }
      case Stream =>
        if request.stream.Some? {
          header.Set(HeaderName(requestFields, "stream"), FormatBool(request.stream.value));
        }
    }
  }

  /** Performing the optional writes at once is performing them field by field. */
  lemma OptionalWritesStepwise(h0: map<string, string>, fields: map<string, string>, req: ChatCompletionRequest,
                               formatFloat32: Float32 -> string)
    ensures var step := (h: map<string, string>, f: OptionalField) => ApplyAll(h, FieldWrites(fields, req, f, formatFloat32));
      ApplyAll(h0, OptionalWrites(fields, req, formatFloat32)) ==
        step(step(step(step(step(step(step(step(step(step(h0,
          User), Temperature), MaxCompletionTokens), Logprobs), TopLogprobs),
          ToolChoice), FrequencyPenalty), PresencePenalty), TopP), Stream)
  {
    var fw := (f: OptionalField) => FieldWrites(fields, req, f, formatFloat32);
    var prefix := fw(User);
    ApplyAllAppend(h0, prefix, fw(Temperature));
    prefix := prefix + fw(Temperature);
    ApplyAllAppend(h0, prefix, fw(MaxCompletionTokens));
    prefix := prefix + fw(MaxCompletionTokens);
    ApplyAllAppend(h0, prefix, fw(Logprobs));
    prefix := prefix + fw(Logprobs);
    ApplyAllAppend(h0, prefix, fw(TopLogprobs));
    prefix := prefix + fw(TopLogprobs);
    ApplyAllAppend(h0, prefix, fw(ToolChoice));
    prefix := prefix + fw(ToolChoice);
    ApplyAllAppend(h0, prefix, fw(FrequencyPenalty));
    prefix := prefix + fw(FrequencyPenalty);
    ApplyAllAppend(h0, prefix, fw(PresencePenalty));
    prefix := prefix + fw(PresencePenalty);
    ApplyAllAppend(h0, prefix, fw(TopP));
    prefix := prefix + fw(TopP);
    ApplyAllAppend(h0, prefix, fw(Stream));
  }
}
