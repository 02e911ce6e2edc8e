/** Applying a model-switch request to the local AI server's configuration
    (local_ai_server/control_plane.py). A request is a JSON object; the configuration
    record is immutable and every accepted key produces a new record and one entry of
    the change log. */
module ControlPlane {
  import opened Wrappers
  import opened Text

  // ===========================================================================
  // Python values and the operations the request handler applies to them

  /** A JSON scalar as Python sees it after decoding. */
  datatype Value = Null | Bool(b: bool) | Int(i: int) | Str(s: string)

  /** The exceptions the handler lets escape: `.strip()` on a non-string
      (AttributeError) and `os.path.basename` on a non-string (TypeError). */
  datatype PyError = AttributeError | TypeError

  /** Python truthiness. */
  predicate Truthy(v: Value)
  {
    match v
    case Null => false
    case Bool(b) => b
    case Int(i) => i != 0
    case Str(s) => s != ""
  }

  /** `(v or default).strip()`; `default` is already stripped. */
  function StripOr(v: Value, default: string): (r: Result<string, PyError>)
    ensures r.Success? <==> !Truthy(v) || v.Str?
    ensures r.Success? && v.Str? && Truthy(v) ==> |r.value| <= |v.s|
  {
    if !Truthy(v) then Success(default)
    else if v.Str? then Success(Strip(v.s))
    else Failure(AttributeError)
  }

  /** `(v or default).strip().lower()`; `default` is already stripped and lower-case. */
  function NormalizeOr(v: Value, default: string): (r: Result<string, PyError>)
    ensures r.Success? <==> StripOr(v, default).Success?
  {
    if !Truthy(v) then Success(default)
    else if v.Str? then Success(Lower(Strip(v.s)))
    else Failure(AttributeError)
  }

  /** The f-string rendering `f"{v}"`. */
  function Format(v: Value): string
  {
    match v
    case Null => "None"
    case Bool(b) => if b then "True" else "False"
    case Int(i) => IntToString(i)
    case Str(s) => s
  }

  /** Python `int(v)`; `None` where it raises (the handler catches that). */
  function ToInt(v: Value): Option<int>
  {
    match v
    case Null => None
    case Bool(b) => Some(if b then 1 else 0)
    case Int(i) => Some(i)
    case Str(s) => ParseInt(s)
  }

  const TrueWords: set<string> := {"1", "true", "yes", "y", "on"}

  /** The `kroko_embedded` flag a request value stands for. */
  function EmbeddedFlag(v: Value): bool
  {
    if v.Str? then Lower(Strip(v.s)) in TrueWords else Truthy(v)
  }

  const SttBackends: set<string> := {"vosk", "sherpa", "kroko", "faster_whisper"}
  const TtsBackends: set<string> := {"piper", "kokoro", "melotts"}

  // ===========================================================================
  // Configuration record and change log

  /** The fields of `LocalAIConfig` a switch request can change. */
  datatype LocalAIConfig = LocalAIConfig(
    sttBackend: string,
    sttModelPath: string,
    sherpaModelPath: string,
    krokoModelPath: string,
    krokoLanguage: Value,
    krokoUrl: Value,
    krokoPort: int,
    krokoEmbedded: bool,
    llmModelPath: string,
    ttsBackend: string,
    ttsModelPath: string,
    kokoroModelPath: string,
    kokoroVoice: Value,
    kokoroMode: string,
    kokoroApiBaseUrl: string,
    kokoroApiKey: string,
    kokoroApiModel: string)

  /** The field named at the head of a change-log entry. */
  datatype Field =
    | SttBackendField | SttModelPathField | SherpaModelPathField | KrokoModelPathField
    | KrokoLanguageField | KrokoUrlField | KrokoPortField | KrokoEmbeddedField
    | LlmModelPathField | TtsBackendField | TtsModelPathField | KokoroModelPathField
    | KokoroVoiceField | KokoroModeField | KokoroApiBaseUrlField | KokoroApiKeyField
    | KokoroApiModelField
  {
    /** Fields whose values are filesystem paths; their log entries show the file name. */
    predicate IsPath()
    {
      this in {SttModelPathField, SherpaModelPathField, KrokoModelPathField, LlmModelPathField,
               TtsModelPathField, KokoroModelPathField}
    }

    /** Fields that may carry credentials or endpoints; their log entries hide the value. */
    predicate IsSecret()
    {
      this in {KrokoUrlField, KokoroApiBaseUrlField, KokoroApiKeyField}
    }

    function Name(): string
    {
      match this
      case SttBackendField => "stt_backend"
      case SttModelPathField => "stt_model_path"
      case SherpaModelPathField => "sherpa_model_path"
      case KrokoModelPathField => "kroko_model_path"
      case KrokoLanguageField => "kroko_language"
      case KrokoUrlField => "kroko_url"
      case KrokoPortField => "kroko_port"
      case KrokoEmbeddedField => "kroko_embedded"
      case LlmModelPathField => "llm_model_path"
      case TtsBackendField => "tts_backend"
      case TtsModelPathField => "tts_model_path"
      case KokoroModelPathField => "kokoro_model_path"
      case KokoroVoiceField => "kokoro_voice"
      case KokoroModeField => "kokoro_mode"
      case KokoroApiBaseUrlField => "kokoro_api_base_url"
      case KokoroApiKeyField => "kokoro_api_key"
      case KokoroApiModelField => "kokoro_api_model"
    }
  }

  /** One entry of the change log, printed as `name=text`. */
  datatype Change = Change(field: Field, text: string)

  function Render(c: Change): (line: string)
    ensures StartsWith(line, c.field.Name() + "=") && EndsWith(line, c.text)
  {
    c.field.Name() + "=" + c.text
  }

  /** A log line can be read back: up to its first '=' it is the field's name, and
      after it the entry's text. */
  lemma RenderReadBack(c: Change)
    ensures var line := Render(c);
      && '=' in line && IndexOf(line, '=') == |c.field.Name()|
      && line[..IndexOf(line, '=')] == c.field.Name() && line[IndexOf(line, '=') + 1..] == c.text
  {
    NameHasNoEquals(c.field);
    FirstSeparator(c.field.Name(), '=', c.text);
  }

  lemma NameHasNoEquals(f: Field)
    ensures '=' !in f.Name()
  {
    match f
    case SttBackendField =>
    case SttModelPathField =>
    case SherpaModelPathField =>
    case KrokoModelPathField =>
    case KrokoLanguageField =>
    case KrokoUrlField =>
    case KrokoPortField =>
    case KrokoEmbeddedField =>
    case LlmModelPathField =>
    case TtsBackendField =>
    case TtsModelPathField =>
    case KokoroModelPathField =>
    case KokoroVoiceField =>
    case KokoroModeField =>
    case KokoroApiBaseUrlField =>
    case KokoroApiKeyField =>
    case KokoroApiModelField =>
  }

  /** The list of strings the handler returns as `changed`, built by appending one
      rendered entry per change. */
  function ChangedList(changes: seq<Change>): (r: seq<string>)
    ensures |r| == |changes|
    ensures forall i :: 0 <= i < |r| ==> r[i] == Render(changes[i])
  {
    if changes == [] then [] else [Render(changes[0])] + ChangedList(changes[1..])
  }

  /** Each returned string reads back as the change it reports: the field's name up to
      the first '=', the entry's text after it. */
  lemma ChangedReadBack(changes: seq<Change>, i: int)
    requires 0 <= i < |changes|
    ensures var line := ChangedList(changes)[i];
      && '=' in line && line[..IndexOf(line, '=')] == changes[i].field.Name()
      && line[IndexOf(line, '=') + 1..] == changes[i].text
  {
    var line := ChangedList(changes)[i];
    assert line == Render(changes[i]);
    RenderReadBack(changes[i]);
  }

  /** The new configuration and its change log. */
  datatype Switched = Switched(config: LocalAIConfig, changes: seq<Change>)

  // ===========================================================================
  // The request and the entries it accounts for

  /** The backend name a request asks for under `key`, when it is one of `names`. */
  function AcceptedName(data: map<Field, Value>, key: Field, names: set<string>): Option<string>
  {
    if key !in data then None
    else
      var name := NormalizeOr(data[key], "");
      if name.Success? && name.value in names then Some(name.value) else None
  }

  /** The backend in force after a request: the accepted name, or the current backend. */
  function BackendAfter(data: map<Field, Value>, key: Field, names: set<string>, current: string): (r: string)
    ensures r == current || r in names
    ensures key !in data ==> r == current
  {
    if AcceptedName(data, key, names).Some? then AcceptedName(data, key, names).value else current
  }

  /** The conversions the speech-to-text and LLM keys must survive: path keys need
      strings, and a backend name must be a string or a falsy value. */
  predicate SttAccepted(data: map<Field, Value>)
  {
    && (SttBackendField in data ==> StripOr(data[SttBackendField], "").Success?)
    && (SttModelPathField in data ==> data[SttModelPathField].Str?)
    && (SherpaModelPathField in data ==> data[SherpaModelPathField].Str?)
    && (KrokoModelPathField in data ==> data[KrokoModelPathField].Str?)
    && (LlmModelPathField in data ==> data[LlmModelPathField].Str?)
  }

  /** The conversions the text-to-speech keys must survive. */
  predicate TtsAccepted(data: map<Field, Value>)
  {
    && (TtsBackendField in data ==> StripOr(data[TtsBackendField], "").Success?)
    && (TtsModelPathField in data ==> data[TtsModelPathField].Str?)
    && (KokoroModeField in data ==> StripOr(data[KokoroModeField], "local").Success?)
    && (KokoroModelPathField in data ==> data[KokoroModelPathField].Str?)
    && (KokoroApiBaseUrlField in data ==> StripOr(data[KokoroApiBaseUrlField], "").Success?)
    && (KokoroApiKeyField in data ==> StripOr(data[KokoroApiKeyField], "").Success?)
    && (KokoroApiModelField in data ==> StripOr(data[KokoroApiModelField], "model").Success?)
  }

  /** The request is handled without an exception. */
  predicate Accepted(data: map<Field, Value>)
  {
    SttAccepted(data) && TtsAccepted(data)
  }

  /** A log entry the request accounts for: a backend entry names a whitelisted backend
      the request asked for, a port entry a port the request's value parses to, a
      secret-bearing entry says only `updated`, and a path entry shows no directory. */
  predicate Justified(c: Change, data: map<Field, Value>)
  {
    match c.field
    case SttBackendField => AcceptedName(data, SttBackendField, SttBackends) == Some(c.text)
    case TtsBackendField => AcceptedName(data, TtsBackendField, TtsBackends) == Some(c.text)
    case KrokoPortField =>
      KrokoPortField in data && ToInt(data[KrokoPortField]).Some?
      && c.text == IntToString(ToInt(data[KrokoPortField]).value)
    case KrokoUrlField => KrokoUrlField in data && c.text == "updated"
    case KokoroApiBaseUrlField => KokoroApiBaseUrlField in data && c.text == "updated"
    case KokoroApiKeyField => KokoroApiKeyField in data && c.text == "updated"
    case _ => c.field.IsPath() ==> '/' !in c.text
  }

  predicate AllJustified(log: seq<Change>, data: map<Field, Value>)
  {
    forall c | c in log :: Justified(c, data)
  }

  /** What a justified change log promises the reader: secret-bearing fields show only
      `updated`, backend entries name whitelisted backends, and path entries carry no
      directory. */
  lemma JustifiedLog(log: seq<Change>, data: map<Field, Value>)
    requires AllJustified(log, data)
    ensures forall c | c in log && c.field.IsSecret() :: Render(c) == c.field.Name() + "=updated"
    ensures forall c | c in log && c.field == SttBackendField :: c.text in SttBackends
    ensures forall c | c in log && c.field == TtsBackendField :: c.text in TtsBackends
    ensures forall c | c in log && c.field.IsPath() :: '/' !in c.text
  {
    forall c | c in log && c.field.IsSecret() ensures c.text == "updated" {
      assert Justified(c, data);
    }
  }

  lemma AppendJustified(log: seq<Change>, c: Change, data: map<Field, Value>)
    requires Justified(c, data)
    ensures AllJustified(log, data) ==> AllJustified(log + [c], data)
  {
  }

  // ===========================================================================
  // The change log a request produces, entry by entry in the handler's key order

  /** The entry of a path key: the target path field and the value's file name. */
  function PathEntry(data: map<Field, Value>, key: Field, target: Field): seq<Change>
  {
    if key in data && data[key].Str? then [Change(target, Basename(data[key].s))] else []
  }

  /** The entry of a backend key, present only for a whitelisted name. */
  function BackendEntry(data: map<Field, Value>, key: Field, names: set<string>): seq<Change>
  {
    if AcceptedName(data, key, names).Some? then [Change(key, AcceptedName(data, key, names).value)] else []
  }

  /** The path field `stt_model_path` is stored in under a speech-to-text backend. */
  function SttPathTarget(backend: string): Field
  {
    if backend == "sherpa" then SherpaModelPathField
    else if backend == "kroko" then KrokoModelPathField
    else SttModelPathField
  }

  /** The path field `tts_model_path` is stored in under a text-to-speech backend. */
  function TtsPathTarget(backend: string): Field
  {
    if backend == "piper" then TtsModelPathField else KokoroModelPathField
  }

  /** Entries of `stt_backend`, `stt_model_path`, `sherpa_model_path` and
      `kroko_model_path`, with `current` the speech-to-text backend before the request. */
  function SttLog(data: map<Field, Value>, current: string): seq<Change>
  {
    BackendEntry(data, SttBackendField, SttBackends)
    + PathEntry(data, SttModelPathField, SttPathTarget(BackendAfter(data, SttBackendField, SttBackends, current)))
    + PathEntry(data, SherpaModelPathField, SherpaModelPathField)
    + PathEntry(data, KrokoModelPathField, KrokoModelPathField)
  }

  /** The entry of a key logged with its value as Python formats it. */
  function FormatEntry(data: map<Field, Value>, key: Field): seq<Change>
  {
    if key in data then [Change(key, Format(data[key]))] else []
  }

  /** The entry of a key whose value the log hides behind "updated". */
  function UpdatedEntry(data: map<Field, Value>, key: Field): seq<Change>
  {
    if key in data then [Change(key, "updated")] else []
  }

  /** The entry of `kroko_port`, present only when `int()` accepts the value. */
  function PortEntry(data: map<Field, Value>): seq<Change>
  {
    if KrokoPortField in data && ToInt(data[KrokoPortField]).Some?
    then [Change(KrokoPortField, IntToString(ToInt(data[KrokoPortField]).value))] else []
  }

  /** The entry of `kroko_embedded`: "1" or "0" by the flag's truth. */
  function EmbeddedEntry(data: map<Field, Value>): seq<Change>
  {
    if KrokoEmbeddedField in data
    then [Change(KrokoEmbeddedField, if EmbeddedFlag(data[KrokoEmbeddedField]) then "1" else "0")] else []
  }

  /** The entry of `kokoro_mode`: the normalised mode, "local" for an empty value. */
  function ModeEntry(data: map<Field, Value>): seq<Change>
  {
    if KokoroModeField in data && NormalizeOr(data[KokoroModeField], "local").Success?
    then [Change(KokoroModeField, NormalizeOr(data[KokoroModeField], "local").value)] else []
  }

  /** The entry of `kokoro_api_model`: the stripped name, "model" for an empty value. */
  function ApiModelEntry(data: map<Field, Value>): seq<Change>
  {
    if KokoroApiModelField in data && StripOr(data[KokoroApiModelField], "model").Success?
    then [Change(KokoroApiModelField, StripOr(data[KokoroApiModelField], "model").value)] else []
  }

  /** Entries of `kroko_language`, `kroko_url`, `kroko_port`, `kroko_embedded` and
      `llm_model_path`. */
  function KrokoLog(data: map<Field, Value>): seq<Change>
  {
    FormatEntry(data, KrokoLanguageField) + UpdatedEntry(data, KrokoUrlField) + PortEntry(data)
    + EmbeddedEntry(data) + PathEntry(data, LlmModelPathField, LlmModelPathField)
  }

  /** Entries of `tts_backend` and `tts_model_path`, with `current` the text-to-speech
      backend before the request. */
  function TtsLog(data: map<Field, Value>, current: string): seq<Change>
  {
    BackendEntry(data, TtsBackendField, TtsBackends)
    + PathEntry(data, TtsModelPathField, TtsPathTarget(BackendAfter(data, TtsBackendField, TtsBackends, current)))
  }

  /** Entries of `kokoro_voice`, `kokoro_mode`, `kokoro_model_path` and the three Kokoro
      API keys. */
  function KokoroLog(data: map<Field, Value>): seq<Change>
  {
    FormatEntry(data, KokoroVoiceField) + ModeEntry(data)
    + PathEntry(data, KokoroModelPathField, KokoroModelPathField)
    + UpdatedEntry(data, KokoroApiBaseUrlField) + UpdatedEntry(data, KokoroApiKeyField) + ApiModelEntry(data)
  }

  /** The logs of the four stages, each appended to the one before, make the change log. */
  lemma StagedLog(config: LocalAIConfig, data: map<Field, Value>, stt: seq<Change>, kroko: seq<Change>,
                  tts: seq<Change>, kokoro: seq<Change>)
    requires stt == [] + SttLog(data, config.sttBackend)
    requires kroko == stt + KrokoLog(data)
    requires tts == kroko + TtsLog(data, config.ttsBackend)
    requires kokoro == tts + KokoroLog(data)
    ensures kokoro == ChangeLog(config, data)
  {
    assert stt == SttLog(data, config.sttBackend);
  }

  /** A request without keys logs nothing. */
  lemma EmptyRequestLogsNothing(config: LocalAIConfig)
    ensures ChangeLog(config, map[]) == []
  {
  }

  /** Appending to a log entry by entry is appending the entries at once. */
  lemma AppendTwice(log: seq<Change>, a: seq<Change>, b: seq<Change>)
    ensures log + a + b == log + (a + b)
  {
  }

  /** The whole change log of an accepted request against a configuration. */
  function ChangeLog(config: LocalAIConfig, data: map<Field, Value>): seq<Change>
  {
    SttLog(data, config.sttBackend) + KrokoLog(data) + TtsLog(data, config.ttsBackend) + KokoroLog(data)
  }

  // ===========================================================================
  // One step per key: each applies its key, when present, to the configuration and
  // log built so far

  function PathValue(config: LocalAIConfig, f: Field): string
    requires f.IsPath()
  {
    match f
    case SttModelPathField => config.sttModelPath
    case SherpaModelPathField => config.sherpaModelPath
    case KrokoModelPathField => config.krokoModelPath
    case LlmModelPathField => config.llmModelPath
    case TtsModelPathField => config.ttsModelPath
    case KokoroModelPathField => config.kokoroModelPath
  }

  /** `config` with the path field `f` set to `p`. */
  function WithPath(config: LocalAIConfig, f: Field, p: string): (r: LocalAIConfig)
    requires f.IsPath()
    ensures PathValue(r, f) == p
    ensures r.sttModelPath == if f == SttModelPathField then p else config.sttModelPath
    ensures r.sherpaModelPath == if f == SherpaModelPathField then p else config.sherpaModelPath
    ensures r.krokoModelPath == if f == KrokoModelPathField then p else config.krokoModelPath
    ensures r.llmModelPath == if f == LlmModelPathField then p else config.llmModelPath
    ensures r.ttsModelPath == if f == TtsModelPathField then p else config.ttsModelPath
    ensures r.kokoroModelPath == if f == KokoroModelPathField then p else config.kokoroModelPath
    ensures r.(sttModelPath := config.sttModelPath, sherpaModelPath := config.sherpaModelPath,
               krokoModelPath := config.krokoModelPath, llmModelPath := config.llmModelPath,
               ttsModelPath := config.ttsModelPath, kokoroModelPath := config.kokoroModelPath) == config
  {
    match f
    case SttModelPathField => config.(sttModelPath := p)
    case SherpaModelPathField => config.(sherpaModelPath := p)
    case KrokoModelPathField => config.(krokoModelPath := p)
    case LlmModelPathField => config.(llmModelPath := p)
    case TtsModelPathField => config.(ttsModelPath := p)
    case KokoroModelPathField => config.(kokoroModelPath := p)
  }

  method SetSttBackend(s: Switched, data: map<Field, Value>) returns (r: Result<Switched, PyError>)
    ensures r.Success? <==> (SttBackendField in data ==> NormalizeOr(data[SttBackendField], "").Success?)
    ensures r.Success? ==> (r.value.config
      == s.config.(sttBackend := BackendAfter(data, SttBackendField, SttBackends, s.config.sttBackend)))
    ensures r.Success? ==> r.value.changes == s.changes + BackendEntry(data, SttBackendField, SttBackends)
    ensures r.Success? && AllJustified(s.changes, data) ==> AllJustified(r.value.changes, data)
  {
    r := Success(s);
    if SttBackendField in data {
      var backend := NormalizeOr(data[SttBackendField], "");
      if backend.Failure? {
        return Failure(backend.error);
      }
      if backend.value in SttBackends {
        AppendJustified(s.changes, Change(SttBackendField, backend.value), data);
        r := Success(Switched(s.config.(sttBackend := backend.value),
                              s.changes + [Change(SttBackendField, backend.value)]));
      }
    }
  }

  method SetTtsBackend(s: Switched, data: map<Field, Value>) returns (r: Result<Switched, PyError>)
    ensures r.Success? <==> (TtsBackendField in data ==> NormalizeOr(data[TtsBackendField], "").Success?)
    ensures r.Success? ==> (r.value.config
      == s.config.(ttsBackend := BackendAfter(data, TtsBackendField, TtsBackends, s.config.ttsBackend)))
    ensures r.Success? ==> r.value.changes == s.changes + BackendEntry(data, TtsBackendField, TtsBackends)
    ensures r.Success? && AllJustified(s.changes, data) ==> AllJustified(r.value.changes, data)
  {
    r := Success(s);
    if TtsBackendField in data {
      var backend := NormalizeOr(data[TtsBackendField], "");
      if backend.Failure? {
        return Failure(backend.error);
      }
      if backend.value in TtsBackends {
        AppendJustified(s.changes, Change(TtsBackendField, backend.value), data);
        r := Success(Switched(s.config.(ttsBackend := backend.value),
                              s.changes + [Change(TtsBackendField, backend.value)]));
      }
    }
  }

  /** The value under `key` is stored in the path field `target` and the log shows its
      file name; a value that is not a string raises TypeError. */
  method SetPath(s: Switched, data: map<Field, Value>, key: Field, target: Field)
    returns (r: Result<Switched, PyError>)
    requires target.IsPath()
    ensures r.Success? <==> (key in data ==> data[key].Str?)
    ensures r.Success? ==> (r.value.config
      == WithPath(s.config, target, if key in data then data[key].s else PathValue(s.config, target)))
    ensures r.Success? ==> r.value.changes == s.changes + PathEntry(data, key, target)
    ensures r.Success? && AllJustified(s.changes, data) ==> AllJustified(r.value.changes, data)
  {
    if key !in data {
      assert WithPath(s.config, target, PathValue(s.config, target)) == s.config;
      return Success(s);
    }
    var value := data[key];
    if !value.Str? {
      return Failure(TypeError);
    }
    AppendJustified(s.changes, Change(target, Basename(value.s)), data);
    r := Success(Switched(WithPath(s.config, target, value.s),
                          s.changes + [Change(target, Basename(value.s))]));
  }

  /** `stt_model_path` is stored in the model path of the speech-to-text backend in
      force: sherpa's, kroko's, or the generic one for every other backend. */
  method RouteSttModelPath(s: Switched, data: map<Field, Value>) returns (r: Result<Switched, PyError>)
    ensures r.Success? <==> (SttModelPathField in data ==> data[SttModelPathField].Str?)
    ensures r.Success? ==>
      r.value.config.sttModelPath
      == (if SttModelPathField in data && s.config.sttBackend !in {"sherpa", "kroko"}
          then data[SttModelPathField].s else s.config.sttModelPath)
    ensures r.Success? ==>
      r.value.config.sherpaModelPath
      == (if SttModelPathField in data && s.config.sttBackend == "sherpa"
          then data[SttModelPathField].s else s.config.sherpaModelPath)
    ensures r.Success? ==>
      r.value.config.krokoModelPath
      == (if SttModelPathField in data && s.config.sttBackend == "kroko"
          then data[SttModelPathField].s else s.config.krokoModelPath)
    ensures r.Success? ==>
      r.value.config.(sttModelPath := s.config.sttModelPath, sherpaModelPath := s.config.sherpaModelPath,
                      krokoModelPath := s.config.krokoModelPath) == s.config
    ensures r.Success? ==>
      r.value.changes == s.changes + PathEntry(data, SttModelPathField, SttPathTarget(s.config.sttBackend))
    ensures r.Success? && AllJustified(s.changes, data) ==> AllJustified(r.value.changes, data)
  {
    if s.config.sttBackend == "sherpa" {
      r := SetPath(s, data, SttModelPathField, SherpaModelPathField);
    } else if s.config.sttBackend == "kroko" {
      r := SetPath(s, data, SttModelPathField, KrokoModelPathField);
    } else {
      r := SetPath(s, data, SttModelPathField, SttModelPathField);
    }
  }

  /** `tts_model_path` is stored in piper's model path when piper is the text-to-speech
      backend in force, and in kokoro's otherwise. */
  method RouteTtsModelPath(s: Switched, data: map<Field, Value>) returns (r: Result<Switched, PyError>)
    ensures r.Success? <==> (TtsModelPathField in data ==> data[TtsModelPathField].Str?)
    ensures r.Success? ==>
      r.value.config.ttsModelPath
      == (if TtsModelPathField in data && s.config.ttsBackend == "piper"
          then data[TtsModelPathField].s else s.config.ttsModelPath)
    ensures r.Success? ==>
      r.value.config.kokoroModelPath
      == (if TtsModelPathField in data && s.config.ttsBackend != "piper"
          then data[TtsModelPathField].s else s.config.kokoroModelPath)
    ensures r.Success? ==>
      r.value.config.(ttsModelPath := s.config.ttsModelPath, kokoroModelPath := s.config.kokoroModelPath)
      == s.config
    ensures r.Success? ==>
      r.value.changes == s.changes + PathEntry(data, TtsModelPathField, TtsPathTarget(s.config.ttsBackend))
    ensures r.Success? && AllJustified(s.changes, data) ==> AllJustified(r.value.changes, data)
  {
    if s.config.ttsBackend == "piper" {
      r := SetPath(s, data, TtsModelPathField, TtsModelPathField);
    } else {
      r := SetPath(s, data, TtsModelPathField, KokoroModelPathField);
    }
  }

  method SetKrokoLanguage(s: Switched, data: map<Field, Value>) returns (t: Switched)
    ensures t.config
      == s.config.(krokoLanguage := if KrokoLanguageField in data then data[KrokoLanguageField] else s.config.krokoLanguage)
    ensures t.changes == s.changes + FormatEntry(data, KrokoLanguageField)
    ensures AllJustified(s.changes, data) ==> AllJustified(t.changes, data)
  {
    t := s;
    if KrokoLanguageField in data {
      var value := data[KrokoLanguageField];
      AppendJustified(t.changes, Change(KrokoLanguageField, Format(value)), data);
      t := Switched(t.config.(krokoLanguage := value), t.changes + [Change(KrokoLanguageField, Format(value))]);
    }
  }

  method SetKrokoUrl(s: Switched, data: map<Field, Value>) returns (t: Switched)
    ensures t.config
      == s.config.(krokoUrl := if KrokoUrlField in data then data[KrokoUrlField] else s.config.krokoUrl)
    ensures t.changes == s.changes + UpdatedEntry(data, KrokoUrlField)
    ensures AllJustified(s.changes, data) ==> AllJustified(t.changes, data)
  {
    t := s;
    if KrokoUrlField in data {
      AppendJustified(t.changes, Change(KrokoUrlField, "updated"), data);
      t := Switched(t.config.(krokoUrl := data[KrokoUrlField]), t.changes + [Change(KrokoUrlField, "updated")]);
    }
  }

  /** `int()` of the value; a value `int()` rejects is skipped without a log entry. */
  method SetKrokoPort(s: Switched, data: map<Field, Value>) returns (t: Switched)
    ensures t.config == s.config.(krokoPort :=
      if KrokoPortField in data && ToInt(data[KrokoPortField]).Some?
      then ToInt(data[KrokoPortField]).value else s.config.krokoPort)
    ensures t.changes == s.changes + PortEntry(data)
    ensures AllJustified(s.changes, data) ==> AllJustified(t.changes, data)
  {
    t := s;
    if KrokoPortField in data {
      var port := ToInt(data[KrokoPortField]);
      if port.Some? {
        AppendJustified(t.changes, Change(KrokoPortField, IntToString(port.value)), data);
        t := Switched(t.config.(krokoPort := port.value),
                      t.changes + [Change(KrokoPortField, IntToString(port.value))]);
      }
    }
  }

  method SetKrokoEmbedded(s: Switched, data: map<Field, Value>) returns (t: Switched)
    ensures t.config == s.config.(krokoEmbedded :=
      if KrokoEmbeddedField in data then EmbeddedFlag(data[KrokoEmbeddedField]) else s.config.krokoEmbedded)
    ensures t.changes == s.changes + EmbeddedEntry(data)
    ensures AllJustified(s.changes, data) ==> AllJustified(t.changes, data)
  {
    t := s;
    if KrokoEmbeddedField in data {
      var embedded := EmbeddedFlag(data[KrokoEmbeddedField]);
      AppendJustified(t.changes, Change(KrokoEmbeddedField, if embedded then "1" else "0"), data);
      t := Switched(t.config.(krokoEmbedded := embedded),
                    t.changes + [Change(KrokoEmbeddedField, if embedded then "1" else "0")]);
    }
  }

  method SetKokoroVoice(s: Switched, data: map<Field, Value>) returns (t: Switched)
    ensures t.config
      == s.config.(kokoroVoice := if KokoroVoiceField in data then data[KokoroVoiceField] else s.config.kokoroVoice)
    ensures t.changes == s.changes + FormatEntry(data, KokoroVoiceField)
    ensures AllJustified(s.changes, data) ==> AllJustified(t.changes, data)
  {
    t := s;
    if KokoroVoiceField in data {
      var value := data[KokoroVoiceField];
      AppendJustified(t.changes, Change(KokoroVoiceField, Format(value)), data);
      t := Switched(t.config.(kokoroVoice := value), t.changes + [Change(KokoroVoiceField, Format(value))]);
    }
  }

  method SetKokoroMode(s: Switched, data: map<Field, Value>) returns (r: Result<Switched, PyError>)
    ensures r.Success? <==> (KokoroModeField in data ==> NormalizeOr(data[KokoroModeField], "local").Success?)
    ensures r.Success? ==> r.value.config == s.config.(kokoroMode :=
      if KokoroModeField in data then NormalizeOr(data[KokoroModeField], "local").value else s.config.kokoroMode)
    ensures r.Success? ==> r.value.changes == s.changes + ModeEntry(data)
    ensures r.Success? && AllJustified(s.changes, data) ==> AllJustified(r.value.changes, data)
  {
    r := Success(s);
    if KokoroModeField in data {
      var value := NormalizeOr(data[KokoroModeField], "local");
      if value.Failure? {
        return Failure(value.error);
      }
      AppendJustified(s.changes, Change(KokoroModeField, value.value), data);
      r := Success(Switched(s.config.(kokoroMode := value.value),
                            s.changes + [Change(KokoroModeField, value.value)]));
    }
  }

  method SetKokoroApiBaseUrl(s: Switched, data: map<Field, Value>) returns (r: Result<Switched, PyError>)
    ensures r.Success? <==> (KokoroApiBaseUrlField in data ==> StripOr(data[KokoroApiBaseUrlField], "").Success?)
    ensures r.Success? ==> r.value.config == s.config.(kokoroApiBaseUrl :=
      if KokoroApiBaseUrlField in data then StripOr(data[KokoroApiBaseUrlField], "").value
      else s.config.kokoroApiBaseUrl)
    ensures r.Success? ==> r.value.changes == s.changes + UpdatedEntry(data, KokoroApiBaseUrlField)
    ensures r.Success? && AllJustified(s.changes, data) ==> AllJustified(r.value.changes, data)
  {
    r := Success(s);
    if KokoroApiBaseUrlField in data {
      var value := StripOr(data[KokoroApiBaseUrlField], "");
      if value.Failure? {
        return Failure(value.error);
      }
      AppendJustified(s.changes, Change(KokoroApiBaseUrlField, "updated"), data);
      r := Success(Switched(s.config.(kokoroApiBaseUrl := value.value),
                            s.changes + [Change(KokoroApiBaseUrlField, "updated")]));
    }
  }

  method SetKokoroApiKey(s: Switched, data: map<Field, Value>) returns (r: Result<Switched, PyError>)
    ensures r.Success? <==> (KokoroApiKeyField in data ==> StripOr(data[KokoroApiKeyField], "").Success?)
    ensures r.Success? ==> r.value.config == s.config.(kokoroApiKey :=
      if KokoroApiKeyField in data then StripOr(data[KokoroApiKeyField], "").value
      else s.config.kokoroApiKey)
    ensures r.Success? ==> r.value.changes == s.changes + UpdatedEntry(data, KokoroApiKeyField)
    ensures r.Success? && AllJustified(s.changes, data) ==> AllJustified(r.value.changes, data)
  {
    r := Success(s);
    if KokoroApiKeyField in data {
      var value := StripOr(data[KokoroApiKeyField], "");
      if value.Failure? {
        return Failure(value.error);
      }
      AppendJustified(s.changes, Change(KokoroApiKeyField, "updated"), data);
      r := Success(Switched(s.config.(kokoroApiKey := value.value),
                            s.changes + [Change(KokoroApiKeyField, "updated")]));
    }
  }

  method SetKokoroApiModel(s: Switched, data: map<Field, Value>) returns (r: Result<Switched, PyError>)
    ensures r.Success? <==> (KokoroApiModelField in data ==> StripOr(data[KokoroApiModelField], "model").Success?)
    ensures r.Success? ==> r.value.config == s.config.(kokoroApiModel :=
      if KokoroApiModelField in data then StripOr(data[KokoroApiModelField], "model").value
      else s.config.kokoroApiModel)
    ensures r.Success? ==> r.value.changes == s.changes + ApiModelEntry(data)
    ensures r.Success? && AllJustified(s.changes, data) ==> AllJustified(r.value.changes, data)
  {
    r := Success(s);
    if KokoroApiModelField in data {
      var value := StripOr(data[KokoroApiModelField], "model");
      if value.Failure? {
        return Failure(value.error);
      }
      AppendJustified(s.changes, Change(KokoroApiModelField, value.value), data);
      r := Success(Switched(s.config.(kokoroApiModel := value.value),
                            s.changes + [Change(KokoroApiModelField, value.value)]));
    }
  }

  // ===========================================================================
  // The handler

  /** The keys of `apply_switch_model_request` up to `kroko_model_path`: the
      speech-to-text backend and the model paths it routes. */
  method ApplySttModel(s: Switched, data: map<Field, Value>) returns (r: Result<Switched, PyError>)
    ensures r.Success? <==>
      && (SttBackendField in data ==> StripOr(data[SttBackendField], "").Success?)
      && (SttModelPathField in data ==> data[SttModelPathField].Str?)
      && (SherpaModelPathField in data ==> data[SherpaModelPathField].Str?)
      && (KrokoModelPathField in data ==> data[KrokoModelPathField].Str?)
    ensures r.Success? ==>
      r.value.config.sttBackend == BackendAfter(data, SttBackendField, SttBackends, s.config.sttBackend)
    ensures r.Success? ==>
      r.value.config.sttModelPath
      == (if SttModelPathField in data && r.value.config.sttBackend !in {"sherpa", "kroko"}
          then data[SttModelPathField].s else s.config.sttModelPath)
    ensures r.Success? ==>
      r.value.config.sherpaModelPath
      == (if SherpaModelPathField in data then data[SherpaModelPathField].s
          else if SttModelPathField in data && r.value.config.sttBackend == "sherpa"
          then data[SttModelPathField].s
          else s.config.sherpaModelPath)
    ensures r.Success? ==>
      r.value.config.krokoModelPath
      == (if KrokoModelPathField in data then data[KrokoModelPathField].s
          else if SttModelPathField in data && r.value.config.sttBackend == "kroko"
          then data[SttModelPathField].s
          else s.config.krokoModelPath)
    // No other field changes.
    ensures r.Success? ==>
      r.value.config.(sttBackend := s.config.sttBackend, sttModelPath := s.config.sttModelPath,
                      sherpaModelPath := s.config.sherpaModelPath, krokoModelPath := s.config.krokoModelPath)
      == s.config
    ensures r.Success? ==> r.value.changes == s.changes + SttLog(data, s.config.sttBackend)
    ensures r.Success? && AllJustified(s.changes, data) ==> AllJustified(r.value.changes, data)
  {
    var t := s;
    var step: Result<Switched, PyError>;

    ghost var log := BackendEntry(data, SttBackendField, SttBackends);
    step := SetSttBackend(t, data);
    if step.Failure? { return step; }
    t := step.value;

    ghost var entry := PathEntry(data, SttModelPathField, SttPathTarget(t.config.sttBackend));
    step := RouteSttModelPath(t, data);
    if step.Failure? { return step; }
    AppendTwice(s.changes, log, entry);
    t, log := step.value, log + entry;

    entry := PathEntry(data, SherpaModelPathField, SherpaModelPathField);
    step := SetPath(t, data, SherpaModelPathField, SherpaModelPathField);
    if step.Failure? { return step; }
    AppendTwice(s.changes, log, entry);
    t, log := step.value, log + entry;

    entry := PathEntry(data, KrokoModelPathField, KrokoModelPathField);
    step := SetPath(t, data, KrokoModelPathField, KrokoModelPathField);
    if step.Failure? { return step; }
    AppendTwice(s.changes, log, entry);
    assert log + entry == SttLog(data, s.config.sttBackend);
    return Success(step.value);
  }

  /** The keys from `kroko_language` to `llm_model_path`: the Kroko server settings and
      the LLM model path. */
  method ApplyKrokoSettings(s: Switched, data: map<Field, Value>) returns (r: Result<Switched, PyError>)
    ensures r.Success? <==> (LlmModelPathField in data ==> data[LlmModelPathField].Str?)
    ensures r.Success? ==>
      r.value.config.krokoLanguage
      == (if KrokoLanguageField in data then data[KrokoLanguageField] else s.config.krokoLanguage)
    ensures r.Success? ==>
      r.value.config.krokoUrl
      == (if KrokoUrlField in data then data[KrokoUrlField] else s.config.krokoUrl)
    ensures r.Success? ==>
      r.value.config.krokoPort
      == (if KrokoPortField in data && ToInt(data[KrokoPortField]).Some?
          then ToInt(data[KrokoPortField]).value else s.config.krokoPort)
    ensures r.Success? ==>
      r.value.config.krokoEmbedded
      == (if KrokoEmbeddedField in data then EmbeddedFlag(data[KrokoEmbeddedField]) else s.config.krokoEmbedded)
    ensures r.Success? ==>
      r.value.config.llmModelPath
      == (if LlmModelPathField in data then data[LlmModelPathField].s else s.config.llmModelPath)
    // No other field changes.
    ensures r.Success? ==>
      r.value.config.(krokoLanguage := s.config.krokoLanguage, krokoUrl := s.config.krokoUrl,
                      krokoPort := s.config.krokoPort, krokoEmbedded := s.config.krokoEmbedded,
                      llmModelPath := s.config.llmModelPath) == s.config
    ensures r.Success? ==> r.value.changes == s.changes + KrokoLog(data)
    ensures r.Success? && AllJustified(s.changes, data) ==> AllJustified(r.value.changes, data)
  {
    var t := SetKrokoLanguage(s, data);
    t := SetKrokoUrl(t, data);
    AppendTwice(s.changes, FormatEntry(data, KrokoLanguageField), UpdatedEntry(data, KrokoUrlField));
    ghost var log := FormatEntry(data, KrokoLanguageField) + UpdatedEntry(data, KrokoUrlField);
    t := SetKrokoPort(t, data);
    AppendTwice(s.changes, log, PortEntry(data));
    log := log + PortEntry(data);
    t := SetKrokoEmbedded(t, data);
    AppendTwice(s.changes, log, EmbeddedEntry(data));
    log := log + EmbeddedEntry(data);
    r := SetPath(t, data, LlmModelPathField, LlmModelPathField);
    AppendTwice(s.changes, log, PathEntry(data, LlmModelPathField, LlmModelPathField));
  }

  /** The keys `tts_backend` and `tts_model_path`: the text-to-speech backend and the
      model path it routes. */
  method ApplyTtsModel(s: Switched, data: map<Field, Value>) returns (r: Result<Switched, PyError>)
    ensures r.Success? <==>
      && (TtsBackendField in data ==> StripOr(data[TtsBackendField], "").Success?)
      && (TtsModelPathField in data ==> data[TtsModelPathField].Str?)
    ensures r.Success? ==>
      r.value.config.ttsBackend == BackendAfter(data, TtsBackendField, TtsBackends, s.config.ttsBackend)
    ensures r.Success? ==>
      r.value.config.ttsModelPath
      == (if TtsModelPathField in data && r.value.config.ttsBackend == "piper"
          then data[TtsModelPathField].s else s.config.ttsModelPath)
    ensures r.Success? ==>
      r.value.config.kokoroModelPath
      == (if TtsModelPathField in data && r.value.config.ttsBackend != "piper"
          then data[TtsModelPathField].s else s.config.kokoroModelPath)
    // No other field changes.
    ensures r.Success? ==>
      r.value.config.(ttsBackend := s.config.ttsBackend, ttsModelPath := s.config.ttsModelPath,
                      kokoroModelPath := s.config.kokoroModelPath) == s.config
    ensures r.Success? ==> r.value.changes == s.changes + TtsLog(data, s.config.ttsBackend)
    ensures r.Success? && AllJustified(s.changes, data) ==> AllJustified(r.value.changes, data)
  {
    var step := SetTtsBackend(s, data);
    if step.Failure? { return step; }
    AppendTwice(s.changes, BackendEntry(data, TtsBackendField, TtsBackends),
                PathEntry(data, TtsModelPathField, TtsPathTarget(step.value.config.ttsBackend)));
    r := RouteTtsModelPath(step.value, data);
  }

  /** The keys from `kokoro_voice` on: the Kokoro voice, mode, model path and API
      settings. */
  method ApplyKokoroSettings(s: Switched, data: map<Field, Value>) returns (r: Result<Switched, PyError>)
    ensures r.Success? <==>
      && (KokoroModeField in data ==> StripOr(data[KokoroModeField], "local").Success?)
      && (KokoroModelPathField in data ==> data[KokoroModelPathField].Str?)
      && (KokoroApiBaseUrlField in data ==> StripOr(data[KokoroApiBaseUrlField], "").Success?)
      && (KokoroApiKeyField in data ==> StripOr(data[KokoroApiKeyField], "").Success?)
      && (KokoroApiModelField in data ==> StripOr(data[KokoroApiModelField], "model").Success?)
    ensures r.Success? ==>
      r.value.config.kokoroModelPath
      == (if KokoroModelPathField in data then data[KokoroModelPathField].s else s.config.kokoroModelPath)
    ensures r.Success? ==>
      r.value.config.kokoroVoice
      == (if KokoroVoiceField in data then data[KokoroVoiceField] else s.config.kokoroVoice)
    ensures r.Success? ==>
      r.value.config.kokoroMode
      == (if KokoroModeField in data then NormalizeOr(data[KokoroModeField], "local").value else s.config.kokoroMode)
    ensures r.Success? ==>
      r.value.config.kokoroApiBaseUrl
      == (if KokoroApiBaseUrlField in data then StripOr(data[KokoroApiBaseUrlField], "").value
          else s.config.kokoroApiBaseUrl)
    ensures r.Success? ==>
      r.value.config.kokoroApiKey
      == (if KokoroApiKeyField in data then StripOr(data[KokoroApiKeyField], "").value
          else s.config.kokoroApiKey)
    ensures r.Success? ==>
      r.value.config.kokoroApiModel
      == (if KokoroApiModelField in data then StripOr(data[KokoroApiModelField], "model").value
          else s.config.kokoroApiModel)
    // No other field changes.
    ensures r.Success? ==>
      r.value.config.(kokoroModelPath := s.config.kokoroModelPath, kokoroVoice := s.config.kokoroVoice,
                      kokoroMode := s.config.kokoroMode, kokoroApiBaseUrl := s.config.kokoroApiBaseUrl,
                      kokoroApiKey := s.config.kokoroApiKey, kokoroApiModel := s.config.kokoroApiModel)
      == s.config
    ensures r.Success? ==> r.value.changes == s.changes + KokoroLog(data)
    ensures r.Success? && AllJustified(s.changes, data) ==> AllJustified(r.value.changes, data)
  {
    var t := SetKokoroVoice(s, data);
    var step: Result<Switched, PyError>;
    ghost var log := FormatEntry(data, KokoroVoiceField);

    step := SetKokoroMode(t, data);
    if step.Failure? { return step; }
    AppendTwice(s.changes, log, ModeEntry(data));
    t, log := step.value, log + ModeEntry(data);

    step := SetPath(t, data, KokoroModelPathField, KokoroModelPathField);
    if step.Failure? { return step; }
    AppendTwice(s.changes, log, PathEntry(data, KokoroModelPathField, KokoroModelPathField));
    t, log := step.value, log + PathEntry(data, KokoroModelPathField, KokoroModelPathField);

    step := SetKokoroApiBaseUrl(t, data);
    if step.Failure? { return step; }
    AppendTwice(s.changes, log, UpdatedEntry(data, KokoroApiBaseUrlField));
    t, log := step.value, log + UpdatedEntry(data, KokoroApiBaseUrlField);

    step := SetKokoroApiKey(t, data);
    if step.Failure? { return step; }
    AppendTwice(s.changes, log, UpdatedEntry(data, KokoroApiKeyField));
    t, log := step.value, log + UpdatedEntry(data, KokoroApiKeyField);

    r := SetKokoroApiModel(t, data);
    AppendTwice(s.changes, log, ApiModelEntry(data));
  }

  /** Python `apply_switch_model_request`: the known keys of `data` are applied in a
      fixed order to a copy of `config`, each applied key adding one entry to the change
      log. An exception from a malformed value aborts the whole request. */
  method ApplySwitchModelRequest(config: LocalAIConfig, data: map<Field, Value>)
    returns (r: Result<Switched, PyError>, changed: seq<string>)
    ensures r.Success? <==> Accepted(data)
    // The log holds one entry per applied key, in the handler's order, and the
    // returned strings render it entry by entry.
    ensures r.Success? ==> r.value.changes == ChangeLog(config, data)
    ensures r.Success? ==> changed == ChangedList(ChangeLog(config, data))
    ensures r.Failure? ==> changed == []
    // An empty request changes nothing and logs nothing.
    ensures data == map[] ==> r == Success(Switched(config, []))
    // Backends change only to whitelisted names.
    ensures r.Success? ==>
      r.value.config.sttBackend == BackendAfter(data, SttBackendField, SttBackends, config.sttBackend)
    ensures r.Success? ==>
      r.value.config.ttsBackend == BackendAfter(data, TtsBackendField, TtsBackends, config.ttsBackend)
    // `stt_model_path` is routed by the backend in force after this request's update;
    // explicit `sherpa_model_path` / `kroko_model_path` keys win over it.
    ensures r.Success? ==>
      r.value.config.sttModelPath
      == (if SttModelPathField in data && r.value.config.sttBackend !in {"sherpa", "kroko"}
          then data[SttModelPathField].s else config.sttModelPath)
    ensures r.Success? ==>
      r.value.config.sherpaModelPath
      == (if SherpaModelPathField in data then data[SherpaModelPathField].s
          else if SttModelPathField in data && r.value.config.sttBackend == "sherpa"
          then data[SttModelPathField].s
          else config.sherpaModelPath)
    ensures r.Success? ==>
      r.value.config.krokoModelPath
      == (if KrokoModelPathField in data then data[KrokoModelPathField].s
          else if SttModelPathField in data && r.value.config.sttBackend == "kroko"
          then data[SttModelPathField].s
          else config.krokoModelPath)
    // `tts_model_path` goes to the piper path or else to the kokoro path; an explicit
    // `kokoro_model_path` key wins over it.
    ensures r.Success? ==>
      r.value.config.ttsModelPath
      == (if TtsModelPathField in data && r.value.config.ttsBackend == "piper"
          then data[TtsModelPathField].s else config.ttsModelPath)
    ensures r.Success? ==>
      r.value.config.kokoroModelPath
      == (if KokoroModelPathField in data then data[KokoroModelPathField].s
          else if TtsModelPathField in data && r.value.config.ttsBackend != "piper"
          then data[TtsModelPathField].s
          else config.kokoroModelPath)
    // A port that is not an integer leaves the port alone.
    ensures r.Success? ==>
      r.value.config.krokoPort
      == (if KrokoPortField in data && ToInt(data[KrokoPortField]).Some?
          then ToInt(data[KrokoPortField]).value else config.krokoPort)
    ensures r.Success? ==>
      r.value.config.krokoEmbedded
      == (if KrokoEmbeddedField in data then EmbeddedFlag(data[KrokoEmbeddedField]) else config.krokoEmbedded)
    // The remaining fields take the request's value, normalised where the handler does.
    ensures r.Success? ==>
      r.value.config.krokoLanguage
      == (if KrokoLanguageField in data then data[KrokoLanguageField] else config.krokoLanguage)
    ensures r.Success? ==>
      r.value.config.krokoUrl
      == (if KrokoUrlField in data then data[KrokoUrlField] else config.krokoUrl)
    ensures r.Success? ==>
      r.value.config.llmModelPath
      == (if LlmModelPathField in data then data[LlmModelPathField].s else config.llmModelPath)
    ensures r.Success? ==>
      r.value.config.kokoroVoice
      == (if KokoroVoiceField in data then data[KokoroVoiceField] else config.kokoroVoice)
    ensures r.Success? ==>
      r.value.config.kokoroMode
      == (if KokoroModeField in data then NormalizeOr(data[KokoroModeField], "local").value else config.kokoroMode)
    ensures r.Success? ==>
      r.value.config.kokoroApiBaseUrl
      == (if KokoroApiBaseUrlField in data then StripOr(data[KokoroApiBaseUrlField], "").value
          else config.kokoroApiBaseUrl)
    ensures r.Success? ==>
      r.value.config.kokoroApiKey
      == (if KokoroApiKeyField in data then StripOr(data[KokoroApiKeyField], "").value
          else config.kokoroApiKey)
    ensures r.Success? ==>
      r.value.config.kokoroApiModel
      == (if KokoroApiModelField in data then StripOr(data[KokoroApiModelField], "model").value
          else config.kokoroApiModel)
    // Every log entry is accounted for by the request (see `Justified`): in particular
    // the URL and key fields are reported as `=updated` and never echo their value.
    ensures r.Success? ==> AllJustified(r.value.changes, data)
    ensures r.Success? ==>
      forall c | c in r.value.changes && c.field.IsSecret() :: Render(c) == c.field.Name() + "=updated"
  {
    changed := [];
    var stt := ApplySttModel(Switched(config, []), data);
    if stt.Failure? {
      return stt, changed;
    }
    var kroko := ApplyKrokoSettings(stt.value, data);
    if kroko.Failure? {
      return kroko, changed;
    }
    assert kroko.value.config.ttsBackend == config.ttsBackend;
    var tts := ApplyTtsModel(kroko.value, data);
    if tts.Failure? {
      return tts, changed;
    }
    r := ApplyKokoroSettings(tts.value, data);
    if r.Success? {
      StagedLog(config, data, stt.value.changes, kroko.value.changes, tts.value.changes, r.value.changes);
      changed := ChangedList(r.value.changes);
      JustifiedLog(r.value.changes, data);
    }
    if data == map[] {
      assert stt.value.config == config;
      assert kroko.value.config == config;
      assert tts.value.config == config;
      assert r.value.config == config;
      EmptyRequestLogsNothing(config);
    }
  }
}
