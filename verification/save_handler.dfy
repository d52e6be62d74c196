/**
 * The `save-settings` handler (main.js:98-144): validates the payload in a
 * fixed order, then writes `{ env }` to `<rootPath>/.claude/settings.json`.
 * The permission check, JSON.parse and the file write are the environment:
 * they enter as parameters.
 */
module SaveHandler {
  import opened Wrappers
  import opened Js
  import opened Text
  import opened Providers
  import opened ConfigMapper
  import opened FileSystem

  /** What JSON.parse does with the additional-configuration text. */
  datatype Parsed = Parsed(value: Value) | ParseError

  datatype SaveError =
    | NoFolder
    | BadProvider
    | NoModelName
    | NoApiKey
    | NotWritable(root: string)
    | BadAdditionalConfig
    | WriteFailed(message: string)

  /** The `error` text the handler returns for each failure. */
  function ErrorText(e: SaveError): string
  {
    match e
    case NoFolder => "Selecione uma pasta válida"
    case BadProvider => "Selecione um provedor válido"
    case NoModelName => "Informe o nome do modelo"
    case NoApiKey => "Informe a API Key"
    case NotWritable(root) => "Sem permissão de escrita em: " + root
    case BadAdditionalConfig => "Configuração adicional inválida: verifique o formato JSON"
    case WriteFailed(message) =>
      if message != "" then message else "Erro inesperado ao salvar as configurações"
  }

  const SuccessText: string := "Configuração aplicada com sucesso em .claude/settings.json!"

  /** `{ ok: true, message }` or `{ ok: false, error }`. */
  datatype Reply = Saved(message: string) | Failed(error: string)

  /** The validated inputs of providerEnv. */
  datatype Request = Request(root: string, provider: Provider, modelName: string, apiKey: string, extra: Value)

  /**
   * The additional configuration: nothing to merge unless the field is a
   * non-empty string; otherwise what it parses to, provided that passes the
   * object guard (arrays do); None when it fails to parse or is not object-like.
   */
  function AdditionalConfig(text: Value, parse: string -> Parsed): (r: Option<Value>)
    ensures r.Some? ==> r.value == Undefined || IsObjectLike(r.value)
    ensures !IsNonEmptyString(text) ==> r == Some(Undefined)
    ensures IsNonEmptyString(text) ==>
              (r.Some? <==> parse(text.s).Parsed? && IsObjectLike(parse(text.s).value))
    ensures IsNonEmptyString(text) && r.Some? ==> r.value == parse(text.s).value
  {
    if !IsNonEmptyString(text) then Some(Undefined)
    else match parse(text.s)
      case ParseError => None
      case Parsed(v) => if IsObjectLike(v) then Some(v) else None
  }

  /**
   * The validation path (main.js:100-123): folder, provider, model name, API
   * key, write permission, additional configuration, in that order; the first
   * failure decides the error. On success the model name and key are trimmed.
   */
  function Validate(payload: Value, rootWritable: bool, parse: string -> Parsed): (r: Result<Request, SaveError>)
    ensures var root, provider := Field(payload, "rootPath"), Field(payload, "provider");
            var model, key := Field(payload, "modelName"), Field(payload, "apiKey");
            var extra := AdditionalConfig(Field(payload, "additionalConfig"), parse);
      && (!IsNonEmptyString(root) ==> r == Err(NoFolder))
      && (IsNonEmptyString(root) && FromValue(provider).None? ==> r == Err(BadProvider))
      && (IsNonEmptyString(root) && FromValue(provider).Some? && !IsNonEmptyString(model) ==> r == Err(NoModelName))
      && ((IsNonEmptyString(root) && FromValue(provider).Some? && IsNonEmptyString(model)
           && !IsNonEmptyString(key)) ==> r == Err(NoApiKey))
      && ((IsNonEmptyString(root) && FromValue(provider).Some? && IsNonEmptyString(model)
           && IsNonEmptyString(key) && !rootWritable) ==> r == Err(NotWritable(root.s)))
      && (r.Ok? <==>
            IsNonEmptyString(root) && FromValue(provider).Some? && IsNonEmptyString(model)
            && IsNonEmptyString(key) && rootWritable && extra.Some?)
      && ((r.Err? && r.error == BadAdditionalConfig) <==>
            IsNonEmptyString(root) && FromValue(provider).Some? && IsNonEmptyString(model)
            && IsNonEmptyString(key) && rootWritable && extra.None?)
      && (r.Ok? ==> r.value == Request(root.s, FromValue(provider).value, Trim(model.s), Trim(key.s), extra.value))
  {
    var root, provider := Field(payload, "rootPath"), Field(payload, "provider");
    var model, key := Field(payload, "modelName"), Field(payload, "apiKey");
    if !IsNonEmptyString(root) then Err(NoFolder)
    else if FromValue(provider).None? then Err(BadProvider)
    else if !IsNonEmptyString(model) then Err(NoModelName)
    else if !IsNonEmptyString(key) then Err(NoApiKey)
    else if !rootWritable then Err(NotWritable(root.s))
    else match AdditionalConfig(Field(payload, "additionalConfig"), parse)
      case None => Err(BadAdditionalConfig)
      case Some(extra) => Ok(Request(root.s, FromValue(provider).value, Trim(model.s), Trim(key.s), extra))
  }

  /**
   * A validated request is what providerEnv expects: a known provider, a
   * model name and key that are non-empty with no white space at either end,
   * and nothing or an object-like value to merge.
   */
  lemma ValidatedRequestIsClean(payload: Value, rootWritable: bool, parse: string -> Parsed)
    requires Validate(payload, rootWritable, parse).Ok?
    ensures var req := Validate(payload, rootWritable, parse).value;
      && req.root != ""
      && req.modelName != [] && !IsJsSpace(req.modelName[0]) && !IsJsSpace(req.modelName[|req.modelName| - 1])
      && req.apiKey != [] && !IsJsSpace(req.apiKey[0]) && !IsJsSpace(req.apiKey[|req.apiKey| - 1])
      && (req.extra == Undefined || IsObjectLike(req.extra))
  {
  }

  /** A settings file: the document written, or what a write that failed part-way left behind. */
  datatype SettingsFile = Written(settings: Settings) | Truncated

  /** The project folders and what each one's `.claude/settings.json` holds. */
  class Workspace {
    /** Content of `<root>/.claude/settings.json`, by project root, for the files this handler wrote. */
    var settingsFiles: map<string, SettingsFile>

    constructor (files: map<string, SettingsFile>)
      ensures settingsFiles == files
    {
      settingsFiles := files;
    }

    /**
     * The handler. Any rejection returns before the write, so the files are
     * left as they were; `writeError` is the failure of mkdir or writeFile,
     * if any, which leaves that folder's file untouched or truncated.
     */
    method SaveSettings(payload: Value, rootWritable: bool, parse: string -> Parsed, writeError: Option<WriteFault>)
      returns (reply: Reply)
      modifies this
      ensures var v := Validate(payload, rootWritable, parse);
        && (v.Err? ==> reply == Failed(ErrorText(v.error)) && settingsFiles == old(settingsFiles))
        && (v.Ok? && writeError.Some? ==>
              && reply == Failed(ErrorText(WriteFailed(writeError.value.message)))
              && settingsFiles == if writeError.value.truncated then old(settingsFiles)[v.value.root := Truncated]
                                  else old(settingsFiles))
        && (v.Ok? && writeError.None? ==>
              && reply == Saved(SuccessText)
              && settingsFiles == old(settingsFiles)[v.value.root :=
                   Written(Settings(EnvFor(Name(v.value.provider), v.value.modelName, v.value.apiKey, v.value.extra)))])
    {
      var v := Validate(payload, rootWritable, parse);
      if v.Err? {
        return Failed(ErrorText(v.error));
      }
      var req := v.value;
      var content := ProviderEnv(Name(req.provider), req.modelName, req.apiKey, req.extra);
      if writeError.Some? {
        if writeError.value.truncated {
          settingsFiles := settingsFiles[req.root := Truncated];
        }
        return Failed(ErrorText(WriteFailed(writeError.value.message)));
      }
      settingsFiles := settingsFiles[req.root := Written(content)];
      reply := Saved(SuccessText);
    }
  }

  /** The first four checks pass: folder, provider, model name and API key. */
  predicate FieldsPresent(payload: Value)
  {
    && IsNonEmptyString(Field(payload, "rootPath"))
    && FromValue(Field(payload, "provider")).Some?
    && IsNonEmptyString(Field(payload, "modelName"))
    && IsNonEmptyString(Field(payload, "apiKey"))
  }

  /** Provider "foo" is refused once the folder is valid, whatever else the payload holds. */
  lemma UnknownProviderRefused(payload: Value, rootWritable: bool, parse: string -> Parsed)
    requires IsNonEmptyString(Field(payload, "rootPath"))
    requires Field(payload, "provider") == Str("foo")
    ensures Validate(payload, rootWritable, parse) == Err(BadProvider)
  {
  }

  /** An API key of white space only is refused, before the permission check. */
  lemma BlankApiKeyRefused(payload: Value, rootWritable: bool, parse: string -> Parsed)
    requires IsNonEmptyString(Field(payload, "rootPath")) && FromValue(Field(payload, "provider")).Some?
    requires IsNonEmptyString(Field(payload, "modelName"))
    requires Field(payload, "apiKey").Str?
    requires forall i :: 0 <= i < |Field(payload, "apiKey").s| ==> IsJsSpace(Field(payload, "apiKey").s[i])
    ensures Validate(payload, rootWritable, parse) == Err(NoApiKey)
  {
    NonEmptyStringIff(Field(payload, "apiKey"));
  }

  /** Without write permission the handler fails with that message, whatever the additional configuration. */
  lemma PermissionCheckedBeforeConfig(payload: Value, parse: string -> Parsed)
    requires FieldsPresent(payload)
    ensures Validate(payload, false, parse) == Err(NotWritable(Field(payload, "rootPath").s))
  {
  }

  /** Additional configuration that does not parse, or parses to a scalar or null, is refused. */
  lemma NonObjectConfigRefused(payload: Value, parse: string -> Parsed)
    requires FieldsPresent(payload)
    requires IsNonEmptyString(Field(payload, "additionalConfig"))
    requires var parsed := parse(Field(payload, "additionalConfig").s);
      parsed.ParseError? || parsed.value.Null? || parsed.value.Bool? || parsed.value.Num? || parsed.value.Str?
    ensures Validate(payload, true, parse) == Err(BadAdditionalConfig)
  {
  }

  /**
   * Additional configuration that parses to an array is accepted, as the
   * guard admits arrays: element i becomes the variable "i", and every
   * generated variable keeps its value.
   */
  lemma ArrayConfigAccepted(payload: Value, parse: string -> Parsed, items: seq<Value>)
    requires FieldsPresent(payload)
    requires IsNonEmptyString(Field(payload, "additionalConfig"))
    requires parse(Field(payload, "additionalConfig").s) == Parsed(Arr(items))
    ensures var r := Validate(payload, true, parse);
      && r.Ok? && r.value.extra == Arr(items)
      && var env := EnvFor(Name(r.value.provider), r.value.modelName, r.value.apiKey, r.value.extra);
         && (forall i :: 0 <= i < |items| ==> env[IndexKey(i)] == items[i])
         && (forall k :: k in RoleKeys ==> env[k] == Str(r.value.modelName))
  {
    var r := Validate(payload, true, parse);
    ArrayOverride(Name(r.value.provider), r.value.modelName, r.value.apiKey, items);
    GeneratedRoles(Name(r.value.provider), r.value.modelName, r.value.apiKey);
  }
}
