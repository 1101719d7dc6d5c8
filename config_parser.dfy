/** `ConfigParser`: reads a connection configuration from an INI or a JSON file,
    optionally from one section of it, checks that the mandatory keys are there and
    fills in the defaults. The file system and the decoders stay abstract: the model is
    handed what `file_exists`, `is_file`, `mime_content_type`, `parse_ini_file` and
    `json_decode` report about the file. */
module ConfigParser {
  import opened Errors
  import opened Php

  const MANDATORY_KEY: seq<string> := ["HOST", "PWD", "USER", "DN"]
  const DEFAULT_TIMEOUT: int := 3
  const JSON_MIME: string := "application/json"

  /** What the file system and the decoders report about the file at a path. */
  datatype ConfigFile = ConfigFile(
    /** `file_exists` */
    present: bool,
    /** `is_file` */
    isFile: bool,
    /** `mime_content_type` */
    mime: string,
    /** `parse_ini_file($path)`: every key, sections flattened */
    ini: map<string, string>,
    /** `parse_ini_file($path, true)`: the keys of each section */
    sections: map<string, map<string, string>>,
    /** `json_decode` of the contents */
    json: JsonText)

  /** Why `json_decode` gave up on a text: the decoding errors PHP numbers 1 to 5, 9
      and 10. */
  datatype DecodeError = Depth | StateMismatch | CtrlChar | Syntax | Utf8 | InvalidPropertyName | Utf16

  /** What `json_decode` makes of a text: a value, or the error it stopped at. */
  datatype JsonText = Decoded(value: Json) | Undecodable(reason: DecodeError)

  /** The configuration object `makeLDAPConfig` builds. */
  datatype LdapConfig = LdapConfig(user: Json, pwd: Json, baseDn: Json, host: Json, timeout: int, name: Json)

  // ---------------------------------------------------------------------------
  // Errors

  function NotFound(path: string): LdapError {
    LdapError(PlainException, "File " + path + " not found or is not readable", 0)
  }

  function NotAFile(path: string): LdapError {
    LdapError(PlainException, "provided path " + path + " is not a file", 0)
  }

  const NOT_JSON: LdapError :=
    LdapError(JsonException, "Config file is not a json file or the JSON syntaxe is invalide", 0)

  const UNSUPPORTED: LdapError :=
    LdapError(PlainException, "Unsupported config file type must be 'json' or 'ini'", 0)

  /** `json_last_error()` for each decoding error. */
  function DecodeErrorCode(e: DecodeError): int {
    match e
    case Depth => 1
    case StateMismatch => 2
    case CtrlChar => 3
    case Syntax => 4
    case Utf8 => 5
    case InvalidPropertyName => 9
    case Utf16 => 10
  }

  /** `json_last_error_msg()` for each decoding error. */
  function DecodeErrorMessage(e: DecodeError): string {
    match e
    case Depth => "Maximum stack depth exceeded"
    case StateMismatch => "State mismatch (invalid or malformed JSON)"
    case CtrlChar => "Control character error, possibly incorrectly encoded"
    case Syntax => "Syntax error"
    case Utf8 => "Malformed UTF-8 characters, possibly incorrectly encoded"
    case InvalidPropertyName => "The decoded property name is invalid"
    case Utf16 => "Single unpaired UTF-16 surrogate in unicode escape"
  }

  /** What `json_decode` throws with JSON_THROW_ON_ERROR: a JsonException carrying the
      error's message and number. */
  function DecodeFailure(e: DecodeError): (x: LdapError)
    ensures x.kind == JsonException && x.code == DecodeErrorCode(e) && x.message == DecodeErrorMessage(e)
  {
    LdapError(JsonException, DecodeErrorMessage(e), DecodeErrorCode(e))
  }

  /** Different decoding errors are told apart by their number, and so by the
      exception thrown. */
  lemma DecodeFailureDistinct(a: DecodeError, b: DecodeError)
    ensures DecodeFailure(a) == DecodeFailure(b) <==> a == b
  {
    if DecodeFailure(a) == DecodeFailure(b) {
      var n := DecodeFailure(a).code;
      assert DecodeErrorCode(a) == n == DecodeErrorCode(b);
    }
  }

  /** What `parseJSON` throws for a falsy document. `json_decode` with JSON_THROW_ON_ERROR
      leaves PHP's JSON error state alone, so `json_last_error` reports the last `json_*`
      call made without that flag: `lastJsonError` is its error, if it failed. */
  function FalsyDocument(lastJsonError: Option<DecodeError>): (x: LdapError)
    ensures x.kind == JsonException
    ensures x.code == 0 <==> lastJsonError.None?
    ensures lastJsonError.None? ==> x.message == "No error"
    ensures lastJsonError.Some? ==> x == DecodeFailure(lastJsonError.value)
  {
    match lastJsonError
    case None => LdapError(JsonException, "No error", 0)
    case Some(e) => DecodeFailure(e)
  }

  function NoSection(section: string): LdapError {
    LdapError(PlainException, "The provided section '" + section + "' does not exist", 0)
  }

  const WRONG_DRIVER: LdapError :=
    LdapError(PlainException, "Wrong 'DRIVER' key value, acceptable values are 'oci','mysql'", 0)

  function MissingKeys(kind: string, keys: seq<string>): LdapError {
    LdapError(PlainException, "You must provide a " + kind + " file with the followings keys '" + Implode(keys, "','") + "'", 0)
  }

  // ---------------------------------------------------------------------------
  // Extension dispatch

  datatype Format = JsonFile | IniFile | NotJsonFile | UnsupportedFile

  /** The branch `parseConfigFile` takes for a path: by its extension, compared as
      written, and for "json" by the mime type too. */
  function FileFormat(path: string, mime: string): (f: Format)
    ensures f == JsonFile <==> Extension(path) == "json" && mime == JSON_MIME
    ensures f == NotJsonFile <==> Extension(path) == "json" && mime != JSON_MIME
    ensures f == IniFile <==> Extension(path) == "ini"
    ensures f == UnsupportedFile <==> Extension(path) != "json" && Extension(path) != "ini"
  {
    var ext := Extension(path);
    if ext == "json" then (if mime == JSON_MIME then JsonFile else NotJsonFile)
    else if ext == "ini" then IniFile
    else UnsupportedFile
  }

  /** A file named `<stem>.<ext>` is dispatched on `<ext>` alone, whatever the
      directories and the rest of its name. */
  lemma FormatOfName(stem: string, ext: string, mime: string)
    requires '.' !in ext && '/' !in ext
    ensures FileFormat(stem + "." + ext, mime)
      == if ext == "json" then (if mime == JSON_MIME then JsonFile else NotJsonFile)
         else if ext == "ini" then IniFile
         else UnsupportedFile
  {
    ExtensionOfName(stem, ext);
  }

  /** The comparison is case-sensitive: "<stem>.JSON" is refused ... */
  lemma UpperCaseJsonRejected(stem: string, mime: string)
    ensures FileFormat(stem + ".JSON", mime) == UnsupportedFile
  {
    var ext := "JSON";
    assert ext != "json" && ext != "ini" by {
      assert ext[0] == 'J';
    }
    assert stem + ".JSON" == stem + "." + ext;
    FormatOfName(stem, ext, mime);
  }

  /** ... and so is "<stem>.INI". */
  lemma UpperCaseIniRejected(stem: string, mime: string)
    ensures FileFormat(stem + ".INI", mime) == UnsupportedFile
  {
    var ext := "INI";
    assert ext != "json" && ext != "ini" by {
      assert ext[0] == 'I';
    }
    assert stem + ".INI" == stem + "." + ext;
    FormatOfName(stem, ext, mime);
  }

  // ---------------------------------------------------------------------------
  // Sections and keys

  /** `property_exists($config, $key)`. An object is asked for the property; a string
      names a class, and no class is part of the model, so the answer is false; null, a
      boolean, an integer or an array makes PHP 8.1 throw a TypeError naming its type. */
  function PropertyExists(config: Json, key: string): (r: Result<bool>)
    ensures r.Err? <==> !config.JObject? && !config.JString?
    ensures r.Err? ==> r.error == PropertyExistsRefused(TypeName(config))
    ensures r == Ok(true) <==> config.JObject? && key in config.members
  {
    match config
    case JObject(m) => Ok(key in m)
    case JString(_) => Ok(false)
    case _ => Err(PropertyExistsRefused(TypeName(config)))
  }

  /** `$config->$key` (or `$config[$key]` on an INI array); null when it is missing. */
  function Member(config: Json, key: string): (v: Json)
    ensures config.JObject? && key in config.members ==> v == config.members[key]
    ensures !(config.JObject? && key in config.members) ==> v == JNull
  {
    if config.JObject? && key in config.members then config.members[key] else JNull
  }

  /** A list of `n` items has the keys 0 .. n - 1, which a string names in decimal. */
  predicate ListHasKey(n: nat, key: string) {
    exists k | 0 <= k < n :: NatToDecimal(k) == key
  }

  /** `sectionExist`: an array must have the section as a key (a list only has the
      keys "0", "1", ...), an object must have it as a property, and nothing is checked
      on any other value. */
  function SectionExist(config: Json, section: string): (r: Outcome)
    ensures config.JObject? ==> (r == Pass <==> section in config.members)
    ensures config.JArray? ==> (r == Pass <==> ListHasKey(|config.items|, section))
    ensures !config.JObject? && !config.JArray? ==> r == Pass
    ensures r.Fail? ==> r.error == NoSection(section)
  {
    match config
    case JObject(m) => if section in m then Pass else Fail(NoSection(section))
    case JArray(items) =>
      if ListHasKey(|items|, section) then Pass else Fail(NoSection(section))
    case _ => Pass
  }

  /** `in_array(strtolower($driver), ['oci', 'mysql'])`. */
  predicate DriverAccepted(driver: Json) {
    driver.JString? && AsciiLower(driver.s) in ["oci", "mysql"]
  }

  /** The mandatory-key loop from key `i` on: every key must exist, and a DRIVER key
      must name a supported driver. The message lists all the keys, not the missing one. */
  function KeyCheckFrom(config: Json, keys: seq<string>, i: nat, kind: string): (r: Outcome)
    requires i <= |keys|
    decreases |keys| - i
  {
    if i == |keys| then Pass
    else match PropertyExists(config, keys[i])
      case Err(e) => Fail(e)
      case Ok(present) =>
        if !present then Fail(MissingKeys(kind, keys))
        else if keys[i] == "DRIVER" && !DriverAccepted(Member(config, keys[i])) then Fail(WRONG_DRIVER)
        else KeyCheckFrom(config, keys, i + 1, kind)
  }

  function KeyCheck(config: Json, keys: seq<string>, kind: string): Outcome {
    KeyCheckFrom(config, keys, 0, kind)
  }

  /** The `foreach ($keys as $key)` loop of `parseINI` and `parseJSON`. */
  method RequireKeys(config: Json, keys: seq<string>, kind: string) returns (r: Outcome)
    ensures r == KeyCheck(config, keys, kind)
  {
    var i := 0;
    while i < |keys|
      invariant 0 <= i <= |keys|
      invariant KeyCheck(config, keys, kind) == KeyCheckFrom(config, keys, i, kind)
    {
      var key := keys[i];
      var present := PropertyExists(config, key);
      if present.Err? {
        return Fail(present.error);
      }
      if present.value {
        if key == "DRIVER" && !DriverAccepted(Member(config, key)) {
          return Fail(WRONG_DRIVER);
        }
      } else {
        return Fail(MissingKeys(kind, keys));
      }
      assert KeyCheckFrom(config, keys, i, kind) == KeyCheckFrom(config, keys, i + 1, kind);
      i := i + 1;
    }
    return Pass;
  }

  /** On an object and a key list without DRIVER, the loop passes exactly when every
      remaining key is present; otherwise it fails with the missing-keys message. */
  lemma {:induction false} KeyCheckObject(m: map<string, Json>, keys: seq<string>, i: nat, kind: string)
    requires i <= |keys| && "DRIVER" !in keys
    ensures KeyCheckFrom(JObject(m), keys, i, kind)
      == if forall j | i <= j < |keys| :: keys[j] in m then Pass else Fail(MissingKeys(kind, keys))
    decreases |keys| - i
  {
    if i < |keys| {
      assert keys[i] != "DRIVER";
      KeyCheckObject(m, keys, i + 1, kind);
      if keys[i] in m {
        assert (forall j | i <= j < |keys| :: keys[j] in m) <==> (forall j | i + 1 <= j < |keys| :: keys[j] in m);
      }
    }
  }

  predicate MandatoryPresent(m: map<string, Json>) {
    forall k | k in MANDATORY_KEY :: k in m
  }

  /** The check on the mandatory keys: on an object it passes exactly when HOST, PWD,
      USER and DN are all present, so neither the DRIVER test nor any extra key can
      make it fail; a string (a class name) lacks them; any other value makes
      `property_exists` throw. */
  lemma MandatoryCheck(config: Json, kind: string)
    ensures config.JObject? ==>
      KeyCheck(config, MANDATORY_KEY, kind) == (if MandatoryPresent(config.members) then Pass else Fail(MissingKeys(kind, MANDATORY_KEY)))
    ensures config.JString? ==> KeyCheck(config, MANDATORY_KEY, kind) == Fail(MissingKeys(kind, MANDATORY_KEY))
    ensures !config.JObject? && !config.JString? ==>
      KeyCheck(config, MANDATORY_KEY, kind) == Fail(PropertyExistsRefused(TypeName(config)))
  {
    if config.JObject? {
      KeyCheckObject(config.members, MANDATORY_KEY, 0, kind);
      assert MandatoryPresent(config.members) <==> forall j | 0 <= j < |MANDATORY_KEY| :: MANDATORY_KEY[j] in config.members;
    }
  }

  /** Keys other than the mandatory ones never change the verdict. */
  lemma ExtraKeysIgnored(m: map<string, Json>, key: string, value: Json, kind: string)
    requires key !in MANDATORY_KEY
    ensures KeyCheck(JObject(m[key := value]), MANDATORY_KEY, kind) == KeyCheck(JObject(m), MANDATORY_KEY, kind)
  {
    MandatoryCheck(JObject(m[key := value]), kind);
    MandatoryCheck(JObject(m), kind);
    assert MandatoryPresent(m[key := value]) <==> MandatoryPresent(m);
  }

  /** The DRIVER branch is live code for a key list that names DRIVER: an unsupported
      driver is refused, and the check is blind to case. */
  lemma DriverChecked(kind: string)
    ensures KeyCheck(JObject(map["DRIVER" := JString("pgsql")]), ["DRIVER"], kind) == Fail(WRONG_DRIVER)
    ensures KeyCheck(JObject(map["DRIVER" := JString("OCI")]), ["DRIVER"], kind) == Pass
  {
    assert AsciiLower("OCI") == "oci";
    assert AsciiLower("pgsql") == "pgsql";
  }

  /** With every listed key present, the loop from key `i` on fails exactly when a
      DRIVER key is still to come and its value names an unsupported driver. */
  lemma {:induction false} DriverVerdictFrom(m: map<string, Json>, keys: seq<string>, i: nat, kind: string)
    requires i <= |keys|
    requires forall j | i <= j < |keys| :: keys[j] in m
    ensures KeyCheckFrom(JObject(m), keys, i, kind) ==
      if "DRIVER" in keys[i..] && !DriverAccepted(Member(JObject(m), "DRIVER")) then Fail(WRONG_DRIVER) else Pass
    decreases |keys| - i
  {
    if i < |keys| {
      DriverVerdictFrom(m, keys, i + 1, kind);
      assert keys[i..] == [keys[i]] + keys[i + 1..];
    }
  }

  /** For a key list that names DRIVER and a configuration holding every listed key,
      the key loop passes iff the driver is supported, whatever the case of its letters,
      and otherwise fails with the wrong-driver message. */
  lemma DriverVerdict(m: map<string, Json>, keys: seq<string>, kind: string)
    requires "DRIVER" in keys
    requires forall j | 0 <= j < |keys| :: keys[j] in m
    ensures "DRIVER" in m
    ensures KeyCheck(JObject(m), keys, kind) == if DriverAccepted(m["DRIVER"]) then Pass else Fail(WRONG_DRIVER)
  {
    DriverVerdictFrom(m, keys, 0, kind);
    assert keys[0..] == keys;
  }

  // ---------------------------------------------------------------------------
  // makeLDAPConfig

  /** The section argument as a value: null when none was given. */
  function SectionValue(section: Option<string>): Json {
    if section.None? then JNull else JString(section.value)
  }

  /** `makeLDAPConfig`: USER, PWD, DN and HOST copied as they are; the timeout is
      `intval(TIMEOUT)`, 3 without one; the name is NAME, or the section argument. */
  function MakeLDAPConfig(raw: map<string, Json>, section: Option<string>): (c: LdapConfig)
    requires MandatoryPresent(raw)
    ensures c.user == raw["USER"] && c.pwd == raw["PWD"] && c.baseDn == raw["DN"] && c.host == raw["HOST"]
    ensures "TIMEOUT" !in raw ==> c.timeout == DEFAULT_TIMEOUT
    ensures "TIMEOUT" in raw ==> c.timeout == IntValOf(raw["TIMEOUT"])
    ensures c.name == if "NAME" in raw then raw["NAME"] else SectionValue(section)
  {
    assert "USER" in MANDATORY_KEY && "PWD" in MANDATORY_KEY && "DN" in MANDATORY_KEY && "HOST" in MANDATORY_KEY;
    LdapConfig(raw["USER"], raw["PWD"], raw["DN"], raw["HOST"],
      if "TIMEOUT" in raw then IntValOf(raw["TIMEOUT"]) else DEFAULT_TIMEOUT,
      if "NAME" in raw then raw["NAME"] else SectionValue(section))
  }

  /** A TIMEOUT written as a decimal number, as an INI file gives it, is read back as
      that number. */
  lemma TimeoutText(raw: map<string, Json>, section: Option<string>, n: int)
    requires MandatoryPresent(raw) && INT_MIN <= n <= INT_MAX
    requires "TIMEOUT" in raw && raw["TIMEOUT"] == JString(IntToDecimal(n))
    ensures MakeLDAPConfig(raw, section).timeout == n
  {
    IntValOfDecimal(n);
  }

  /** The configuration read from an object that passed the checks. */
  function Validated(config: Json, section: Option<string>, kind: string): (r: Result<LdapConfig>)
    ensures r.Ok? <==> config.JObject? && MandatoryPresent(config.members)
    ensures r.Ok? ==> r.value == MakeLDAPConfig(config.members, section)
    ensures r.Err? && !config.JObject? && !config.JString? ==> r.error == PropertyExistsRefused(TypeName(config))
    ensures r.Err? && (config.JObject? || config.JString?) ==> r.error == MissingKeys(kind, MANDATORY_KEY)
  {
    MandatoryCheck(config, kind);
    match KeyCheck(config, MANDATORY_KEY, kind)
    case Fail(e) => Err(e)
    case Pass => Ok(MakeLDAPConfig(config.members, section))
  }

  // ---------------------------------------------------------------------------
  // parseINI and parseJSON

  /** An INI array, as the object `makeLDAPConfig` casts it to: every value a string. */
  function IniObject(m: map<string, string>): (v: Json)
    ensures v.JObject? && v.members.Keys == m.Keys
    ensures forall k | k in m :: v.members[k] == JString(m[k])
  {
    JObject(map k | k in m :: JString(m[k]))
  }

  /** `parse_ini_file($path, true)`: one array per section. */
  function IniSections(sections: map<string, map<string, string>>): (v: Json)
    ensures v.JObject? && v.members.Keys == sections.Keys
    ensures forall s | s in sections :: v.members[s] == IniObject(sections[s])
  {
    JObject(map s | s in sections :: IniObject(sections[s]))
  }

  /** What `parseINI` returns: without a section (tested strictly against null) the
      flat keys are checked; with one, only that section's keys are. */
  function ParsedIni(file: ConfigFile, section: Option<string>): (r: Result<LdapConfig>)
    ensures section.None? ==> r == Validated(IniObject(file.ini), None, "ini")
    ensures section.Some? && section.value !in file.sections ==> r == Err(NoSection(section.value))
    ensures section.Some? && section.value in file.sections ==>
      r == Validated(IniObject(file.sections[section.value]), section, "ini")
  {
    if section.None? then Validated(IniObject(file.ini), None, "ini")
    else
      var raw := IniSections(file.sections);
      match SectionExist(raw, section.value)
      case Fail(e) => Err(e)
      case Pass => Validated(Member(raw, section.value), section, "ini")
  }

  /** `parseINI`. */
  method ParseIni(file: ConfigFile, section: Option<string>) returns (r: Result<LdapConfig>)
    ensures r == ParsedIni(file, section)
  {
    var rawConf: Json;
    if section.None? {
      rawConf := IniObject(file.ini);
    } else {
      rawConf := IniSections(file.sections);
      var exists_ := SectionExist(rawConf, section.value);
      if exists_.Fail? {
        return Err(exists_.error);
      }
      rawConf := Member(rawConf, section.value);
    }
    var check := RequireKeys(rawConf, MANDATORY_KEY, "ini");
    MandatoryCheck(rawConf, "ini");
    if check.Fail? {
      return Err(check.error);
    }
    return Ok(MakeLDAPConfig(rawConf.members, section));
  }

  /** `$section != null` is a loose test: "" counts as null, "0" does not. */
  predicate SectionGiven(section: Option<string>) {
    section.Some? && section.value != ""
  }

  /** What `parseJSON` returns: invalid text and a falsy document throw JsonException;
      with a section given, the section must exist and only its keys are checked.
      `lastJsonError` is the error state earlier `json_*` calls left behind. */
  function ParsedJson(doc: JsonText, section: Option<string>, lastJsonError: Option<DecodeError>): (r: Result<LdapConfig>)
    ensures doc.Undecodable? ==> r == Err(DecodeFailure(doc.reason))
    ensures doc.Decoded? && !Truthy(doc.value) ==> r == Err(FalsyDocument(lastJsonError))
    ensures doc.Decoded? && Truthy(doc.value) && !SectionGiven(section) ==> r == Validated(doc.value, section, "json")
    ensures doc.Decoded? && Truthy(doc.value) && SectionGiven(section) && doc.value.JObject? ==>
      r == if section.value in doc.value.members then Validated(doc.value.members[section.value], section, "json")
           else Err(NoSection(section.value))
  {
    match doc
    case Undecodable(reason) => Err(DecodeFailure(reason))
    case Decoded(raw) =>
      if !Truthy(raw) then Err(FalsyDocument(lastJsonError))
      else if !SectionGiven(section) then Validated(raw, section, "json")
      else match SectionExist(raw, section.value)
        case Fail(e) => Err(e)
        case Pass => Validated(Member(raw, section.value), section, "json")
  }

  /** `parseJSON`, given what `json_decode` made of the file. */
  method ParseJson(doc: JsonText, section: Option<string>, lastJsonError: Option<DecodeError>)
    returns (r: Result<LdapConfig>)
    ensures r == ParsedJson(doc, section, lastJsonError)
  {
    if doc.Undecodable? {
      return Err(DecodeFailure(doc.reason));
    }
    var rawConf := doc.value;
    if !Truthy(rawConf) {
      return Err(FalsyDocument(lastJsonError));
    }
    if SectionGiven(section) {
      var exists_ := SectionExist(rawConf, section.value);
      if exists_.Fail? {
        return Err(exists_.error);
      }
      rawConf := Member(rawConf, section.value);
    }
    var check := RequireKeys(rawConf, MANDATORY_KEY, "json");
    MandatoryCheck(rawConf, "json");
    if check.Fail? {
      return Err(check.error);
    }
    return Ok(MakeLDAPConfig(rawConf.members, section));
  }

  /** A JSON list is never a configuration. The empty list is falsy. Otherwise, with
      no section, `property_exists` refuses the array; a section that is not one of
      the list's indexes does not exist; and for an index such as "0" the property read
      on the list is null, which `property_exists` refuses. */
  lemma JsonListRejected(items: seq<Json>, section: Option<string>, lastJsonError: Option<DecodeError>)
    ensures ParsedJson(Decoded(JArray(items)), section, lastJsonError).Err?
    ensures items == [] ==> ParsedJson(Decoded(JArray(items)), section, lastJsonError) == Err(FalsyDocument(lastJsonError))
    ensures items != [] && !SectionGiven(section) ==>
      ParsedJson(Decoded(JArray(items)), section, lastJsonError) == Err(PropertyExistsRefused("array"))
    ensures items != [] && SectionGiven(section) && !ListHasKey(|items|, section.value) ==>
      ParsedJson(Decoded(JArray(items)), section, lastJsonError) == Err(NoSection(section.value))
    ensures items != [] && SectionGiven(section) && ListHasKey(|items|, section.value) ==>
      ParsedJson(Decoded(JArray(items)), section, lastJsonError) == Err(PropertyExistsRefused("null"))
  {
    MandatoryCheck(JArray(items), "json");
    MandatoryCheck(JNull, "json");
  }

  // ---------------------------------------------------------------------------
  // parseConfigFile

  /** `parseConfigFile`: the file must exist and be a regular file; then its extension
      picks the parser. `lastJsonError` is PHP's JSON error state before the call. */
  method ParseConfigFile(path: string, section: Option<string>, file: ConfigFile, lastJsonError: Option<DecodeError>)
    returns (r: Result<LdapConfig>)
    ensures !file.present ==> r == Err(NotFound(path))
    ensures file.present && !file.isFile ==> r == Err(NotAFile(path))
    ensures file.present && file.isFile ==>
      match FileFormat(path, file.mime)
      case JsonFile => r == ParsedJson(file.json, section, lastJsonError)
      case NotJsonFile => r == Err(NOT_JSON)
      case IniFile => r == ParsedIni(file, section)
      case UnsupportedFile => r == Err(UNSUPPORTED)
    ensures r.Ok? ==> file.present && file.isFile && (Extension(path) == "json" || Extension(path) == "ini")
  {
    if !file.present {
      return Err(NotFound(path));
    }
    if !file.isFile {
      return Err(NotAFile(path));
    }
    match FileFormat(path, file.mime)
    case JsonFile =>
      r := ParseJson(file.json, section, lastJsonError);
    case NotJsonFile =>
      r := Err(NOT_JSON);
    case IniFile =>
      r := ParseIni(file, section);
    case UnsupportedFile =>
      r := Err(UNSUPPORTED);
  }
}
