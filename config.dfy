/** Reading the launcher's configuration file and looking up the package
    (AppXLauncher.cpp, lines 4-60). The file system, the UTF-8 decoder, the JSON
    parser and the package manager are the host's: the model receives them as values. */
module Config {
  import opened Paths
  import opened Utf8File
  import opened Platform

  /** What the launcher takes from its surroundings. */
  datatype Host = Host(
    exePath: Path,                                       // g_exePath, from GetModuleFsPath
    configName: string,                                  // CONFIG_NAME
    files: map<Path, seq<byte>>,                         // the files that can be opened
    utf8ToUtf16: seq<byte> -> string,                    // Utf8ToUtf16
    parseJson: string -> Option<map<string, string>>,    // JsonObject::Parse, string members
    toPath: string -> Path,                              // fs::path from a wide string
    packages: map<string, string>)                       // family name to the first package's full name

  /** The configuration file: `g_exePath` with its filename replaced by CONFIG_NAME. */
  function ConfigPath(host: Host): (p: Path)
    ensures p.rootName == host.exePath.rootName
    ensures p.rootDirectory == host.exePath.rootDirectory
    ensures p.parts == RemoveFilename(host.exePath).parts + [host.configName]
  {
    ReplaceFilename(host.exePath, Path([], false, [host.configName]))
  }

  /** `LoadUtf8FileToUtf16`: a file that cannot be opened is an error, an empty file is
      the empty text, and any other file is decoded after its byte-order mark is
      skipped: the decoder gets `Utf8File.WithoutBom`, the bytes that the skip of
      lines 24-29, `Utf8File.SkipBom`, is proved to leave. */
  function LoadUtf8FileToUtf16(host: Host, name: Path): (r: Result<string>)
    ensures r.Err? <==> name !in host.files
    ensures r.Err? ==> r.error == FileOpenFailed
    ensures name in host.files && |host.files[name]| == 0 ==> r == Ok([])
    ensures name in host.files && HasBom(host.files[name]) ==>
      r == Ok(host.utf8ToUtf16(host.files[name][3..]))
    ensures name in host.files && |host.files[name]| > 0 && !HasBom(host.files[name]) ==>
      r == Ok(host.utf8ToUtf16(host.files[name]))
  {
    if name !in host.files then Err(FileOpenFailed)
    else if |host.files[name]| == 0 then Ok([])
    else Ok(host.utf8ToUtf16(WithoutBom(host.files[name])))
  }

  /** The configuration text: an error while reading, or empty text, ends the run. */
  function ConfigText(host: Host): (r: Result<string>)
    ensures LoadUtf8FileToUtf16(host, ConfigPath(host)).Err? ==>
      r == Err(LoadUtf8FileToUtf16(host, ConfigPath(host)).error)
    ensures LoadUtf8FileToUtf16(host, ConfigPath(host)).Ok? ==>
      var text := LoadUtf8FileToUtf16(host, ConfigPath(host)).value;
      r == if |text| == 0 then Err(EmptyConfig) else Ok(text)
    ensures ConfigPath(host) !in host.files ==> r == Err(FileOpenFailed)
    ensures ConfigPath(host) in host.files && |host.files[ConfigPath(host)]| == 0 ==>
      r == Err(EmptyConfig)
  {
    var str := LoadUtf8FileToUtf16(host, ConfigPath(host));
    if str.Err? then Err(str.error)
    else if |str.value| == 0 then Err(EmptyConfig)
    else Ok(str.value)
  }

  /** `GetNamedString`: a missing member throws. */
  function NamedString(json: map<string, string>, key: string): (r: Result<string>)
    ensures r.Ok? <==> key in json
    ensures r.Ok? ==> r.value == json[key]
    ensures r.Err? ==> r.error == KeyMissing(key)
  {
    if key in json then Ok(json[key]) else Err(KeyMissing(key))
  }

  /** The parsed configuration object. */
  function ConfigJson(host: Host): (r: Result<map<string, string>>)
    ensures ConfigText(host).Err? ==> r == Err(ConfigText(host).error)
    ensures ConfigText(host).Ok? && host.parseJson(ConfigText(host).value).None? ==>
      r == Err(JsonParseFailed)
    ensures ConfigText(host).Ok? && host.parseJson(ConfigText(host).value).Some? ==>
      r == Ok(host.parseJson(ConfigText(host).value).value)
    ensures r.Ok? ==> ConfigText(host).Ok? && host.parseJson(ConfigText(host).value) == Some(r.value)
  {
    var str := ConfigText(host);
    if str.Err? then Err(str.error)
    else match host.parseJson(str.value)
      case None => Err(JsonParseFailed)
      case Some(json) => Ok(json)
  }

  /** `ReadPackageConfig` (lines 34-45): the package family name and the application
      id, in that order of lookup. */
  function ReadPackageConfig(host: Host): (r: Result<(string, string)>)
    ensures r.Ok? <==> (ConfigJson(host).Ok? &&
      "PackageFamilyName" in ConfigJson(host).value && "AppId" in ConfigJson(host).value)
    ensures r.Ok? ==> r.value == (ConfigJson(host).value["PackageFamilyName"], ConfigJson(host).value["AppId"])
    ensures ConfigJson(host).Err? ==> r == Err(ConfigJson(host).error)
    ensures ConfigJson(host).Ok? && "PackageFamilyName" !in ConfigJson(host).value ==>
      r == Err(KeyMissing("PackageFamilyName"))
    ensures (ConfigJson(host).Ok? && "PackageFamilyName" in ConfigJson(host).value &&
      "AppId" !in ConfigJson(host).value) ==> r == Err(KeyMissing("AppId"))
  {
    var json := ConfigJson(host);
    if json.Err? then Err(json.error)
    else
      var family := NamedString(json.value, "PackageFamilyName");
      if family.Err? then Err(family.error)
      else
        var appId := NamedString(json.value, "AppId");
        if appId.Err? then Err(appId.error)
        else Ok((family.value, appId.value))
  }

  /** `ReadDllConfig` (lines 47-55): the module to inject, as written in the file. */
  function ReadDllConfig(host: Host): (r: Result<string>)
    ensures r.Ok? <==> ConfigJson(host).Ok? && "InjectDll" in ConfigJson(host).value
    ensures r.Ok? ==> r.value == ConfigJson(host).value["InjectDll"]
    ensures ConfigJson(host).Err? ==> r == Err(ConfigJson(host).error)
    ensures ConfigJson(host).Ok? && "InjectDll" !in ConfigJson(host).value ==>
      r == Err(KeyMissing("InjectDll"))
  {
    var json := ConfigJson(host);
    if json.Err? then Err(json.error) else NamedString(json.value, "InjectDll")
  }

  /** `FindFirstPackage` (lines 57-60): the full name of the first package of the
      family installed for the user; an empty result throws. */
  function FindFirstPackage(host: Host, familyName: string): (r: Result<string>)
    ensures r.Ok? <==> familyName in host.packages
    ensures r.Ok? ==> r.value == host.packages[familyName]
    ensures r.Err? ==> r.error == PackageNotFound(familyName)
  {
    if familyName in host.packages then Ok(host.packages[familyName])
    else Err(PackageNotFound(familyName))
  }

  /** A byte-order mark makes no difference to what is read: the file with the mark in
      front of `rest` reads exactly as `rest` would. */
  lemma BomMakesNoDifference(host: Host, rest: seq<byte>)
    requires |rest| > 0 && !HasBom(rest)
    ensures LoadUtf8FileToUtf16(host.(files := host.files[ConfigPath(host) := Utf8Bom + rest]), ConfigPath(host)) ==
      LoadUtf8FileToUtf16(host.(files := host.files[ConfigPath(host) := rest]), ConfigPath(host))
  {
    BomPrefixRemoved(rest);
  }

  /** Both readers fail on an empty configuration file, before any JSON is parsed. */
  lemma EmptyConfigRejected(host: Host)
    requires ConfigPath(host) in host.files && |host.files[ConfigPath(host)]| == 0
    ensures ReadPackageConfig(host) == Err(EmptyConfig)
    ensures ReadDllConfig(host) == Err(EmptyConfig)
  {
  }

  /** A configuration file holding nothing but a byte-order mark is rejected as empty
      when the decoder maps no bytes to no text. */
  lemma BomOnlyConfigRejected(host: Host)
    requires ConfigPath(host) in host.files && host.files[ConfigPath(host)] == Utf8Bom
    requires host.utf8ToUtf16([]) == []
    ensures ReadPackageConfig(host) == Err(EmptyConfig)
    ensures ReadDllConfig(host) == Err(EmptyConfig)
  {
    assert Utf8Bom[3..] == [];
  }
}
