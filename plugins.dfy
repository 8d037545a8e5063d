/**
 * The plugin registry entry (Plugin), its frozen projection (PluginDTO), and
 * the path formulas they use: the platform-qualified backend executable name
 * and the rooted markdown documentation path.
 */
module Plugins {
  import opened Wrappers
  import opened Bytes
  import opened Backend
  import opened Files
  import opened Schema
  import Ascii
  import FilePaths

  /** How a plugin was installed. Any string can be stored; these four are the named ones. */
  type PluginClass = string

  const Core: PluginClass := "core"
  const Bundled: PluginClass := "bundled"
  const External: PluginClass := "external"
  const Remote: PluginClass := "remote"

  /** Produced by the external signature verifier; opaque here. */
  type SignatureStatus = string
  type SignatureType = string
  datatype SignatureError = SignatureError(pluginID: string, signatureStatus: SignatureStatus)

  /** The set of file names covered by the plugin's signature. */
  type PluginFiles = set<string>

  /** The current operating system and architecture identifiers (runtime.GOOS, runtime.GOARCH). */
  datatype Platform = Platform(goos: string, goarch: string)

  /** Where the host serves a plugin's static assets from. */
  datatype StaticRoute = StaticDir(directory: string, pluginID: string)

  // ---------------------------------------------------------------------------
  // Markdown paths

  /**
   * mdFilepath: the rooted, cleaned path of the documentation file for a name,
   * computed as the cleaning of the join of "/" and name + ".md".
   */
  function MdFilepath(mdFilename: string): (path: string)
    ensures path == FilePaths.CleanRooted(mdFilename + ".md")
    ensures path[0] == '/'
    ensures '/' !in mdFilename ==> path == "/" + mdFilename + ".md"
  {
    var joined := FilePaths.CleanRooted("/" + mdFilename + ".md");
    MdFilepathIsClean(mdFilename);
    FilePaths.CleanRooted(joined[1..])
  }

  /** Cleaning the join of "/" and a file name gives the file name's cleaned rooted path. */
  lemma MdFilepathIsClean(mdFilename: string)
    ensures var joined := FilePaths.CleanRooted("/" + mdFilename + ".md");
      FilePaths.CleanRooted(joined[1..]) == FilePaths.CleanRooted(mdFilename + ".md")
    ensures '/' !in mdFilename ==> FilePaths.CleanRooted(mdFilename + ".md") == "/" + mdFilename + ".md"
  {
    FilePaths.CleanLeadingSlash(mdFilename + ".md");
    assert "/" + mdFilename + ".md" == "/" + (mdFilename + ".md");
    FilePaths.CleanIdempotent(mdFilename + ".md");
    if '/' !in mdFilename {
      assert '/' !in mdFilename + ".md";
      FilePaths.CleanPlain(mdFilename + ".md");
    }
  }

  /** A markdown path never climbs out of the plugin's root: no element of it is "..". */
  lemma MdFilepathStaysInRoot(mdFilename: string)
    ensures var elems := FilePaths.Split(MdFilepath(mdFilename)[1..]);
      forall i :: 0 <= i < |elems| ==> elems[i] != ".."
  {
    var cleaned := FilePaths.CleanElements(mdFilename + ".md");
    if cleaned == [] {
      assert MdFilepath(mdFilename)[1..] == [];
    } else {
      assert forall i :: 0 <= i < |cleaned| ==> '/' !in cleaned[i];
      FilePaths.SplitJoin(cleaned);
    }
  }

  // ---------------------------------------------------------------------------
  // Executable names

  /** What follows the base name: _os_arch, lower-cased, with ".exe" on Windows. */
  function PlatformSuffix(platform: Platform): string
  {
    var os := Ascii.Lower(platform.goos);
    var extension := if os == "windows" then ".exe" else "";
    "_" + os + "_" + Ascii.Lower(platform.goarch) + extension
  }

  /** The file name of a backend executable: base_os_arch, with ".exe" on Windows. */
  function ExecutableFileName(base: string, platform: Platform): string
  {
    base + PlatformSuffix(platform)
  }

  /** pluginExecutable: the full path of the platform's executable if that file exists, else "". */
  function PluginExecutable(fs: FS, base: string, platform: Platform): (path: string)
    ensures var name := ExecutableFileName(base, platform);
      path == if name in fs.fullPaths then fs.fullPaths[name] else ""
  {
    var (fp, found) := fs.FullPath(ExecutableFileName(base, platform));
    if !found then "" else fp
  }

  /** The executable name is the base, then the lower-cased platform, then ".exe" exactly on Windows. */
  lemma ExecutableFileNameShape(base: string, platform: Platform)
    ensures ExecutableFileName(base, platform)[..|base|] == base
    ensures Ascii.Lower(platform.goos) == "windows" ==>
      ExecutableFileName(base, platform) == base + "_windows_" + Ascii.Lower(platform.goarch) + ".exe"
    ensures Ascii.Lower(platform.goos) != "windows" ==>
      ExecutableFileName(base, platform) == base + "_" + Ascii.Lower(platform.goos) + "_" + Ascii.Lower(platform.goarch)
  {
  }

  /** Only the lower-cased platform identifiers matter. */
  lemma ExecutableFileNameIgnoresPlatformCase(base: string, platform: Platform)
    ensures ExecutableFileName(base, platform)
         == ExecutableFileName(base, Platform(Ascii.Lower(platform.goos), Ascii.Lower(platform.goarch)))
    ensures ExecutableFileName(base, platform)
         == ExecutableFileName(base, Platform(Ascii.Upper(platform.goos), Ascii.Upper(platform.goarch)))
  {
    Ascii.CaseIdempotent(platform.goos);
    Ascii.CaseIdempotent(platform.goarch);
    Ascii.CaseAbsorbs(platform.goos);
    Ascii.CaseAbsorbs(platform.goarch);
  }

  /** On one platform, different base names give different executable names. */
  lemma ExecutableFileNameDeterminesBase(base1: string, base2: string, platform: Platform)
    requires ExecutableFileName(base1, platform) == ExecutableFileName(base2, platform)
    ensures base1 == base2
  {
    var name := ExecutableFileName(base1, platform);
    assert |base1| == |base2|;
    assert base1 == name[..|base1|];
  }

  lemma LinuxExecutableName()
    ensures ExecutableFileName("gpx_foo", Platform("linux", "amd64")) == "gpx_foo_linux_amd64"
  {
    assert Ascii.Lower("linux") == "linux" && Ascii.Lower("amd64") == "amd64";
  }

  lemma WindowsExecutableName()
    ensures ExecutableFileName("gpx_foo", Platform("windows", "amd64")) == "gpx_foo_windows_amd64.exe"
  {
    assert Ascii.Lower("windows") == "windows" && Ascii.Lower("amd64") == "amd64";
  }

  /** The platform identifiers are lower-cased before use. */
  lemma MixedCaseWindowsExecutableName()
    ensures ExecutableFileName("gpx_foo", Platform("Windows", "AMD64")) == "gpx_foo_windows_amd64.exe"
  {
    assert Ascii.Lower("Windows") == "windows" && Ascii.Lower("AMD64") == "amd64";
  }

  lemma DarwinExecutableName()
    ensures ExecutableFileName("gpx_foo", Platform("darwin", "arm64")) == "gpx_foo_darwin_arm64"
  {
    assert Ascii.Lower("darwin") == "darwin" && Ascii.Lower("arm64") == "arm64";
  }

  /** The executable of a plugin is found for its platform only. */
  lemma ExecutableExamples(fs: FS)
    requires fs.fullPaths == map[
      "gpx_foo_linux_amd64" := "/var/lib/plugins/foo/gpx_foo_linux_amd64",
      "gpx_foo_windows_amd64.exe" := "/var/lib/plugins/foo/gpx_foo_windows_amd64.exe"]
    ensures PluginExecutable(fs, "gpx_foo", Platform("linux", "amd64")) == "/var/lib/plugins/foo/gpx_foo_linux_amd64"
    ensures PluginExecutable(fs, "gpx_foo", Platform("windows", "amd64")) == "/var/lib/plugins/foo/gpx_foo_windows_amd64.exe"
    ensures PluginExecutable(fs, "gpx_foo", Platform("Windows", "AMD64")) == "/var/lib/plugins/foo/gpx_foo_windows_amd64.exe"
    ensures PluginExecutable(fs, "gpx_foo", Platform("darwin", "arm64")) == ""
  {
    LinuxExecutableName();
    WindowsExecutableName();
    MixedCaseWindowsExecutableName();
    DarwinExecutableName();
    assert "gpx_foo_darwin_arm64" != "gpx_foo_linux_amd64" && "gpx_foo_darwin_arm64" != "gpx_foo_windows_amd64.exe" by {
      assert "gpx_foo_darwin_arm64"[8] != "gpx_foo_linux_amd64"[8];
      assert "gpx_foo_darwin_arm64"[8] != "gpx_foo_windows_amd64.exe"[8];
    }
  }

  // ---------------------------------------------------------------------------
  // The frozen projection

  /**
   * PluginDTO: a value copy of a registry entry's manifest, app and trust
   * fields, with no way back to the live client. files is None for a DTO built
   * by NewPluginDTO, whose file accessor the source leaves nil.
   */
  datatype PluginDTO = PluginDTO(
    jsonData: JSONData,
    files: Option<FS>,
    pluginClass: PluginClass,
    includedInAppID: string,
    defaultNavURL: string,
    pinned: bool,
    signature: SignatureStatus,
    signatureType: SignatureType,
    signatureOrg: string,
    signedFiles: PluginFiles,
    modulePath: string,
    baseURL: string,
    supportsStreaming: bool)
  {
    /** Core plugins ship with the host and cannot be upgraded on their own. */
    predicate Upgradeable()
      ensures Upgradeable() <==> pluginClass != Core
    {
      !IsCorePlugin()
    }

    predicate SupportsStreaming()
      ensures SupportsStreaming() <==> supportsStreaming
    {
      supportsStreaming
    }

    predicate IsApp()
      ensures IsApp() <==> jsonData.pluginType == App
      ensures IsApp() ==> IsValid(jsonData.pluginType)
    {
      jsonData.pluginType == App
    }

    predicate IsCorePlugin()
      ensures IsCorePlugin() <==> pluginClass == Core
      ensures IsCorePlugin() ==> pluginClass != Bundled && pluginClass != External && pluginClass != Remote
    {
      pluginClass == Core
    }

    predicate IsExternalPlugin()
      ensures IsExternalPlugin() <==> pluginClass == External
      ensures IsExternalPlugin() ==> pluginClass != Core && pluginClass != Bundled && pluginClass != Remote
    {
      pluginClass == External
    }

    predicate IsSecretsManager()
      ensures IsSecretsManager() <==> jsonData.pluginType == SecretsManager
      ensures IsSecretsManager() ==> IsValid(jsonData.pluginType)
    {
      jsonData.pluginType == SecretsManager
    }

    /**
     * The named documentation file: the upper-cased name's file if it exists,
     * else the lower-cased name's, else no bytes at all.
     */
    function Markdown(name: string): (md: seq<byte>)
      requires files.Some?
      ensures var fs, upper, lower := files.value, MdFilepath(Ascii.Upper(name)), MdFilepath(Ascii.Lower(name));
        md == if fs.Exists(upper) then fs.Read(upper)
              else if fs.Exists(lower) then fs.Read(lower)
              else []
    {
      var fs := files.value;
      var first := MdFilepath(Ascii.Upper(name));
      var path := if fs.Exists(first) then first else MdFilepath(Ascii.Lower(name));
      if !fs.Exists(path) then [] else fs.Read(path)
    }
  }

  /** NewPluginDTO: a projection of just a manifest and a class; every other field is Go's zero value. */
  function NewPluginDTO(jsonData: JSONData, pluginClass: PluginClass): (d: PluginDTO)
    ensures d.jsonData == jsonData && d.pluginClass == pluginClass
    ensures d.files.None? && !d.SupportsStreaming() && d.signedFiles == {}
    ensures d.Upgradeable() <==> pluginClass != Core
  {
    PluginDTO(jsonData, None, pluginClass, "", "", false, "", "", "", {}, "", "", false)
  }

  /** Markdown is case-insensitive: a name and its upper- and lower-cased forms find the same file. */
  lemma MarkdownIgnoresCase(d: PluginDTO, name: string)
    requires d.files.Some?
    ensures d.Markdown(Ascii.Upper(name)) == d.Markdown(name)
    ensures d.Markdown(Ascii.Lower(name)) == d.Markdown(name)
  {
    Ascii.CaseIdempotent(name);
    Ascii.CaseAbsorbs(name);
  }

  /** "README" falls back to readme.md, and finds nothing when neither file exists. */
  lemma MarkdownReadmeExamples(d: PluginDTO)
    requires d.files.Some? && "/README.md" !in d.files.value.contents
    ensures "/readme.md" in d.files.value.contents ==> d.Markdown("README") == d.files.value.contents["/readme.md"]
    ensures "/readme.md" !in d.files.value.contents ==> d.Markdown("README") == [] && |d.Markdown("README")| == 0
  {
    ReadmeUpperPath();
    ReadmeLowerPath();
  }

  lemma ReadmeUpperPath()
    ensures MdFilepath(Ascii.Upper("README")) == "/README.md"
  {
    assert Ascii.Upper("README") == "README";
    assert '/' !in "README";
  }

  lemma ReadmeLowerPath()
    ensures MdFilepath(Ascii.Lower("README")) == "/readme.md"
  {
    assert Ascii.Lower("README") == "readme";
    assert '/' !in "readme";
  }

  // ---------------------------------------------------------------------------
  // The registry entry

  /** Plugin: the mutable, authoritative record of one installed plugin. */
  class Plugin {
    var jsonData: JSONData
    var files: FS
    var pluginClass: PluginClass

    // app fields
    var includedInAppID: string
    var defaultNavURL: string
    var pinned: bool

    // signature fields
    var signature: SignatureStatus
    var signatureType: SignatureType
    var signatureOrg: string
    var parent: Plugin?
    var children: seq<Plugin>
    var signedFiles: PluginFiles
    var signatureError: Option<SignatureError>

    // SystemJS fields
    var modulePath: string
    var baseURL: string

    var client: Option<BackendClient>

    /** An entry as the loader first builds it: no client, every other field at its zero value. */
    constructor (jsonData: JSONData, files: FS, pluginClass: PluginClass)
      ensures this.jsonData == jsonData && this.files == files && this.pluginClass == pluginClass
      ensures client.None? && Client() == (null, false)
      ensures parent == null && children == [] && signedFiles == {} && signatureError.None?
    {
      this.jsonData := jsonData;
      this.files := files;
      this.pluginClass := pluginClass;
      includedInAppID, defaultNavURL, pinned := "", "", false;
      signature, signatureType, signatureOrg := "", "", "";
      parent, children, signedFiles, signatureError := null, [], {}, None;
      modulePath, baseURL := "", "";
      client := None;
    }

    /** The objects a passthrough may change: the attached client, if any. */
    ghost function ClientFrame(): set<object>
      reads this
    {
      if client.Some? then {client.value} else {}
    }

    function PluginID(): (id: string)
      reads this
      ensures id == jsonData.id && id == ToDTO().jsonData.id
    {
      jsonData.id
    }

    // ---- lifecycle

    method Start(ctx: Context) returns (err: Option<Error>)
      modifies ClientFrame()
      ensures client.None? ==> err == Some(NoClientToStart(jsonData.id))
      ensures client.Some? ==>
        && client.value.history == old(client.value.history) + [StartCall(ctx)]
        && err == client.value.behaviour.start(client.value.history)
    {
      if client.None? {
        return Some(NoClientToStart(jsonData.id));
      }
      err := client.value.Start(ctx);
    }

    method Stop(ctx: Context) returns (err: Option<Error>)
      modifies ClientFrame()
      ensures client.None? ==> err.None?
      ensures client.Some? ==>
        && client.value.history == old(client.value.history) + [StopCall(ctx)]
        && err == client.value.behaviour.stop(client.value.history)
    {
      if client.None? {
        return None;
      }
      err := client.value.Stop(ctx);
    }

    function IsManaged(): (managed: bool)
      reads this, ClientFrame()
      ensures client.None? ==> !managed
      ensures client.Some? ==> managed == client.value.IsManaged()
    {
      if client.Some? then client.value.IsManaged() else false
    }

    method Decommission() returns (err: Option<Error>)
      modifies ClientFrame()
      ensures client.None? ==> err.None?
      ensures client.Some? ==>
        && client.value.history == old(client.value.history) + [DecommissionCall]
        && err == client.value.behaviour.decommission(client.value.history)
    {
      if client.Some? {
        err := client.value.Decommission();
        return;
      }
      return None;
    }

    function IsDecommissioned(): (decommissioned: bool)
      reads this, ClientFrame()
      ensures client.None? ==> !decommissioned
      ensures client.Some? ==> decommissioned == client.value.IsDecommissioned()
    {
      if client.Some? then client.value.IsDecommissioned() else false
    }

    function Exited(): (exited: bool)
      reads this, ClientFrame()
      ensures client.None? ==> !exited
      ensures client.Some? ==> exited == client.value.Exited()
    {
      if client.Some? then client.value.Exited() else false
    }

    // ---- passthroughs to the backend

    method QueryData(ctx: Context, req: QueryDataRequest) returns (r: Reply<QueryDataResponse>)
      modifies ClientFrame()
      ensures client.None? ==> r == Unavailable()
      ensures client.Some? ==>
        && client.value.history == old(client.value.history) + [QueryDataCall(ctx, req)]
        && r == client.value.behaviour.queryData(client.value.history)
    {
      var (pluginClient, ok) := Client();
      if !ok {
        return Unavailable();
      }
      r := pluginClient.QueryData(ctx, req);
    }

    method CallResource(ctx: Context, req: CallResourceRequest, sender: CallResourceResponseSender)
      returns (err: Option<Error>)
      modifies ClientFrame()
      ensures client.None? ==> err == Some(PluginUnavailable)
      ensures client.Some? ==>
        && client.value.history == old(client.value.history) + [CallResourceCall(ctx, req, sender)]
        && err == client.value.behaviour.callResource(client.value.history)
    {
      var (pluginClient, ok) := Client();
      if !ok {
        return Some(PluginUnavailable);
      }
      err := pluginClient.CallResource(ctx, req, sender);
    }

    method CheckHealth(ctx: Context, req: CheckHealthRequest) returns (r: Reply<CheckHealthResult>)
      modifies ClientFrame()
      ensures client.None? ==> r == Unavailable()
      ensures client.Some? ==>
        && client.value.history == old(client.value.history) + [CheckHealthCall(ctx, req)]
        && r == client.value.behaviour.checkHealth(client.value.history)
    {
      var (pluginClient, ok) := Client();
      if !ok {
        return Unavailable();
      }
      r := pluginClient.CheckHealth(ctx, req);
    }

    method CollectMetrics(ctx: Context, req: CollectMetricsRequest) returns (r: Reply<CollectMetricsResult>)
      modifies ClientFrame()
      ensures client.None? ==> r == Unavailable()
      ensures client.Some? ==>
        && client.value.history == old(client.value.history) + [CollectMetricsCall(ctx, req)]
        && r == client.value.behaviour.collectMetrics(client.value.history)
    {
      var (pluginClient, ok) := Client();
      if !ok {
        return Unavailable();
      }
      r := pluginClient.CollectMetrics(ctx, req);
    }

    method SubscribeStream(ctx: Context, req: SubscribeStreamRequest) returns (r: Reply<SubscribeStreamResponse>)
      modifies ClientFrame()
      ensures client.None? ==> r == Unavailable()
      ensures client.Some? ==>
        && client.value.history == old(client.value.history) + [SubscribeStreamCall(ctx, req)]
        && r == client.value.behaviour.subscribeStream(client.value.history)
    {
      var (pluginClient, ok) := Client();
      if !ok {
        return Unavailable();
      }
      r := pluginClient.SubscribeStream(ctx, req);
    }

    method PublishStream(ctx: Context, req: PublishStreamRequest) returns (r: Reply<PublishStreamResponse>)
      modifies ClientFrame()
      ensures client.None? ==> r == Unavailable()
      ensures client.Some? ==>
        && client.value.history == old(client.value.history) + [PublishStreamCall(ctx, req)]
        && r == client.value.behaviour.publishStream(client.value.history)
    {
      var (pluginClient, ok) := Client();
      if !ok {
        return Unavailable();
      }
      r := pluginClient.PublishStream(ctx, req);
    }

    method RunStream(ctx: Context, req: RunStreamRequest, sender: StreamSender) returns (err: Option<Error>)
      modifies ClientFrame()
      ensures client.None? ==> err == Some(PluginUnavailable)
      ensures client.Some? ==>
        && client.value.history == old(client.value.history) + [RunStreamCall(ctx, req, sender)]
        && err == client.value.behaviour.runStream(client.value.history)
    {
      var (pluginClient, ok) := Client();
      if !ok {
        return Some(PluginUnavailable);
      }
      err := pluginClient.RunStream(ctx, req, sender);
    }

    // ---- the client handle

    /**
     * Attaches c, replacing any client attached before; registering nil leaves
     * the entry without a client. Nothing else changes.
     */
    method RegisterClient(c: BackendClient?)
      modifies this`client
      ensures c != null ==> client == Some(c) && Client() == (c, true)
      ensures c == null ==> client.None? && Client() == (null, false)
      ensures ToDTO() == old(ToDTO()).(supportsStreaming := c != null)
    {
      client := if c == null then None else Some(c);
    }

    /** The attached client and true, or nil and false when there is none. */
    function Client(): (r: (BackendClient?, bool))
      reads this
      ensures r.1 <==> client.Some?
      ensures r.1 ==> r.0 == client.value
      ensures !r.1 ==> r.0 == null
    {
      if client.Some? then (client.value, true) else (null, false)
    }

    // ---- files

    /**
     * The full path of this plugin's backend executable for the platform, or ""
     * when the plugin's files hold none. Renderers and secrets managers use
     * reserved base names, every other kind the manifest's executable.
     */
    function ExecutablePath(platform: Platform): (path: string)
      reads this
      ensures var base :=
          if jsonData.pluginType == Renderer then "plugin_start"
          else if jsonData.pluginType == SecretsManager then "secrets_plugin_start"
          else jsonData.executable;
        var name := ExecutableFileName(base, platform);
        path == if name in files.fullPaths then files.fullPaths[name] else ""
    {
      if IsRenderer() then PluginExecutable(files, "plugin_start", platform)
      else if IsSecretsManager() then PluginExecutable(files, "secrets_plugin_start", platform)
      else PluginExecutable(files, jsonData.executable, platform)
    }

    /** The trust manifest's bytes, or none when it cannot be opened or read. */
    function Manifest(): (m: seq<byte>)
      reads this
      ensures "MANIFEST.txt" in files.contents ==> m == files.contents["MANIFEST.txt"]
      ensures "MANIFEST.txt" !in files.contents ==> m == []
    {
      match files.Open("MANIFEST.txt")
      case None => []
      case Some(bytes) => bytes
    }

    /** Core plugins have no static route; every other plugin is served from its root directory. */
    function StaticRoute(): (route: Option<StaticRoute>)
      reads this
      ensures route.None? <==> pluginClass == Core
      ensures route.Some? ==> route.value.directory == files.Base() && route.value.pluginID == jsonData.id
    {
      if IsCorePlugin() then None else Some(StaticDir(files.Base(), jsonData.id))
    }

    // ---- export

    /** The frozen projection: a value copy of the exported fields and whether a client is attached. */
    function ToDTO(): (d: PluginDTO)
      reads this
      ensures d.jsonData == jsonData && d.files == Some(files) && d.pluginClass == pluginClass
      ensures d.signedFiles == signedFiles
      ensures d.includedInAppID == includedInAppID && d.defaultNavURL == defaultNavURL && d.pinned == pinned
      ensures d.signature == signature && d.signatureType == signatureType && d.signatureOrg == signatureOrg
      ensures d.modulePath == modulePath && d.baseURL == baseURL
      ensures d.SupportsStreaming() <==> client.Some?
      ensures d.Upgradeable() <==> !IsCorePlugin()
      ensures d.IsCorePlugin() == IsCorePlugin() && d.IsExternalPlugin() == IsExternalPlugin()
      ensures d.IsApp() == IsApp() && d.IsSecretsManager() == IsSecretsManager()
    {
      PluginDTO(
        jsonData, Some(files), pluginClass,
        includedInAppID, defaultNavURL, pinned,
        signature, signatureType, signatureOrg, signedFiles,
        modulePath, baseURL,
        client.Some?)
    }

    // ---- kind and classification

    predicate IsRenderer()
      reads this
      ensures IsRenderer() <==> jsonData.pluginType == Renderer
      ensures IsRenderer() ==> IsValid(jsonData.pluginType)
    {
      jsonData.pluginType == "renderer"
    }

    predicate IsSecretsManager()
      reads this
      ensures IsSecretsManager() <==> jsonData.pluginType == SecretsManager
      ensures IsSecretsManager() ==> IsValid(jsonData.pluginType)
    {
      jsonData.pluginType == "secretsmanager"
    }

    predicate IsDataSource()
      reads this
      ensures IsDataSource() <==> jsonData.pluginType == DataSource
      ensures IsDataSource() ==> IsValid(jsonData.pluginType)
    {
      jsonData.pluginType == "datasource"
    }

    predicate IsPanel()
      reads this
      ensures IsPanel() <==> jsonData.pluginType == Panel
      ensures IsPanel() ==> IsValid(jsonData.pluginType)
    {
      jsonData.pluginType == "panel"
    }

    predicate IsApp()
      reads this
      ensures IsApp() <==> jsonData.pluginType == App
      ensures IsApp() ==> IsValid(jsonData.pluginType)
    {
      jsonData.pluginType == "app"
    }

    predicate IsCorePlugin()
      reads this
      ensures IsCorePlugin() <==> pluginClass == Core
      ensures IsCorePlugin() ==> pluginClass != Bundled && pluginClass != External && pluginClass != Remote
    {
      pluginClass == Core
    }

    predicate IsBundledPlugin()
      reads this
      ensures IsBundledPlugin() <==> pluginClass == Bundled
      ensures IsBundledPlugin() ==> pluginClass != Core && pluginClass != External && pluginClass != Remote
    {
      pluginClass == Bundled
    }

    predicate IsExternalPlugin()
      reads this
      ensures IsExternalPlugin() <==> pluginClass == External
      ensures IsExternalPlugin() ==> pluginClass != Core && pluginClass != Bundled && pluginClass != Remote
    {
      pluginClass == External
    }
  }

  /** Exactly one kind predicate holds of a plugin with a valid type, and none of one with an unknown type. */
  lemma KindPredicatesPartitionValidTypes(p: Plugin)
    ensures IsValid(p.jsonData.pluginType) <==>
      (p.IsDataSource() || p.IsPanel() || p.IsApp() || p.IsRenderer() || p.IsSecretsManager())
    ensures !(p.IsDataSource() && p.IsPanel()) && !(p.IsDataSource() && p.IsApp())
    ensures !(p.IsDataSource() && p.IsRenderer()) && !(p.IsDataSource() && p.IsSecretsManager())
    ensures !(p.IsPanel() && p.IsApp()) && !(p.IsPanel() && p.IsRenderer()) && !(p.IsPanel() && p.IsSecretsManager())
    ensures !(p.IsApp() && p.IsRenderer()) && !(p.IsApp() && p.IsSecretsManager())
    ensures !(p.IsRenderer() && p.IsSecretsManager())
  {
  }

  /** At most one classification predicate holds, and none for a remote plugin. */
  lemma ClassPredicatesExclusive(p: Plugin)
    ensures !(p.IsCorePlugin() && p.IsBundledPlugin()) && !(p.IsCorePlugin() && p.IsExternalPlugin())
    ensures !(p.IsBundledPlugin() && p.IsExternalPlugin())
    ensures p.pluginClass == Remote ==> !p.IsCorePlugin() && !p.IsBundledPlugin() && !p.IsExternalPlugin()
    ensures p.IsCorePlugin() ==> p.StaticRoute().None? && !p.ToDTO().Upgradeable()
  {
  }
}
