# Plugin registry entry and its frozen projection

This project models the in-memory record a plugin host keeps for one installed
plugin (`pkg/plugins/plugins.go`) and proves properties of that model in Dafny.

- **Plugin** (`Plugins.Plugin`, a class): the mutable registry entry. It holds the
  parsed manifest, a file accessor, the install class, the app and signature
  fields, parent and child links, and an optional backend client
  (`client: Option<BackendClient>`). `RegisterClient` overwrites that field.
  Every lifecycle call and every RPC passthrough branches on whether a client
  is present.
- **Backend client** (`Backend.BackendClient`): the live connection to the
  plugin's process. Its implementation is not part of this model. A client
  records every call it receives in `history`. Its answer to a call is an
  arbitrary function (its `Behaviour`) of that history, with the current call
  last. So what is proved about a plugin holds for every possible client: with
  a client, each passthrough forwards exactly one call and returns the client's
  answer unchanged; without one, it returns `PluginUnavailable` and changes
  nothing.
- **PluginDTO** (`Plugins.PluginDTO`, a datatype): the read-only projection made
  by `ToDTO`. In the model it is a value, so reassigning the entry's fields
  or its client never changes a projection exported earlier.
  `supportsStreaming` records whether a client was attached at export time.
- **Schema** (`Schema`): the manifest (`JSONData`), the plugin-kind enumeration
  with `IsValid`, and the dashboard filter `DashboardIncludes`. The filter is a
  loop proved equal to a reference filter. That filter is proved to keep
  exactly the dashboard entries, in their original order.
- **Paths**: the backend executable name `base_os_arch[.exe]`, chosen by plugin
  kind and looked up in the file accessor. The markdown path `mdFilepath` is
  modelled as Go's path cleaning of a rooted, `/`-separated path
  (`FilePaths`). The cleaned path is proved rooted, free of `..` elements, and
  equal to `"/" + name + ".md"` for names without a separator.

The platform (`runtime.GOOS`, `runtime.GOARCH`) is a `Platform` parameter. The
file accessor is a value (`Files.FS`): its root directory, the contents of the
files it can read (keyed by the path exactly as passed), and the full path it
reports for each existing name. Case mapping is ASCII (`Ascii`).

Where the documented intent and the code differ, the model follows the code:
- the entry has seven passthroughs (query, resource call, health check, metrics,
  stream subscribe, publish and run), not five;
- `IsSecretsManager` reads the manifest type on both the entry and the
  projection.
- with no client, `Decommission` returns no error, yet `IsDecommissioned`
  stays false afterwards (pkg/plugins/plugins.go:275-287);
- `RegisterClient` accepts nil, which detaches the client: `Client()` is then
  `(nil, false)` and every passthrough is unavailable
  (pkg/plugins/plugins.go:352-354).

## Model

| member | source | states |
|---|---|---|
| `Plugins.Plugin.constructor` | pkg/plugins/plugins.go:22-50 | a new entry has no client, so `Client()` is `(nil, false)`; no parent, no children, no signed files |
| `Plugins.Plugin.Start` | pkg/plugins/plugins.go:254-259 | with no client it fails with the "no plugin client" error for the plugin's id; with a client it forwards one `Start` call and returns the client's answer |
| `Plugins.Plugin.Stop` | pkg/plugins/plugins.go:261-266 | with no client it succeeds; with a client it forwards one `Stop` call and returns the client's answer |
| `Plugins.Plugin.IsManaged` | pkg/plugins/plugins.go:268-273 | false with no client; otherwise what the client reports |
| `Plugins.Plugin.Decommission` | pkg/plugins/plugins.go:275-280 | with no client it succeeds (so repeating it never fails); with a client it forwards one call and returns the client's answer |
| `Plugins.Plugin.IsDecommissioned` | pkg/plugins/plugins.go:282-287 | false with no client; otherwise what the client reports |
| `Plugins.Plugin.Exited` | pkg/plugins/plugins.go:289-294 | false with no client; otherwise what the client reports |
| `Plugins.Plugin.QueryData` | pkg/plugins/plugins.go:296-302 | no client: `(nil, ErrPluginUnavailable)` and no state changes; client: exactly one forwarded call, the client's reply verbatim |
| `Plugins.Plugin.CallResource` | pkg/plugins/plugins.go:304-310 | no client: `ErrPluginUnavailable`; client: one forwarded call with the same request and sender, the client's error verbatim |
| `Plugins.Plugin.CheckHealth` | pkg/plugins/plugins.go:312-318 | no client: `(nil, ErrPluginUnavailable)`; client: one forwarded call, its reply verbatim |
| `Plugins.Plugin.CollectMetrics` | pkg/plugins/plugins.go:320-326 | no client: `(nil, ErrPluginUnavailable)`; client: one forwarded call, its reply verbatim |
| `Plugins.Plugin.SubscribeStream` | pkg/plugins/plugins.go:328-334 | no client: `(nil, ErrPluginUnavailable)`; client: one forwarded call, its reply verbatim |
| `Plugins.Plugin.PublishStream` | pkg/plugins/plugins.go:336-342 | no client: `(nil, ErrPluginUnavailable)`; client: one forwarded call, its reply verbatim |
| `Plugins.Plugin.RunStream` | pkg/plugins/plugins.go:344-350 | no client: `ErrPluginUnavailable`; client: one forwarded call with the same request and sender, its error verbatim |
| `Plugins.Plugin.RegisterClient` | pkg/plugins/plugins.go:352-354 | afterwards `Client()` is `(c, true)`, whatever was registered before; registering nil leaves no client, so `Client()` is `(nil, false)`; only the client field changes, so the exported projection differs only in `supportsStreaming`, which is true exactly when `c` is not nil |
| `Plugins.Plugin.PluginID` | pkg/plugins/plugins.go:242-244 | the manifest's id, which is also the id of the exported projection |
| `Plugins.Plugin.IsRenderer` | pkg/plugins/plugins.go:424-426 | true exactly when the manifest type is `renderer`, which is a valid kind |
| `Plugins.Plugin.IsSecretsManager` | pkg/plugins/plugins.go:428-430 | true exactly when the manifest type is `secretsmanager`, which is a valid kind |
| `Plugins.Plugin.IsDataSource` | pkg/plugins/plugins.go:432-434 | true exactly when the manifest type is `datasource`, which is a valid kind |
| `Plugins.Plugin.IsPanel` | pkg/plugins/plugins.go:436-438 | true exactly when the manifest type is `panel`, which is a valid kind |
| `Plugins.Plugin.IsApp` | pkg/plugins/plugins.go:440-442 | true exactly when the manifest type is `app`, which is a valid kind |
| `Plugins.Plugin.IsCorePlugin` | pkg/plugins/plugins.go:444-446 | true exactly for class `core`, and then the class is none of the others |
| `Plugins.Plugin.IsBundledPlugin` | pkg/plugins/plugins.go:448-450 | true exactly for class `bundled`, and then the class is none of the others |
| `Plugins.Plugin.IsExternalPlugin` | pkg/plugins/plugins.go:452-454 | true exactly for class `external`, and then the class is none of the others |
| `Plugins.PluginDTO.Upgradeable` | pkg/plugins/plugins.go:84-86 | true exactly when the class is not `core` |
| `Plugins.PluginDTO.SupportsStreaming` | pkg/plugins/plugins.go:88-90 | the streaming flag recorded at export time |
| `Plugins.PluginDTO.IsApp` | pkg/plugins/plugins.go:92-94 | true exactly when the manifest type is `app`, which is a valid kind |
| `Plugins.PluginDTO.IsCorePlugin` | pkg/plugins/plugins.go:96-98 | true exactly for class `core`, and then the class is none of the others |
| `Plugins.PluginDTO.IsExternalPlugin` | pkg/plugins/plugins.go:100-102 | true exactly for class `external`, and then the class is none of the others |
| `Plugins.PluginDTO.IsSecretsManager` | pkg/plugins/plugins.go:104-106 | true exactly when the manifest type is `secretsmanager`, which is a valid kind |
| `Plugins.Plugin.Client` | pkg/plugins/plugins.go:356-361 | `(client, true)` when one is attached, `(nil, false)` otherwise |
| `Plugins.Plugin.ExecutablePath` | pkg/plugins/plugins.go:363-373 | base `plugin_start` for renderers, `secrets_plugin_start` for secrets managers, the manifest's executable otherwise; the result is the full path of that base's platform file if it exists, else `""` |
| `Plugins.PluginExecutable` | pkg/plugins/plugins.go:375-388 | the full path of `base_os_arch[.exe]` when the accessor has that file, otherwise the empty string |
| `Plugins.ExecutableFileNameShape` | pkg/plugins/plugins.go:376-383 | the name starts with the base; it is `base_windows_arch.exe` when the lower-cased os is `windows`, and `base_os_arch` with both lower-cased otherwise |
| `Plugins.ExecutableFileNameIgnoresPlatformCase` | pkg/plugins/plugins.go:376-383 | the name depends only on the lower-cased platform identifiers |
| `Plugins.ExecutableFileNameDeterminesBase` | pkg/plugins/plugins.go:383 | on one platform, two bases that give the same file name are equal |
| `Plugins.LinuxExecutableName` | pkg/plugins/plugins.go:376-383 | `gpx_foo` on linux/amd64 is `gpx_foo_linux_amd64` |
| `Plugins.WindowsExecutableName` | pkg/plugins/plugins.go:376-383 | `gpx_foo` on windows/amd64 is `gpx_foo_windows_amd64.exe` |
| `Plugins.MixedCaseWindowsExecutableName` | pkg/plugins/plugins.go:376-383 | the identifiers `Windows`/`AMD64` give the same name as `windows`/`amd64` |
| `Plugins.DarwinExecutableName` | pkg/plugins/plugins.go:376-383 | `gpx_foo` on darwin/arm64 is `gpx_foo_darwin_arm64`, with no extension |
| `Plugins.ExecutableExamples` | pkg/plugins/plugins.go:375-388 | with only the linux and windows files present, each platform finds its own file and darwin finds none (`""`) |
| `Plugins.Plugin.Manifest` | pkg/plugins/plugins.go:456-467 | the contents of `MANIFEST.txt` if it can be opened, else no bytes |
| `Plugins.Plugin.StaticRoute` | pkg/plugins/plugins.go:416-422 | absent exactly for core plugins; otherwise `{Directory: Files.Base(), PluginID: ID}` |
| `Plugins.Plugin.ToDTO` | pkg/plugins/plugins.go:398-414 | copies the manifest, files, class, signed files, app, signature and SystemJS fields; `SupportsStreaming()` exactly when a client is attached; `Upgradeable()` is `!IsCorePlugin()`; the projection's class and kind predicates agree with the entry's |
| `Plugins.NewPluginDTO` | pkg/plugins/plugins.go:77-86 | keeps the manifest and class, with no accessor, no streaming and no signed files; `Upgradeable()` exactly when the class is not core |
| `Plugins.PluginDTO.Markdown` | pkg/plugins/plugins.go:108-122 | the upper-cased name's file if it exists, else the lower-cased name's, else zero bytes |
| `Plugins.MarkdownIgnoresCase` | pkg/plugins/plugins.go:108-122 | a name and its upper- and lower-cased forms find the same documentation |
| `Plugins.MarkdownReadmeExamples` | pkg/plugins/plugins.go:108-122 | with no `/README.md`, `Markdown("README")` returns `/readme.md` when present, and zero bytes when neither exists |
| `Plugins.ReadmeUpperPath` | pkg/plugins/plugins.go:109 | the first path tried for `README` is `/README.md` |
| `Plugins.ReadmeLowerPath` | pkg/plugins/plugins.go:112 | the fallback path for `README` is `/readme.md` |
| `Plugins.MdFilepath` | pkg/plugins/plugins.go:147-149 | the cleaned rooted path of `name.md`; it starts with `/`; it is exactly `"/" + name + ".md"` for a name without a separator |
| `Plugins.MdFilepathIsClean` | pkg/plugins/plugins.go:148 | cleaning the join of `/` and `name.md` once more changes nothing |
| `Plugins.MdFilepathStaysInRoot` | pkg/plugins/plugins.go:147-149 | no element of a markdown path is `..`, so it cannot leave the plugin's root |
| `FilePaths.CleanRooted` | pkg/plugins/plugins.go:148 | the cleaned form of a rooted path starts with `/` and lists only plain elements (none empty, `.` or `..`) |
| `FilePaths.CleanIdempotent` | pkg/plugins/plugins.go:148 | cleaning is idempotent |
| `FilePaths.JoinSplit` | pkg/plugins/plugins.go:148 | joining the elements of a split path gives the path back |
| `Ascii.Upper` | pkg/plugins/plugins.go:109 | same length as the input; each character is upper-cased on its own |
| `Ascii.Lower` | pkg/plugins/plugins.go:112 | same length as the input; each character is lower-cased on its own (also used for the platform identifiers at lines 376 and 383) |
| `Ascii.CaseAbsorbs` | pkg/plugins/plugins.go:108-115 | lower-casing an upper-cased name gives the lower-cased name, and the same the other way round |
| `Schema.IsValid` | pkg/plugins/plugins.go:496-502 | true exactly for the kinds in `PluginTypes` |
| `Schema.PluginTypesAreDistinct` | pkg/plugins/plugins.go:478-494 | the kind enumeration has exactly five distinct members |
| `Schema.IsValidExamples` | pkg/plugins/plugins.go:496-502 | `datasource` and `secretsmanager` are valid; `bogus`, the empty string and `DataSource` are not |
| `Schema.DashboardsOf` | pkg/plugins/plugins.go:194-203 | reference filter: it keeps only dashboard entries and is never longer than its input |
| `Schema.DashboardIncludes` | pkg/plugins/plugins.go:194-203 | the loop builds exactly the reference filter of the includes |
| `Schema.DashboardPositions` | pkg/plugins/plugins.go:194-203 | each kept entry comes from a strictly later position of the includes than the one before it |
| `Schema.DashboardsOfIsSubsequence` | pkg/plugins/plugins.go:194-203 | the result is a subsequence of the includes, so order is preserved |
| `Schema.DashboardsOfCounts` | pkg/plugins/plugins.go:194-203 | each dashboard entry occurs as often as in the includes; no other entry occurs |
| `Schema.DashboardsOfNone` | pkg/plugins/plugins.go:194-203 | with no dashboard entries the result is empty |
| `Schema.DashboardsOfExample` | pkg/plugins/plugins.go:194-203 | `[dashboard a, page b, dashboard c]` gives `[a, c]` |
| `Plugins.KindPredicatesPartitionValidTypes` | pkg/plugins/plugins.go:424-442 | some kind predicate holds exactly when the type is valid; no two hold at once |
| `Plugins.ClassPredicatesExclusive` | pkg/plugins/plugins.go:444-454 | at most one class predicate holds and none for `remote`; a core plugin has no static route and is not upgradeable |

## Left out

- `PluginDTO.File` (pkg/plugins/plugins.go:124-145): streaming file I/O with modification times.
- `Plugins.PluginDTO.Markdown`: read errors are not modelled, because the accessor's `Read` cannot fail in this model; the source ignores such an error and returns whatever `Read` gave.
- `Plugins.PluginDTO.Markdown` requires an accessor: a projection from `NewPluginDTO` has a nil accessor, and the source would dereference it.
- `Plugins.Plugin.Manifest`: a failing `io.ReadAll` is merged with a failing `Open`; both give no bytes.
- `Plugins.Plugin.ToDTO`: the source copies the struct shallowly, so the projection's `Includes` pointers, `Routes`, `Roles`, the `QueryOptions` map and `SignedFiles` still share storage with the entry; the model's projection is a value, so updates made in place through that shared storage are not modelled.
- `Plugins.Plugin.ToDTO`: the type assertion `p.client.(backend.StreamHandler)` is not modelled; `supportsStreaming` is only the client-present test.
- The behaviour of the backend client itself: starting, stopping, decommissioning, whether decommissioning is idempotent, and what the RPCs compute. The backend plugin implementation is not part of this model; its answers are the arbitrary `Behaviour` functions.
- The text of errors: `ErrPluginUnavailable` is defined outside this file, and the `Start` error is kept as the value `NoClientToStart(id)` rather than its formatted message.
- Context cancellation and the callbacks through which resource calls and streams send data: both are passed on as opaque values.
- The accessor's own path handling: file lookups use the path exactly as given, and `FullPath` is a table of names to absolute paths.
- Windows path separators in `filepath.Clean` and `filepath.Join`: only `/` is a separator here.
- Unicode case mapping in `strings.ToUpper` and `strings.ToLower`: only ASCII letters change case.
- `Schema.DashboardIncludes`: the source returns the same `*Includes` pointers; the model copies values, so sharing of the pointed-to entries is not modelled. A nil entry, which would make the source panic, cannot occur either.
- The `Renderer` and `SecretsManager` client fields and the logger with `Logger`/`SetLogger`: plumbing with no behaviour in this file.
- `Route`, `Header`, `URLParam`, `JWTTokenAuth`, and the manifest fields `Info`, `Dependencies`, `Routes` and `Roles`: plain data with no behaviour here. Their definitions and the JSON struct tags are not modelled.
- `Includes` keeps only its name, path, type, role and navigation flags; its other fields are defined outside this file.
- `Parent` and `Children` are kept as fields. No operation of this file uses them.
- Concurrent access to the client field around `RegisterClient`.
- pkg/services/store/kind/playlist/summary_test.go: its subject, a playlist summary builder, is not part of this model.
