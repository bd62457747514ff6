/**
 * The launcher facade of the test tools: each create_* helper picks a key into
 * the launcher registry, either the requested platform or a host default, and
 * calls the class found under that key with the workspace and arguments.
 *
 * Two fallback styles exist. The game and server helpers keep the requested
 * platform only if it is on their list of supported launchers; the other five
 * keep it whenever the registry has a class for it. Logging and deprecation
 * warnings are kept as two booleans.
 */
module LauncherHelper {
  import opened Wrappers

  /** The game launchers the test tools support (GAME_LAUNCHERS). */
  const GameLaunchers: seq<string> := ["windows", "linux", "android"]

  /** The server launchers the test tools support (SERVER_LAUNCHERS). */
  const ServerLaunchers: seq<string> := ["windows_dedicated", "linux_dedicated"]

  /** A launcher class registered under some platform key. */
  datatype LauncherClass = LauncherClass(name: string)

  /** The registry of launcher classes by platform key; a class is always truthy. */
  type Registry = map<string, LauncherClass>

  /** The host-dependent default keys, fixed by the operating system the tools run on. */
  datatype HostDefaults = HostDefaults(
    platform: string,
    dedicatedServer: string,
    editor: string,
    materialEditor: string,
    genericExecutable: string)

  /** The workspace handed to a launcher; opaque here. */
  datatype Workspace = Workspace(id: nat)

  /** The optional argument list (`args=None` by default). */
  type LauncherArgs = Option<seq<string>>

  /** The call that builds the launcher: a class and its constructor arguments. */
  datatype ConstructorCall =
    | WithArgs(cls: LauncherClass, workspace: Workspace, args: LauncherArgs)
    | WithExeAndArgs(cls: LauncherClass, workspace: Workspace, exeFileName: string, args: LauncherArgs)

  /** Calling the missing class that a registry lookup returned raises a type error. */
  datatype LaunchError = NoneNotCallable(key: string)

  /** What a helper does: the key it looks up, whether it logged the fallback warning, whether it warned of deprecation, and the launcher it builds. */
  datatype Outcome = Outcome(key: string, warned: bool, deprecated: bool, launcher: Result<ConstructorCall, LaunchError>)

  datatype Selection = Selection(key: string, warned: bool)

  datatype Helper =
    | Launcher
    | GameLauncher
    | DedicatedLauncher
    | ServerLauncher
    | Editor
    | MaterialEditor
    | GenericLauncher

  // ---------------------------------------------------------------------
  // The two fallback styles and the constructor call

  /** Keeps `platform` if it is on `supported`; otherwise logs a warning and takes `fallback`. */
  function SelectFromList(supported: seq<string>, platform: string, fallback: string): Selection {
    if platform in supported then Selection(platform, false) else Selection(fallback, true)
  }

  /** Keeps `platform` if the registry has a class for it; otherwise logs a warning and takes `fallback`. */
  function SelectFromRegistry(registry: Registry, platform: string, fallback: string): Selection {
    if platform in registry then Selection(platform, false) else Selection(fallback, true)
  }

  /** Looks `key` up and calls the class with (workspace, args). */
  function Construct(registry: Registry, key: string, workspace: Workspace, args: LauncherArgs): Result<ConstructorCall, LaunchError> {
    if key in registry then Ok(WithArgs(registry[key], workspace, args)) else Err(NoneNotCallable(key))
  }

  /** Looks `key` up and calls the class with (workspace, exe_file_name, args). */
  function ConstructGeneric(registry: Registry, key: string, workspace: Workspace, exeFileName: string, args: LauncherArgs): Result<ConstructorCall, LaunchError> {
    if key in registry then Ok(WithExeAndArgs(registry[key], workspace, exeFileName, args)) else Err(NoneNotCallable(key))
  }

  // ---------------------------------------------------------------------
  // The seven helpers

  /** Deprecated; falls back to the host platform when the registry has no class for the request. */
  function CreateLauncher(registry: Registry, host: HostDefaults, workspace: Workspace, platform: string, args: LauncherArgs): (o: Outcome)
    ensures o.deprecated
    ensures o.warned <==> platform !in registry
    ensures o.key == (if platform in registry then platform else host.platform)
    ensures o.launcher.Ok? <==> platform in registry || host.platform in registry
    ensures o.launcher.Ok? ==> o.launcher.value == WithArgs(registry[o.key], workspace, args)
  {
    var s := SelectFromRegistry(registry, platform, host.platform);
    Outcome(s.key, s.warned, true, Construct(registry, s.key, workspace, args))
  }

  /**
   * Keeps a supported game platform even when the registry lacks it (the
   * call then fails without a warning); any other request falls back to the
   * host platform with a warning.
   */
  function CreateGameLauncher(registry: Registry, host: HostDefaults, workspace: Workspace, platform: string, args: LauncherArgs): (o: Outcome)
    ensures !o.deprecated
    ensures o.warned <==> platform !in GameLaunchers
    ensures o.key == (if platform in GameLaunchers then platform else host.platform)
    ensures o.launcher.Ok? <==> o.key in registry
    ensures o.launcher.Ok? ==> o.launcher.value == WithArgs(registry[o.key], workspace, args)
  {
    var s := SelectFromList(GameLaunchers, platform, host.platform);
    Outcome(s.key, s.warned, false, Construct(registry, s.key, workspace, args))
  }

  /** Deprecated; falls back to the host's dedicated server when the registry has no class for the request. */
  function CreateDedicatedLauncher(registry: Registry, host: HostDefaults, workspace: Workspace, platform: string, args: LauncherArgs): (o: Outcome)
    ensures o.deprecated
    ensures o.warned <==> platform !in registry
    ensures o.key == (if platform in registry then platform else host.dedicatedServer)
    ensures o.launcher.Ok? <==> platform in registry || host.dedicatedServer in registry
    ensures o.launcher.Ok? ==> o.launcher.value == WithArgs(registry[o.key], workspace, args)
  {
    var s := SelectFromRegistry(registry, platform, host.dedicatedServer);
    Outcome(s.key, s.warned, true, Construct(registry, s.key, workspace, args))
  }

  /** Keeps a supported server platform; any other request falls back to the host's dedicated server with a warning. */
  function CreateServerLauncher(registry: Registry, host: HostDefaults, workspace: Workspace, platform: string, args: LauncherArgs): (o: Outcome)
    ensures !o.deprecated
    ensures o.warned <==> platform !in ServerLaunchers
    ensures o.key == (if platform in ServerLaunchers then platform else host.dedicatedServer)
    ensures o.launcher.Ok? <==> o.key in registry
    ensures o.launcher.Ok? ==> o.launcher.value == WithArgs(registry[o.key], workspace, args)
  {
    var s := SelectFromList(ServerLaunchers, platform, host.dedicatedServer);
    Outcome(s.key, s.warned, false, Construct(registry, s.key, workspace, args))
  }

  /** Falls back to the host's editor when the registry has no class for the request. */
  function CreateEditor(registry: Registry, host: HostDefaults, workspace: Workspace, platform: string, args: LauncherArgs): (o: Outcome)
    ensures !o.deprecated
    ensures o.warned <==> platform !in registry
    ensures o.key == (if platform in registry then platform else host.editor)
    ensures o.launcher.Ok? <==> platform in registry || host.editor in registry
    ensures o.launcher.Ok? ==> o.launcher.value == WithArgs(registry[o.key], workspace, args)
  {
    var s := SelectFromRegistry(registry, platform, host.editor);
    Outcome(s.key, s.warned, false, Construct(registry, s.key, workspace, args))
  }

  /** Falls back to the host's material editor when the registry has no class for the request. */
  function CreateMaterialEditor(registry: Registry, host: HostDefaults, workspace: Workspace, platform: string, args: LauncherArgs): (o: Outcome)
    ensures !o.deprecated
    ensures o.warned <==> platform !in registry
    ensures o.key == (if platform in registry then platform else host.materialEditor)
    ensures o.launcher.Ok? <==> platform in registry || host.materialEditor in registry
    ensures o.launcher.Ok? ==> o.launcher.value == WithArgs(registry[o.key], workspace, args)
  {
    var s := SelectFromRegistry(registry, platform, host.materialEditor);
    Outcome(s.key, s.warned, false, Construct(registry, s.key, workspace, args))
  }

  /**
   * Deprecated; falls back to the host's generic executable launcher when the
   * registry has no class for the request, and passes the executable's name
   * to the class.
   */
  function CreateGenericLauncher(registry: Registry, host: HostDefaults, workspace: Workspace, platform: string, exeFileName: string, args: LauncherArgs): (o: Outcome)
    ensures o.deprecated
    ensures o.warned <==> platform !in registry
    ensures o.key == (if platform in registry then platform else host.genericExecutable)
    ensures o.launcher.Ok? <==> platform in registry || host.genericExecutable in registry
    ensures o.launcher.Ok? ==> o.launcher.value == WithExeAndArgs(registry[o.key], workspace, exeFileName, args)
  {
    var s := SelectFromRegistry(registry, platform, host.genericExecutable);
    Outcome(s.key, s.warned, true, ConstructGeneric(registry, s.key, workspace, exeFileName, args))
  }

  // ---------------------------------------------------------------------
  // The helpers side by side

  /** Calls helper `h`; `exeFileName` matters only to the generic launcher. */
  function Create(h: Helper, registry: Registry, host: HostDefaults, workspace: Workspace, platform: string, exeFileName: string, args: LauncherArgs): Outcome {
    match h
    case Launcher => CreateLauncher(registry, host, workspace, platform, args)
    case GameLauncher => CreateGameLauncher(registry, host, workspace, platform, args)
    case DedicatedLauncher => CreateDedicatedLauncher(registry, host, workspace, platform, args)
    case ServerLauncher => CreateServerLauncher(registry, host, workspace, platform, args)
    case Editor => CreateEditor(registry, host, workspace, platform, args)
    case MaterialEditor => CreateMaterialEditor(registry, host, workspace, platform, args)
    case GenericLauncher => CreateGenericLauncher(registry, host, workspace, platform, exeFileName, args)
  }

  /** Whether `h` keeps the request by list membership rather than by registry lookup. */
  predicate UsesSupportList(h: Helper) {
    h == GameLauncher || h == ServerLauncher
  }

  /** The list a list-membership helper checks. */
  function SupportList(h: Helper): seq<string>
    requires UsesSupportList(h)
  {
    if h == GameLauncher then GameLaunchers else ServerLaunchers
  }

  /** The host default each helper falls back to. */
  function Fallback(h: Helper, host: HostDefaults): string {
    match h
    case Launcher => host.platform
    case GameLauncher => host.platform
    case DedicatedLauncher => host.dedicatedServer
    case ServerLauncher => host.dedicatedServer
    case Editor => host.editor
    case MaterialEditor => host.materialEditor
    case GenericLauncher => host.genericExecutable
  }

  /** Whether the request qualifies for `h` under that helper's own fallback style. */
  predicate Qualifies(h: Helper, registry: Registry, platform: string) {
    if UsesSupportList(h) then platform in SupportList(h) else platform in registry
  }

  /**
   * Every helper logs the fallback warning exactly when the request does not
   * qualify, and then looks up its own host default; on the direct path it
   * looks up the requested key itself.
   */
  lemma WarnsExactlyOnFallback(h: Helper, registry: Registry, host: HostDefaults, workspace: Workspace, platform: string, exeFileName: string, args: LauncherArgs)
    ensures var o := Create(h, registry, host, workspace, platform, exeFileName, args);
      && (o.warned <==> !Qualifies(h, registry, platform))
      && (o.warned ==> o.key == Fallback(h, host))
      && (!o.warned ==> o.key == platform)
  {
  }

  /** Exactly the launcher, dedicated-launcher and generic-launcher helpers are deprecated, whatever they are asked. */
  lemma DeprecatedExactly(h: Helper, registry: Registry, host: HostDefaults, workspace: Workspace, platform: string, exeFileName: string, args: LauncherArgs)
    ensures Create(h, registry, host, workspace, platform, exeFileName, args).deprecated
      <==> h == Launcher || h == DedicatedLauncher || h == GenericLauncher
  {
  }

  /**
   * A helper builds a launcher exactly when the registry has a class under the
   * key it looked up; the class is that entry, the workspace and arguments are
   * passed unchanged, and only the generic launcher also passes the
   * executable's name.
   */
  lemma ConstructorShape(h: Helper, registry: Registry, host: HostDefaults, workspace: Workspace, platform: string, exeFileName: string, args: LauncherArgs)
    ensures var o := Create(h, registry, host, workspace, platform, exeFileName, args);
      && (o.launcher.Ok? <==> o.key in registry)
      && (o.launcher.Err? ==> o.launcher.error == NoneNotCallable(o.key))
      && (o.launcher.Ok? ==>
            && o.launcher.value.cls == registry[o.key]
            && o.launcher.value.workspace == workspace
            && o.launcher.value.args == args
            && (o.launcher.value.WithExeAndArgs? <==> h == GenericLauncher)
            && (o.launcher.value.WithExeAndArgs? ==> o.launcher.value.exeFileName == exeFileName))
  {
  }

  /**
   * The game helper and the deprecated launcher helper pick the same key
   * exactly when the request is the host platform or list membership and
   * registry membership agree on it.
   */
  lemma GameAndLegacyLauncherAgree(registry: Registry, host: HostDefaults, workspace: Workspace, platform: string, args: LauncherArgs)
    ensures CreateGameLauncher(registry, host, workspace, platform, args).key
         == CreateLauncher(registry, host, workspace, platform, args).key
      <==> platform == host.platform || (platform in GameLaunchers <==> platform in registry)
  {
  }

  /**
   * The server helper and the deprecated dedicated helper pick the same key
   * exactly when the request is the host's dedicated server or list
   * membership and registry membership agree on it.
   */
  lemma ServerAndDedicatedLauncherAgree(registry: Registry, host: HostDefaults, workspace: Workspace, platform: string, args: LauncherArgs)
    ensures CreateServerLauncher(registry, host, workspace, platform, args).key
         == CreateDedicatedLauncher(registry, host, workspace, platform, args).key
      <==> platform == host.dedicatedServer || (platform in ServerLaunchers <==> platform in registry)
  {
  }

  /**
   * A list helper asked for a supported platform that the registry lacks
   * fails without logging any warning (a registry-lookup helper would have
   * fallen back instead).
   */
  lemma SupportedButUnregisteredFailsSilently(h: Helper, registry: Registry, host: HostDefaults, workspace: Workspace, platform: string, exeFileName: string, args: LauncherArgs)
    requires UsesSupportList(h)
    requires platform in SupportList(h) && platform !in registry
    ensures var o := Create(h, registry, host, workspace, platform, exeFileName, args);
      o.launcher.Err? && !o.warned
  {
  }

  /** When the registry covers every supported game platform and the host platform, the game helper always builds a launcher. */
  lemma GameLauncherTotalOnCoveringRegistry(registry: Registry, host: HostDefaults, workspace: Workspace, platform: string, args: LauncherArgs)
    requires forall k :: k in GameLaunchers ==> k in registry
    requires host.platform in registry
    ensures CreateGameLauncher(registry, host, workspace, platform, args).launcher.Ok?
  {
  }

  // ---------------------------------------------------------------------
  // Default arguments

  /**
   * The platform each helper uses when none is passed, as declared: every
   * helper defaults to its own host fallback except the server helper, which
   * is declared with the host game platform. The generic helper has no default.
   */
  function DeclaredDefaultPlatform(h: Helper, host: HostDefaults): Option<string> {
    if h == ServerLauncher then Some(host.platform) else DefaultPlatform(h, host)
  }

  /** The default the helpers evidently intend: each helper's own host fallback. */
  function DefaultPlatform(h: Helper, host: HostDefaults): Option<string> {
    if h == GenericLauncher then None else Some(Fallback(h, host))
  }

  /**
   * With its declared default, the server helper always takes the fallback
   * branch and logs the warning, because the host game platform is never a
   * server launcher key.
   */
  lemma DeclaredServerDefaultAlwaysWarns(registry: Registry, host: HostDefaults, workspace: Workspace, args: LauncherArgs)
    requires host.platform !in ServerLaunchers
    ensures DeclaredDefaultPlatform(ServerLauncher, host).Some?
    ensures var o := CreateServerLauncher(registry, host, workspace, DeclaredDefaultPlatform(ServerLauncher, host).value, args);
      o.warned && o.key == host.dedicatedServer
  {
  }

  /**
   * With the intended default, a helper called without a platform takes the
   * direct path, with no warning, whenever its host default qualifies.
   */
  lemma DefaultPlatformTakesDirectPath(h: Helper, registry: Registry, host: HostDefaults, workspace: Workspace, args: LauncherArgs)
    requires h != GenericLauncher
    requires Qualifies(h, registry, Fallback(h, host))
    ensures DefaultPlatform(h, host).Some?
    ensures var o := Create(h, registry, host, workspace, DefaultPlatform(h, host).value, "", args);
      !o.warned && o.key == Fallback(h, host)
  {
  }
}
