# Multiplayer session lifecycle and launcher selection, modelled in Dafny

This project models two small, sequential pieces of the Open 3D Engine.

**The multiplayer system component's session lifecycle** (`multiplayer.dfy`,
module `Multiplayer`). A `Session` object holds:
- the agent role;
- whether the network interface exists;
- the connection record bound to each connection id, whose replication
  manager owns zero or one replication window over a controlled entity handle;
- the notifications delivered so far;
- the validation failures reported so far;
- the registered player spawner, if any.

The spawner is an injected `Spawner` object. It holds the host's player entity
handle, a spawn-request counter and a player counter. The four notification
channels (SessionInit, SessionShutdown, ConnectionAcquired, EndpointDisconnected)
form an append-only event log. A subscriber that counts deliveries is a fold
over that log. The test fixture's ConnectionAcquired subscriber is modelled as
written: a 32-bit counter that adds each delivered id with wrap-around.

The component's implementation is not part of this model. Its behaviour is the
behaviour its test suite pins. `multiplayer_system_tests.dfy` (module
`MultiplayerSystemTests`) replays each test scenario on a fresh `Session`. Each
scenario method returns the values the test observes, and its postcondition
states the values the test expects. Every expectation is proved from the
`Session` contracts alone.

**The launcher facade of the test tools** (`launcher_helper.dfy`, module
`LauncherHelper`). Each of the seven `create_*` helpers is a pure function
over:
- the launcher registry, a `map<string, LauncherClass>`;
- the host defaults;
- the workspace, the requested platform and the arguments.

Each function returns the key it looked up, whether it logged the fallback
warning, whether it warned of deprecation, and the constructor call it makes.
A helper that calls a missing class yields `Err(NoneNotCallable(key))`.

There are two fallback styles:
- list membership: `create_game_launcher` and `create_server_launcher`;
- registry miss: the other five helpers.

Lemmas compare the two styles and state, for all seven helpers at once, when
each one warns, which helpers are deprecated, and what each one constructs.

`wrappers.dfy` holds the `Option` and `Result` datatypes.

## Model

| member | source | states |
|---|---|---|
| `Multiplayer.Session.constructor` | Gems/Multiplayer/Code/Tests/MultiplayerSystemTests.cpp:50-61 | A new component is uninitialized, has no interface, no records, no notifications and no failures, and holds the given spawner (or none) |
| `Multiplayer.Session.GetAgentType` | Gems/Multiplayer/Code/Tests/MultiplayerSystemTests.cpp:134-141 | Returns the current agent role |
| `Multiplayer.Session.InitializeMultiplayer` | Gems/Multiplayer/Code/Tests/MultiplayerSystemTests.cpp:134-143 | The role becomes the one passed. SessionInit is delivered on the first call only, so after any sequence of calls it has fired exactly once. Records and failures are untouched. A client-server role adds one spawn request and nothing else on the spawner |
| `Multiplayer.Session.OnConnect` | Gems/Multiplayer/Code/Tests/MultiplayerSystemTests.cpp:161-166 | Binds a fresh, windowless record to the connection. Delivers exactly one ConnectionAcquired whose datum carries the connection's own id, so the id sum grows by that id. No other channel changes |
| `Multiplayer.Session.SetConnectionData` | Gems/Multiplayer/Code/Tests/MultiplayerSystemTests.cpp:183-187 | Binds the given record as the connection's user data, replacing any earlier one, with no notification and no failure |
| `Multiplayer.Session.OnDisconnect` | Gems/Multiplayer/Code/Tests/MultiplayerSystemTests.cpp:146-156 | Removes the connection's record, if any, and adds the failures charged to it. Delivers EndpointDisconnected exactly once even for a connection that never connected. SessionShutdown is delivered exactly when `FiresSessionShutdown` holds. The role, the interface, ConnectionAcquired and the id sum are unchanged |
| `Multiplayer.Session.HandleRequest` | Gems/Multiplayer/Code/Tests/MultiplayerSystemTests.cpp:229-238 | A connect handshake adds exactly one spawn request when a spawner is registered, whatever the host's player handle. The session is unchanged |
| `Multiplayer.Session.OnRootSpawnableReady` | Gems/Multiplayer/Code/Tests/MultiplayerSystemTests.cpp:207-244 | A finished level load adds one spawn request exactly when the host is client-server and its player handle does not exist: one more without a handle (lines 207-209), none with one (lines 240-244) |
| `Multiplayer.Spawner.constructor` | Gems/Multiplayer/Code/Tests/MultiplayerSystemTests.cpp:199-202 | A spawner starts with the given player handle, no requests and no players |
| `Multiplayer.Spawner.RequestPlayerSpawn` | Gems/Multiplayer/Code/Tests/MultiplayerSystemTests.cpp:204-205 | One request adds one to the request counter and changes nothing else |
| `Multiplayer.NewConnectionRecord` | Gems/Multiplayer/Code/Tests/MultiplayerSystemTests.cpp:185 | A new record is bound to its connection, its manager holds no window, and it is charged no validation failures |
| `Multiplayer.SetReplicationWindow` | Gems/Multiplayer/Code/Tests/MultiplayerSystemTests.cpp:186 | The manager holds exactly the new window and the record stays bound to its connection. The record is charged two failures exactly when the window's controlled entity does not exist |
| `Multiplayer.FiredConcat` | Gems/Multiplayer/Code/Tests/MultiplayerSystemTests.cpp:80-98 | A counting subscriber's total over two consecutive stretches of notifications is the sum of its totals over each |
| `Multiplayer.AcquiredIdSumConcat` | Gems/Multiplayer/Code/Tests/MultiplayerSystemTests.cpp:90-93 | The sum of acquired connection ids over two consecutive stretches of notifications is the sum of the two sums |
| `Multiplayer.AcquiredObservationIsSum` | Gems/Multiplayer/Code/Tests/MultiplayerSystemTests.cpp:90-93 | The fixture's wrapping 32-bit subscriber ends at the true sum of the delivered ids modulo 2^32 |
| `Multiplayer.DisconnectEventsCounts` | Gems/Multiplayer/Code/Tests/MultiplayerSystemTests.cpp:148-155 | One disconnect delivers exactly one EndpointDisconnected. It delivers one SessionShutdown exactly when `FiresSessionShutdown` holds (an acceptor-role connection), and nothing on the other channels |
| `MultiplayerSystemTests.TestInitEvent` | Gems/Multiplayer/Code/Tests/MultiplayerSystemTests.cpp:132-144 | After DedicatedServer, ClientServer and Client initializations the role is each in turn, and SessionInit fired once |
| `MultiplayerSystemTests.TestShutdownEvent` | Gems/Multiplayer/Code/Tests/MultiplayerSystemTests.cpp:146-156 | A dedicated server disconnects one acceptor and one connector, with any ids and neither ever connected. EndpointDisconnected fires twice and SessionShutdown once |
| `MultiplayerSystemTests.TestConnectionDatum` | Gems/Multiplayer/Code/Tests/MultiplayerSystemTests.cpp:158-173 | Connecting ids 10 and 15 makes the fixture's counter 25. Disconnecting both fires EndpointDisconnected twice |
| `MultiplayerSystemTests.TestSpawnerEvents` | Gems/Multiplayer/Code/Tests/MultiplayerSystemTests.cpp:175-195 | A record holds a window over an invalid controlled entity. Setting it up and disconnecting its connection reports two failures in all, fires EndpointDisconnected once and leaves the player count at 0 |
| `MultiplayerSystemTests.TestClientServerConnectingWithoutPlayerEntity` | Gems/Multiplayer/Code/Tests/MultiplayerSystemTests.cpp:197-212 | With no player handle, client-server initialization makes one request and the level load a second |
| `MultiplayerSystemTests.TestClientServerConnectingWithPlayerEntity` | Gems/Multiplayer/Code/Tests/MultiplayerSystemTests.cpp:214-247 | With a live player handle, initialization makes one request and a connect handshake a second. The level load then makes none, leaving 2 |
| `LauncherHelper.CreateLauncher` | Tools/LyTestTools/ly_test_tools/launchers/launcher_helper.py:26-43 | Always deprecated. Warns exactly when the registry lacks the request, and then uses the host platform. Builds `(workspace, args)` with the registered class, and fails only when neither key is registered |
| `LauncherHelper.CreateGameLauncher` | Tools/LyTestTools/ly_test_tools/launchers/launcher_helper.py:46-62 | Not deprecated. Keeps the request exactly when it is 'windows', 'linux' or 'android'; otherwise it warns and uses the host platform. Builds `(workspace, args)` exactly when the chosen key is registered |
| `LauncherHelper.CreateDedicatedLauncher` | Tools/LyTestTools/ly_test_tools/launchers/launcher_helper.py:65-84 | Always deprecated. Warns exactly when the registry lacks the request, and then uses the host dedicated server. Builds `(workspace, args)` and fails only when neither key is registered |
| `LauncherHelper.CreateServerLauncher` | Tools/LyTestTools/ly_test_tools/launchers/launcher_helper.py:87-103 | Not deprecated. Keeps the request exactly when it is 'windows_dedicated' or 'linux_dedicated'; otherwise it warns and uses the host dedicated server. Builds `(workspace, args)` exactly when the chosen key is registered |
| `LauncherHelper.CreateEditor` | Tools/LyTestTools/ly_test_tools/launchers/launcher_helper.py:106-122 | Not deprecated. Warns exactly when the registry lacks the request, and then uses the host editor. Builds `(workspace, args)` and fails only when neither key is registered |
| `LauncherHelper.CreateMaterialEditor` | Tools/LyTestTools/ly_test_tools/launchers/launcher_helper.py:125-140 | Not deprecated. Warns exactly when the registry lacks the request, and then uses the host material editor. Builds `(workspace, args)` and fails only when neither key is registered |
| `LauncherHelper.CreateGenericLauncher` | Tools/LyTestTools/ly_test_tools/launchers/launcher_helper.py:143-162 | Always deprecated. Warns exactly when the registry lacks the request, and then uses the host generic executable. Builds `(workspace, exe_file_name, args)` and fails only when neither key is registered |
| `LauncherHelper.WarnsExactlyOnFallback` | Tools/LyTestTools/ly_test_tools/launchers/launcher_helper.py:38-161 | For every helper, a warning is logged exactly when the request does not qualify under that helper's style (list or registry). A warning means the helper's own host default is used; no warning means the request itself is used |
| `LauncherHelper.DeprecatedExactly` | Tools/LyTestTools/ly_test_tools/launchers/launcher_helper.py:36-156 | Exactly `create_launcher`, `create_dedicated_launcher` and `create_generic_launcher` warn of deprecation, whatever their inputs |
| `LauncherHelper.ConstructorShape` | Tools/LyTestTools/ly_test_tools/launchers/launcher_helper.py:43-162 | For every helper, a launcher is built exactly when the chosen key is registered, from that entry's class. The workspace and args are passed unchanged. Only the generic helper passes `exe_file_name`, and the failure names the missing key |
| `LauncherHelper.GameAndLegacyLauncherAgree` | Tools/LyTestTools/ly_test_tools/launchers/launcher_helper.py:38-61 | `create_game_launcher` and `create_launcher` choose the same key exactly when the request is the host platform, or when being on the game list and being registered agree for it |
| `LauncherHelper.ServerAndDedicatedLauncherAgree` | Tools/LyTestTools/ly_test_tools/launchers/launcher_helper.py:79-102 | `create_server_launcher` and `create_dedicated_launcher` choose the same key exactly when the request is the host dedicated server, or when being on the server list and being registered agree for it |
| `LauncherHelper.SupportedButUnregisteredFailsSilently` | Tools/LyTestTools/ly_test_tools/launchers/launcher_helper.py:56-62 | A list helper asked for a supported platform the registry lacks fails without a warning |
| `LauncherHelper.GameLauncherTotalOnCoveringRegistry` | Tools/LyTestTools/ly_test_tools/launchers/launcher_helper.py:20-62 | If the registry covers every game platform and the host platform, `create_game_launcher` always builds a launcher |
| `LauncherHelper.DeclaredServerDefaultAlwaysWarns` | Tools/LyTestTools/ly_test_tools/launchers/launcher_helper.py:87-103 | Called with its declared default platform (the host game platform), `create_server_launcher` always logs the fallback warning and uses the host dedicated server |
| `LauncherHelper.DefaultPlatformTakesDirectPath` | Tools/LyTestTools/ly_test_tools/launchers/launcher_helper.py:26-125 | With each helper's own host fallback as its default platform, calling without a platform logs no warning whenever that default qualifies |

## Left out

- The component's framework setup is not modelled: allocators, the name dictionary, serialize contexts, component descriptors, entity creation and activation, and the networking system component. None of it decides the lifecycle.
- Transport details are not modelled: IP addresses, packet headers and the contents of the connect ticket. A connection is an id and a role, and a Connect packet is an opaque ticket.
- The global interface registry and the root-spawnable notification bus are replaced. The spawner is injected at construction (null when none is registered), and a finished level load is a direct call to `OnRootSpawnableReady`.
- Trace suppression is not modelled. Validation failures are a counter.
- TeardownFailures: only the total of two validation failures over Gems/Multiplayer/Code/Tests/MultiplayerSystemTests.cpp:180-190 is pinned. The model reports both when the record is torn down in `OnDisconnect`, while the source comment at line 181 places them during the setup of the connection data (lines 182-187); when each failure is reported is not captured.
- Multi-subscriber dispatch is reduced to one ordered log. Every subscriber sees the same log.
- The order of EndpointDisconnected and SessionShutdown within one disconnect is not pinned by any shown code. The model delivers EndpointDisconnected first.
- Repeating a disconnect for the same connection, and several acceptor-role disconnects, have no proved property. The model gives them an outcome, but nothing shown fixes it.
- The component's implementation (`MultiplayerSystemComponent`) is not part of this model. The rules left open by its tests are isolated in three predicates:
  - `FiresSessionShutdown`: SessionShutdown fires on an acceptor-role disconnect. The test pins this only for one acceptor and one connector under a dedicated server. A rule that also depends on the role or on the remaining connection count is not modelled.
  - `SpawnsHostPlayer`: only a client-server initialization requests the host's player, and it does so even when a player handle already exists. Skipping the request when a handle exists would contradict the expectation at Gems/Multiplayer/Code/Tests/MultiplayerSystemTests.cpp:227, and no test pins a request for a dedicated server, which has no player of its own.
  - `SpawnsOnLevelReady`: a level load requests the host's player only for a client-server host whose handle does not exist.
- ConnectionAcquired is delivered for every `OnConnect`, carrying the current role. The test connects acceptor-role connections only.
- HandleRequest: a connect handshake requests the host's player under every role, and with any player handle. The tests pin it only for a client-server host at Gems/Multiplayer/Code/Tests/MultiplayerSystemTests.cpp:226-238; a rule that depends on the role is not modelled.
- InitializeMultiplayer: each client-server initialization requests the host's player again, so two such calls make two requests. The tests initialize a client-server host once per scenario, so nothing pins whether a repeated initialization requests again.
- The spawner's player counter is never changed by the modelled operations. No shown code pins how a disconnect with a valid controlled entity notifies the spawner.
- Replication window contents beyond the controlled entity handle are not modelled, including the entities a connection may see and the entity tracker's lookup. An entity handle either exists or not.
- The fixture's three `++` counters are unbounded naturals. Their 32-bit wrap-around is never reached by any scenario. The id counter does wrap, and `AcquiredObservationIsSum` proves it.
- Connection records are values in a map keyed by connection id, rather than objects attached to connection objects. An in-place update of a record after it is bound is not captured, and two connection objects with the same id share one slot.
- Launcher classes, process launching, the text of the log and deprecation messages, and the removal dates in the deprecation messages are not modelled. The host defaults (`HOST_OS_*`) and the registry (`LAUNCHERS`) are parameters, because they live in modules that are not part of this model.
- A registry entry is assumed truthy. Every registered launcher class is a class, so registry presence is the truthiness test.

## Findings

| source | as written | input that shows it | evidently intended | confidence | as-written member | corrected member |
|---|---|---|---|---|---|---|
| Tools/LyTestTools/ly_test_tools/launchers/launcher_helper.py:87 | `create_server_launcher` defaults `launcher_platform` to `HOST_OS_PLATFORM`, a game platform such as 'windows' that is never in `SERVER_LAUNCHERS` | `create_server_launcher(workspace)` on a Windows host logs "Using default dedicated launcher ... as no option is available for 'windows'" on every call | default to `HOST_OS_DEDICATED_SERVER`, like `create_dedicated_launcher` at line 65, so a call without a platform takes the direct path | medium, not executed | `LauncherHelper.DeclaredServerDefaultAlwaysWarns` | `LauncherHelper.DefaultPlatformTakesDirectPath` |
