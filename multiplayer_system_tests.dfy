/**
 * The multiplayer system component's test scenarios, one method each. Every
 * method builds a fresh session, drives it through the same calls as the
 * scenario, and returns what the scenario observes; its postcondition is what
 * the scenario expects. Connection ids left default-constructed there are
 * parameters here, so each scenario holds for every id.
 */
module MultiplayerSystemTests {
  import opened Wrappers
  import opened Multiplayer

  /** The role follows every initialization, while SessionInit is delivered once. */
  method TestInitEvent()
    returns (afterDedicated: AgentType, afterClientServer: AgentType, afterClient: AgentType, initEventTriggerCount: nat)
    ensures afterDedicated == DedicatedServer
    ensures afterClientServer == ClientServer
    ensures afterClient == Client
    ensures initEventTriggerCount == 1
  {
    var session := new Session(null);
    session.InitializeMultiplayer(DedicatedServer);
    afterDedicated := session.GetAgentType();
    session.InitializeMultiplayer(ClientServer);
    afterClientServer := session.GetAgentType();
    session.InitializeMultiplayer(Client);
    afterClient := session.GetAgentType();
    initEventTriggerCount := Fired(session.events, InitChannel);
  }

  /**
   * A dedicated server losing one acceptor and one connector, neither of which
   * was ever connected, announces both disconnects and shuts down once.
   */
  method TestShutdownEvent(acceptorId: ConnectionId, connectorId: ConnectionId)
    returns (endpointDisconnectedCount: nat, shutdownEventTriggerCount: nat)
    ensures endpointDisconnectedCount == 2
    ensures shutdownEventTriggerCount == 1
  {
    var session := new Session(null);
    session.InitializeMultiplayer(DedicatedServer);
    session.OnDisconnect(Connection(acceptorId, Acceptor));
    session.OnDisconnect(Connection(connectorId, Connector));
    endpointDisconnectedCount := Fired(session.events, DisconnectedChannel);
    shutdownEventTriggerCount := Fired(session.events, ShutdownChannel);
  }

  /** Connections 10 and 15 deliver their own ids, which the subscriber adds up to 25. */
  method TestConnectionDatum() returns (connectionAcquiredCount: Uint32, endpointDisconnectedCount: nat)
    ensures connectionAcquiredCount == 25
    ensures endpointDisconnectedCount == 2
  {
    var session := new Session(null);
    var first := Connection(10, Acceptor);
    var second := Connection(15, Acceptor);
    session.OnConnect(first);
    session.OnConnect(second);
    AcquiredObservationIsSum(0, session.events);
    connectionAcquiredCount := AcquiredObservation(0, session.events);

    session.OnDisconnect(first);
    session.OnDisconnect(second);
    endpointDisconnectedCount := Fired(session.events, DisconnectedChannel);
  }

  /**
   * Disconnecting a connection whose record holds a window over a
   * default-constructed (invalid) controlled entity reports two validation
   * failures, still announces the disconnect once, and leaves the spawner's
   * player count alone.
   */
  method TestSpawnerEvents(id: ConnectionId)
    returns (reportedFailures: nat, endpointDisconnectedCount: nat, playerCount: int)
    ensures reportedFailures == 2
    ensures endpointDisconnectedCount == 1
    ensures playerCount == 0
  {
    var spawner := new Spawner(Invalid);
    var session := new Session(spawner);
    session.InitializeMultiplayer(ClientServer);

    var connection := Connection(id, Acceptor);
    var record := SetReplicationWindow(NewConnectionRecord(connection), ReplicationWindow(Invalid, id));
    session.SetConnectionData(connection, record);
    session.OnDisconnect(connection);

    reportedFailures := session.validationFailures;
    endpointDisconnectedCount := Fired(session.events, DisconnectedChannel);
    playerCount := spawner.playerCount;
  }

  /**
   * Without a player entity, a client-server host requests its player on
   * initialization and again when the level finishes loading.
   */
  method TestClientServerConnectingWithoutPlayerEntity()
    returns (playerExists: bool, requestedAfterInit: nat, requestedAfterLevelReady: nat)
    ensures !playerExists
    ensures requestedAfterInit == 1
    ensures requestedAfterLevelReady == 2
  {
    var spawner := new Spawner(Invalid);
    var session := new Session(spawner);
    spawner.networkEntityHandle := Invalid;
    playerExists := spawner.networkEntityHandle.Exists();

    session.InitializeMultiplayer(ClientServer);
    requestedAfterInit := spawner.playerEntityRequestedCount;

    session.OnRootSpawnableReady();
    requestedAfterLevelReady := spawner.playerEntityRequestedCount;
  }

  /**
   * With a live player entity, a client-server host still requests its player
   * on initialization, a connect handshake requests one more, and the level
   * finishing to load requests none.
   */
  method TestClientServerConnectingWithPlayerEntity(playerEntity: nat, ticket: string)
    returns (playerExists: bool, requestedAfterInit: nat, requestedAfterConnect: nat, requestedAfterLevelReady: nat)
    ensures playerExists
    ensures requestedAfterInit == 1
    ensures requestedAfterConnect == 2
    ensures requestedAfterLevelReady == 2
  {
    var spawner := new Spawner(Invalid);
    var session := new Session(spawner);
    spawner.networkEntityHandle := Tracked(playerEntity);
    playerExists := spawner.networkEntityHandle.Exists();

    session.InitializeMultiplayer(ClientServer);
    requestedAfterInit := spawner.playerEntityRequestedCount;

    var connection := Connection(1, Connector);
    session.SetConnectionData(connection, NewConnectionRecord(connection));
    session.HandleRequest(connection, ConnectPacket(ticket));
    requestedAfterConnect := spawner.playerEntityRequestedCount;

    session.OnRootSpawnableReady();
    requestedAfterLevelReady := spawner.playerEntityRequestedCount;
  }
}
