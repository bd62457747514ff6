/**
 * The session lifecycle of the multiplayer system component: agent role,
 * per-connection records with their replication windows, the four session
 * notifications, and the player-spawn requests it forwards to the spawner.
 *
 * The notification bus is an append-only log of events; a subscriber that
 * counts deliveries on a channel is a fold over that log.
 */
module Multiplayer {
  import opened Wrappers

  const Uint32Limit: int := 0x1_0000_0000

  type Uint32 = x: int | 0 <= x < Uint32Limit

  type ConnectionId = Uint32

  datatype AgentType = Uninitialized | Client | ClientServer | DedicatedServer

  datatype ConnectionRole = Acceptor | Connector

  /** A transport connection as the component sees it: its id and its role. */
  datatype Connection = Connection(id: ConnectionId, role: ConnectionRole)

  /** The payload of ConnectionAcquired. */
  datatype AgentDatum = AgentDatum(id: ConnectionId, agentType: AgentType)

  /** An inbound connect handshake; its ticket is opaque to this model. */
  datatype ConnectPacket = ConnectPacket(ticket: string)

  /**
   * A weak reference to a networked entity. A default-constructed handle
   * refers to nothing; a tracked one resolves to a live entity.
   */
  datatype EntityHandle = Invalid | Tracked(entityId: nat) {
    predicate Exists() { Tracked? }
  }

  /** The entities a connection may see, anchored on the entity it controls. */
  datatype ReplicationWindow = ReplicationWindow(controlled: EntityHandle, owner: ConnectionId)

  /** Owns zero or one replication window. */
  datatype ReplicationManager = ReplicationManager(window: Option<ReplicationWindow>)

  /** The multiplayer data bound to one connection (its user data). */
  datatype ConnectionRecord = ConnectionRecord(owner: ConnectionId, manager: ReplicationManager)

  /** A fresh record for `c`, whose manager has no window yet, so tearing it down reports nothing. */
  function NewConnectionRecord(c: Connection): (r: ConnectionRecord)
    ensures r.owner == c.id && r.manager.window == None
    ensures TeardownFailures(r) == 0
  {
    ConnectionRecord(c.id, ReplicationManager(None))
  }

  /**
   * The manager takes `w`, releasing whatever window it held before. The
   * record stays bound to the same connection, and the failures it will report
   * depend on the new window alone.
   */
  function SetReplicationWindow(r: ConnectionRecord, w: ReplicationWindow): (r': ConnectionRecord)
    ensures r'.owner == r.owner && r'.manager.window == Some(w)
    ensures TeardownFailures(r') == (if w.controlled.Exists() then 0 else 2)
  {
    r.(manager := ReplicationManager(Some(w)))
  }

  /**
   * Validation failures charged to a record: two for a window whose
   * controlled entity does not exist, none otherwise. Only this total is
   * pinned; the model reports it when the record is torn down.
   */
  function TeardownFailures(r: ConnectionRecord): nat {
    match r.manager.window
    case None => 0
    case Some(w) =>
      if w.controlled.Exists() then 0 else 2
  }

  // ---------------------------------------------------------------------
  // Notifications

  datatype Event =
    | SessionInit
    | SessionShutdown
    | ConnectionAcquired(datum: AgentDatum)
    | EndpointDisconnected(agentType: AgentType)

  datatype Channel = InitChannel | ShutdownChannel | AcquiredChannel | DisconnectedChannel

  function ChannelOf(e: Event): Channel {
    match e
    case SessionInit => InitChannel
    case SessionShutdown => ShutdownChannel
    case ConnectionAcquired(_) => AcquiredChannel
    case EndpointDisconnected(_) => DisconnectedChannel
  }

  /** How many events of `log` were delivered on channel `ch`. */
  function Fired(log: seq<Event>, ch: Channel): nat {
    if log == [] then 0
    else (if ChannelOf(log[0]) == ch then 1 else 0) + Fired(log[1..], ch)
  }

  /** The sum of the connection ids carried by the ConnectionAcquired events of `log`. */
  function AcquiredIdSum(log: seq<Event>): nat {
    if log == [] then 0
    else (if log[0].ConnectionAcquired? then log[0].datum.id else 0) + AcquiredIdSum(log[1..])
  }

  /** Deliveries on a channel add up over consecutive stretches of the log. */
  lemma {:induction false} FiredConcat(log: seq<Event>, more: seq<Event>, ch: Channel)
    ensures Fired(log + more, ch) == Fired(log, ch) + Fired(more, ch)
  {
    if log != [] {
      assert (log + more)[1..] == log[1..] + more;
      FiredConcat(log[1..], more, ch);
    } else {
      assert log + more == more;
    }
  }

  /** The ids carried by a log add up over consecutive stretches of it. */
  lemma {:induction false} AcquiredIdSumConcat(log: seq<Event>, more: seq<Event>)
    ensures AcquiredIdSum(log + more) == AcquiredIdSum(log) + AcquiredIdSum(more)
  {
    if log != [] {
      assert (log + more)[1..] == log[1..] + more;
      AcquiredIdSumConcat(log[1..], more);
    } else {
      assert log + more == more;
    }
  }

  /**
   * The test fixture's ConnectionAcquired subscriber: a 32-bit counter to
   * which each delivered datum's id is added, wrapping at 2^32.
   */
  function AcquiredObservation(acc: Uint32, log: seq<Event>): Uint32
    decreases |log|
  {
    if log == [] then acc
    else
      var next := if log[0].ConnectionAcquired? then (acc + log[0].datum.id) % Uint32Limit else acc;
      AcquiredObservation(next, log[1..])
  }

  /** The wrapping counter ends at the true sum of the delivered ids, modulo 2^32. */
  lemma {:induction false} AcquiredObservationIsSum(acc: Uint32, log: seq<Event>)
    ensures AcquiredObservation(acc, log) == (acc + AcquiredIdSum(log)) % Uint32Limit
    decreases |log|
  {
    if log != [] {
      var id := if log[0].ConnectionAcquired? then log[0].datum.id else 0;
      var next := (acc + id) % Uint32Limit;
      AcquiredObservationIsSum(next, log[1..]);
      ModAddLeft(acc + id, AcquiredIdSum(log[1..]));
    }
  }

  lemma ModAddLeft(a: nat, b: nat)
    ensures (a % Uint32Limit + b) % Uint32Limit == (a + b) % Uint32Limit
  {
  }

  // ---------------------------------------------------------------------
  // Rules the tests pin

  /** Only a client-server host plays itself, so only it spawns a player for the host on initialization. */
  predicate SpawnsHostPlayer(role: AgentType) {
    role == ClientServer
  }

  /** A finished level load requests the host's player when the host has one to spawn and it does not exist yet. */
  predicate SpawnsOnLevelReady(role: AgentType, player: EntityHandle) {
    SpawnsHostPlayer(role) && !player.Exists()
  }

  /** Losing an acceptor-role connection (the session's own serving endpoint) shuts the session down. */
  predicate FiresSessionShutdown(c: Connection) {
    c.role == Acceptor
  }

  /** The notifications one disconnect delivers, in order. */
  function DisconnectEvents(agentType: AgentType, c: Connection): seq<Event> {
    [EndpointDisconnected(agentType)] + (if FiresSessionShutdown(c) then [SessionShutdown] else [])
  }

  lemma DisconnectEventsCounts(agentType: AgentType, c: Connection)
    ensures Fired(DisconnectEvents(agentType, c), DisconnectedChannel) == 1
    ensures Fired(DisconnectEvents(agentType, c), ShutdownChannel) == (if FiresSessionShutdown(c) then 1 else 0)
    ensures Fired(DisconnectEvents(agentType, c), InitChannel) == 0
    ensures Fired(DisconnectEvents(agentType, c), AcquiredChannel) == 0
    ensures AcquiredIdSum(DisconnectEvents(agentType, c)) == 0
  {
    var head: seq<Event> := [EndpointDisconnected(agentType)];
    var tail: seq<Event> := if FiresSessionShutdown(c) then [SessionShutdown] else [];
    assert head[1..] == [] && (tail != [] ==> tail[1..] == []);
    forall ch: Channel
      ensures Fired(DisconnectEvents(agentType, c), ch) == Fired(head, ch) + Fired(tail, ch)
    {
      FiredConcat(head, tail, ch);
    }
    AcquiredIdSumConcat(head, tail);
  }

  // ---------------------------------------------------------------------
  // The spawner the component forwards player requests to

  class Spawner {
    /** The player entity the spawner currently holds for the host. */
    var networkEntityHandle: EntityHandle
    var playerEntityRequestedCount: nat
    var playerCount: int

    constructor (handle: EntityHandle)
      ensures networkEntityHandle == handle
      ensures playerEntityRequestedCount == 0 && playerCount == 0
    {
      networkEntityHandle := handle;
      playerEntityRequestedCount := 0;
      playerCount := 0;
    }

    method RequestPlayerSpawn()
      modifies this
      ensures playerEntityRequestedCount == old(playerEntityRequestedCount) + 1
      ensures networkEntityHandle == old(networkEntityHandle) && playerCount == old(playerCount)
    {
      playerEntityRequestedCount := playerEntityRequestedCount + 1;
    }
  }

  // ---------------------------------------------------------------------
  // The session coordinator

  class Session {
    var agentType: AgentType
    /** Whether the network interface has been created (it is created once). */
    var interfaceCreated: bool
    /** The record bound to each connection, by connection id. */
    var connectionData: map<ConnectionId, ConnectionRecord>
    /** Every notification delivered so far, in order. */
    var events: seq<Event>
    /** Validation failures reported so far. */
    var validationFailures: nat
    /** The registered spawner, if any. */
    const spawner: Spawner?

    /**
     * SessionInit has been delivered exactly once if the interface exists and
     * never otherwise.
     */
    ghost predicate Valid()
      reads this
    {
      Fired(events, InitChannel) == (if interfaceCreated then 1 else 0)
    }

    constructor (spawner: Spawner?)
      ensures Valid()
      ensures this.spawner == spawner
      ensures agentType == Uninitialized && !interfaceCreated
      ensures connectionData == map[] && events == [] && validationFailures == 0
    {
      this.spawner := spawner;
      agentType := Uninitialized;
      interfaceCreated := false;
      connectionData := map[];
      events := [];
      validationFailures := 0;
    }

    method GetAgentType() returns (r: AgentType)
      ensures r == agentType
    {
      r := agentType;
    }

    /**
     * Sets the role. The first call creates the network interface and
     * delivers SessionInit; later calls change only the role. A client-server
     * host asks the spawner for its own player on every call.
     */
    method InitializeMultiplayer(role: AgentType)
      requires Valid()
      modifies this, spawner
      ensures Valid()
      ensures agentType == role && interfaceCreated
      ensures Fired(events, InitChannel) == 1
      ensures events == old(events) + (if old(interfaceCreated) then [] else [SessionInit])
      ensures connectionData == old(connectionData) && validationFailures == old(validationFailures)
      ensures spawner != null ==>
        && spawner.playerEntityRequestedCount
           == old(spawner.playerEntityRequestedCount) + (if SpawnsHostPlayer(role) then 1 else 0)
        && spawner.networkEntityHandle == old(spawner.networkEntityHandle)
        && spawner.playerCount == old(spawner.playerCount)
    {
      if !interfaceCreated {
        FiredConcat(events, [SessionInit], InitChannel);
        interfaceCreated := true;
        events := events + [SessionInit];
      }
      agentType := role;
      if SpawnsHostPlayer(role) && spawner != null {
        spawner.RequestPlayerSpawn();
      }
    }

    /** Binds a fresh record to `c` and delivers ConnectionAcquired with its id. */
    method OnConnect(c: Connection)
      requires Valid()
      modifies this
      ensures Valid()
      ensures agentType == old(agentType) && interfaceCreated == old(interfaceCreated)
      ensures validationFailures == old(validationFailures)
      ensures connectionData == old(connectionData)[c.id := NewConnectionRecord(c)]
      ensures events == old(events) + [ConnectionAcquired(AgentDatum(c.id, old(agentType)))]
      ensures Fired(events, AcquiredChannel) == old(Fired(events, AcquiredChannel)) + 1
      ensures forall ch :: ch != AcquiredChannel ==> Fired(events, ch) == old(Fired(events, ch))
      ensures AcquiredIdSum(events) == old(AcquiredIdSum(events)) + c.id
    {
      var e := ConnectionAcquired(AgentDatum(c.id, agentType));
      assert [e][1..] == [];
      forall ch: Channel
        ensures Fired(events + [e], ch) == Fired(events, ch) + (if ch == AcquiredChannel then 1 else 0)
      {
        FiredConcat(events, [e], ch);
      }
      AcquiredIdSumConcat(events, [e]);
      connectionData := connectionData[c.id := NewConnectionRecord(c)];
      events := events + [e];
    }

    /** Binds `r` to `c` as its user data, as the transport does when a record is attached directly. */
    method SetConnectionData(c: Connection, r: ConnectionRecord)
      requires Valid()
      modifies this
      ensures Valid()
      ensures connectionData == old(connectionData)[c.id := r]
      ensures agentType == old(agentType) && interfaceCreated == old(interfaceCreated)
      ensures events == old(events) && validationFailures == old(validationFailures)
    {
      connectionData := connectionData[c.id := r];
    }

    /**
     * Tears down the record bound to `c`, if any, reporting its validation
     * failures, then delivers EndpointDisconnected and, for an acceptor-role
     * connection, SessionShutdown. A connection without a record is still
     * announced.
     */
    method OnDisconnect(c: Connection)
      requires Valid()
      modifies this
      ensures Valid()
      ensures agentType == old(agentType) && interfaceCreated == old(interfaceCreated)
      ensures connectionData == old(connectionData) - {c.id}
      ensures validationFailures == old(validationFailures)
        + (if c.id in old(connectionData) then TeardownFailures(old(connectionData)[c.id]) else 0)
      ensures events == old(events) + DisconnectEvents(old(agentType), c)
      ensures Fired(events, DisconnectedChannel) == old(Fired(events, DisconnectedChannel)) + 1
      ensures Fired(events, ShutdownChannel)
        == old(Fired(events, ShutdownChannel)) + (if FiresSessionShutdown(c) then 1 else 0)
      ensures Fired(events, AcquiredChannel) == old(Fired(events, AcquiredChannel))
      ensures AcquiredIdSum(events) == old(AcquiredIdSum(events))
    {
      if c.id in connectionData {
        validationFailures := validationFailures + TeardownFailures(connectionData[c.id]);
        connectionData := connectionData - {c.id};
      }
      var evs := DisconnectEvents(agentType, c);
      DisconnectEventsCounts(agentType, c);
      FiredConcat(events, evs, InitChannel);
      FiredConcat(events, evs, ShutdownChannel);
      FiredConcat(events, evs, AcquiredChannel);
      FiredConcat(events, evs, DisconnectedChannel);
      AcquiredIdSumConcat(events, evs);
      events := events + evs;
    }

    /** A connect handshake always asks the spawner for one player for the requesting peer. */
    method HandleRequest(c: Connection, packet: ConnectPacket)
      requires Valid()
      modifies spawner
      ensures spawner != null ==>
        && spawner.playerEntityRequestedCount == old(spawner.playerEntityRequestedCount) + 1
        && spawner.networkEntityHandle == old(spawner.networkEntityHandle)
        && spawner.playerCount == old(spawner.playerCount)
    {
      if spawner != null {
        spawner.RequestPlayerSpawn();
      }
    }

    /** A finished level load requests the host's player only while it does not exist. */
    method OnRootSpawnableReady()
      requires Valid()
      modifies spawner
      ensures spawner != null ==>
        && spawner.playerEntityRequestedCount == old(spawner.playerEntityRequestedCount)
           + (if SpawnsOnLevelReady(agentType, old(spawner.networkEntityHandle)) then 1 else 0)
        && spawner.networkEntityHandle == old(spawner.networkEntityHandle)
        && spawner.playerCount == old(spawner.playerCount)
    {
      if spawner != null && SpawnsOnLevelReady(agentType, spawner.networkEntityHandle) {
        spawner.RequestPlayerSpawn();
      }
    }
  }

}
