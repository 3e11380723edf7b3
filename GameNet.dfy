/** One channel of a game world: the directory of the players connected to
    it, the queue of channel changes waiting for the destination channel's
    answer (each guarded by a 5000 ms timeout), the store of player
    continuations carried over from the previous channel, and the reports it
    sends the center server about its population and its port.

    The outbound connections are append-only outboxes: `centerOutbox` for the
    center server, `clientOutbox` for the players' client sessions and
    `bridgeOutbox` for the inter-channel bridge. The scheduler is the table
    `timers` of armed timeout tasks; a timeout firing is the event
    `FireTimeout`. Everything runs one call at a time. */
module GameNet {
  import opened LittleEndian
  import opened ChannelPackets
  import opened Wrappers

  /** A connected character; the directory keys it by its id. */
  datatype Player = Player(id: int32, name: string)

  /** The transient state (active buffs) a player carries from the channel
      they left; its contents are not modelled. */
  datatype Continuation = Continuation(snapshot: seq<int>)

  /** The handle of a scheduled timeout task. */
  type TimerId = nat

  /** A queued channel change: the destination channel and its timeout task. */
  datatype PendingChange = PendingChange(destination: byte, timeout: TimerId)

  /** What the inter-channel bridge answers when asked where a channel is:
      a host address (possibly missing) and a port, or the unknown-host
      failure. */
  datatype HostLookup = Resolved(host: Option<seq<byte>>, port: int32) | UnknownHost

  /** The messages sent to the center server. */
  datatype CenterMessage =
    | LoadReport(channel: byte, count: int)
    | PortReport(world: byte, channel: byte, port: int32)

  /** The messages sent to a client session. */
  datatype ClientMessage =
    | EnableActions
    | NewHost(host: seq<byte>, port: int32)

  /** A message sent to the client session of a player. */
  datatype Packet = Packet(playerId: int32, message: ClientMessage)

  /** A request sent through the bridge to the destination channel. */
  datatype ChangeRequest = ChangeRequest(destination: byte, player: Player)

  /** A continuation applied to a player on arrival. */
  datatype Application = Application(playerId: int32, context: Continuation)

  /** The opcodes of the messages sent and the enable-actions packet. Their
      values are defined outside this model and are given to the channel. */
  datatype Opcodes = Opcodes(
    populationChanged: byte,
    modifyChannelPort: byte,
    gameHostAddress: int16,
    enableActions: seq<byte>)

  /** The bytes that go over the center connection for a message. */
  function CenterBytes(opcodes: Opcodes, m: CenterMessage): (bs: seq<byte>)
    ensures m.LoadReport? ==>
      DecodePopulation(bs) == Some(Population(opcodes.populationChanged, m.channel, m.count % 0x1_0000))
    ensures m.PortReport? ==>
      DecodePortChange(bs) == Some(PortChange(opcodes.modifyChannelPort, m.world, m.channel, m.port))
  {
    match m
    case LoadReport(channel, count) => PopulationChanged(opcodes.populationChanged, channel, count)
    case PortReport(world, channel, port) => ChannelPortChanged(opcodes.modifyChannelPort, world, channel, port)
  }

  /** The bytes that go to a client session for a message. */
  function ClientBytes(opcodes: Opcodes, m: ClientMessage): (bs: seq<byte>)
    ensures m.EnableActions? ==> bs == opcodes.enableActions
    ensures m.NewHost? ==>
      DecodeNewGameHost(bs) == Some(Redirect(opcodes.gameHostAddress, m.host, m.port % 0x1_0000))
  {
    match m
    case EnableActions => opcodes.enableActions
    case NewHost(host, port) => NewGameHost(opcodes.gameHostAddress, host, port)
  }

  /** Where a resolved destination sends the player: nowhere when the lookup
      failed, gave no host, or gave the port -1. */
  function Destination(lookup: HostLookup): (r: Option<(seq<byte>, int32)>)
    ensures r.Some? <==> lookup.Resolved? && lookup.host.Some? && lookup.port != -1
    ensures r.Some? ==> r.value == (lookup.host.value, lookup.port)
  {
    match lookup
    case Resolved(Some(host), port) => if port != -1 then Some((host, port)) else None
    case _ => None
  }

  /* ---------------- The player directory and the load it reports -------- */

  datatype DirectoryEvent = Added(player: Player) | Removed(player: Player)

  /** The directory after one add or remove; a player is keyed by id. */
  function Apply(dir: map<int32, Player>, e: DirectoryEvent): (r: map<int32, Player>)
    ensures e.Added? ==> e.player.id in r && r[e.player.id] == e.player
    ensures e.Removed? ==> e.player.id !in r
  {
    match e
    case Added(p) => dir[p.id := p]
    case Removed(p) => dir - {p.id}
  }

  /** An add or remove changes no other player's entry: adding puts one id
      into the directory, removing takes one out, and every other id keeps
      its player. */
  lemma ApplyFrame(dir: map<int32, Player>, e: DirectoryEvent)
    ensures e.Added? ==> Apply(dir, e).Keys == dir.Keys + {e.player.id}
    ensures e.Removed? ==> Apply(dir, e).Keys == dir.Keys - {e.player.id}
    ensures forall k | k in dir && k != e.player.id :: Apply(dir, e)[k] == dir[k]
  {
  }

  function Replay(dir: map<int32, Player>, es: seq<DirectoryEvent>): (r: map<int32, Player>)
    decreases |es|
  {
    if es == [] then dir else Replay(Apply(dir, es[0]), es[1..])
  }

  /** The population reports a run of adds and removes sends to the center:
      one per event, each written after the directory changed. */
  function LoadReports(channel: byte, dir: map<int32, Player>, es: seq<DirectoryEvent>): (r: seq<CenterMessage>)
    decreases |es|
  {
    if es == [] then []
    else
      var next := Apply(dir, es[0]);
      [LoadReport(channel, |next|)] + LoadReports(channel, next, es[1..])
  }

  /** Every add and every remove sends exactly one report, and the i-th
      report carries this channel and the number of players connected right
      after the i-th event. */
  lemma {:induction false} LoadReportsTrackDirectory(channel: byte, dir: map<int32, Player>, es: seq<DirectoryEvent>)
    ensures |LoadReports(channel, dir, es)| == |es|
    ensures forall i | 0 <= i < |es| ::
      LoadReports(channel, dir, es)[i] == LoadReport(channel, |Replay(dir, es[..i + 1])|)
    decreases |es|
  {
    if es != [] {
      var next := Apply(dir, es[0]);
      LoadReportsTrackDirectory(channel, next, es[1..]);
      var rs := LoadReports(channel, dir, es);
      forall i | 0 <= i < |es|
        ensures rs[i] == LoadReport(channel, |Replay(dir, es[..i + 1])|)
      {
        if i == 0 {
          assert Replay(next, es[..1][1..]) == next by { assert es[..1][1..] == []; }
        } else {
          assert es[..i + 1][1..] == es[1..][..i];
        }
      }
    }
  }

  /** As the center decodes them: the i-th report of a run carries the
      population opcode, this channel and the connected count right after
      the i-th event as a 16-bit count. */
  lemma LoadReportsDecode(opcodes: Opcodes, channel: byte, dir: map<int32, Player>, es: seq<DirectoryEvent>, i: nat)
    requires i < |es|
    ensures i < |LoadReports(channel, dir, es)|
    ensures DecodePopulation(CenterBytes(opcodes, LoadReports(channel, dir, es)[i]))
         == Some(Population(opcodes.populationChanged, channel, |Replay(dir, es[..i + 1])| % 0x1_0000))
  {
    LoadReportsTrackDirectory(channel, dir, es);
  }

  /** Adds of absent players and removes of present ones, in order. */
  ghost predicate Sound(dir: map<int32, Player>, es: seq<DirectoryEvent>)
    decreases |es|
  {
    es != [] ==>
      (match es[0]
       case Added(p) => p.id !in dir
       case Removed(p) => p.id in dir)
      && Sound(Apply(dir, es[0]), es[1..])
  }

  function Adds(es: seq<DirectoryEvent>): (r: nat)
  {
    if es == [] then 0 else (if es[0].Added? then 1 else 0) + Adds(es[1..])
  }

  /** No update is lost: after a sound run the directory holds its initial
      players plus the adds minus the removes. */
  lemma {:induction false} ReplaySize(dir: map<int32, Player>, es: seq<DirectoryEvent>)
    requires Sound(dir, es)
    ensures |Replay(dir, es)| == |dir| + Adds(es) - (|es| - Adds(es))
    decreases |es|
  {
    if es != [] {
      var next := Apply(dir, es[0]);
      if es[0].Removed? {
        assert next.Keys == dir.Keys - {es[0].player.id};
      }
      ReplaySize(next, es[1..]);
    }
  }

  /** Replaying one more event is applying it to the replayed directory. */
  lemma {:induction false} ReplayAppend(dir: map<int32, Player>, es: seq<DirectoryEvent>, e: DirectoryEvent)
    ensures Replay(dir, es + [e]) == Apply(Replay(dir, es), e)
    decreases |es|
  {
    if es != [] {
      assert (es + [e])[1..] == es[1..] + [e];
      ReplayAppend(Apply(dir, es[0]), es[1..], e);
    }
  }

  /** One more event sends one more report, with the count after it. */
  lemma {:induction false} LoadReportsAppend(channel: byte, dir: map<int32, Player>, es: seq<DirectoryEvent>, e: DirectoryEvent)
    ensures LoadReports(channel, dir, es + [e])
         == LoadReports(channel, dir, es) + [LoadReport(channel, |Replay(dir, es + [e])|)]
    decreases |es|
  {
    if es == [] {
      assert Replay(dir, [e]) == Replay(Apply(dir, e), []);
    } else {
      assert (es + [e])[1..] == es[1..] + [e];
      LoadReportsAppend(channel, Apply(dir, es[0]), es[1..], e);
    }
  }

  /* ---------------- The channel ------------------------------------------ */

  class WorldChannel {
    const world: byte
    const channel: byte
    const opcodes: Opcodes
    var port: int32

    /** The player directory, by player id. */
    var storage: map<int32, Player>
    /** Channel changes waiting for the destination's answer, by player id. */
    var queuedChannelChanges: map<int32, PendingChange>
    /** Continuations stored for arriving players, by player id. */
    var channelChangeData: map<int32, Continuation>

    /** The armed timeout tasks, each with the player it was armed for. */
    var timers: map<TimerId, Player>
    var nextTimer: TimerId
    /** Players told to prepare for leaving (prepareChannelChange). */
    var departing: set<int32>
    /** Continuations applied to players, in order (applyTo). */
    var applied: seq<Application>

    var centerOutbox: seq<CenterMessage>
    var clientOutbox: seq<Packet>
    var bridgeOutbox: seq<ChangeRequest>

    /** The directory keys each player by its own id, and every queued
        channel change still has its timeout armed for that same player. */
    ghost predicate Valid()
      reads this
    {
      && (forall id | id in storage :: storage[id].id == id)
      && (forall id | id in queuedChannelChanges ::
            queuedChannelChanges[id].timeout in timers
            && timers[queuedChannelChanges[id].timeout].id == id)
      && (forall h | h in timers :: h < nextTimer)
    }

    constructor (world: byte, channel: byte, port: int32, opcodes: Opcodes)
      ensures Valid()
      ensures this.world == world && this.channel == channel
      ensures this.port == port && this.opcodes == opcodes
      ensures storage == map[] && queuedChannelChanges == map[] && channelChangeData == map[]
      ensures timers == map[] && nextTimer == 0 && departing == {} && applied == []
      ensures centerOutbox == [] && clientOutbox == [] && bridgeOutbox == []
    {
      this.world, this.channel, this.port, this.opcodes := world, channel, port, opcodes;
      storage, queuedChannelChanges, channelChangeData := map[], map[], map[];
      timers, nextTimer, departing, applied := map[], 0, {}, [];
      centerOutbox, clientOutbox, bridgeOutbox := [], [], [];
    }

    /** The listener is bound to the port; if binding fails the channel
        shuts down. */
    method Listen(bindSucceeded: bool)
      requires Valid()
      modifies this`port, this`centerOutbox
      ensures Valid()
      ensures bindSucceeded ==> port == old(port) && centerOutbox == old(centerOutbox)
      ensures !bindSucceeded ==>
        && port == -1
        && centerOutbox == old(centerOutbox) + [PortReport(world, channel, -1)]
    {
      if !bindSucceeded {
        Shutdown();
      }
    }

    function PlayerById(id: int32): (r: Option<Player>)
      reads this
      requires Valid()
      ensures r.None? <==> id !in storage
      ensures r.Some? ==> r.value == storage[id] && r.value.id == id
    {
      if id in storage then Some(storage[id]) else None
    }

    function IsPlayerConnected(id: int32): (b: bool)
      reads this
      requires Valid()
      ensures b <==> id in storage
    {
      PlayerById(id).Some?
    }

    method AddPlayer(p: Player)
      requires Valid()
      modifies this`storage, this`centerOutbox
      ensures Valid()
      ensures storage == Apply(old(storage), Added(p))
      ensures centerOutbox == old(centerOutbox) + [LoadReport(channel, |storage|)]
    {
      storage := storage[p.id := p];
      SendNewLoad(|storage|);
    }

    method RemovePlayer(p: Player)
      requires Valid()
      modifies this`storage, this`centerOutbox
      ensures Valid()
      ensures storage == Apply(old(storage), Removed(p))
      ensures centerOutbox == old(centerOutbox) + [LoadReport(channel, |storage|)]
    {
      storage := storage - {p.id};
      SendNewLoad(|storage|);
    }

    method SendNewLoad(count: int)
      modifies this`centerOutbox
      ensures centerOutbox == old(centerOutbox) + [LoadReport(channel, count)]
    {
      centerOutbox := centerOutbox + [LoadReport(channel, count)];
    }

    /** The error path: drop any queued change of the player and give the
        client back control. Dropping an absent entry changes nothing. */
    method ChannelChangeError(p: Player)
      requires Valid()
      modifies this`queuedChannelChanges, this`clientOutbox
      ensures Valid()
      ensures queuedChannelChanges == old(queuedChannelChanges) - {p.id}
      ensures clientOutbox == old(clientOutbox) + [Packet(p.id, EnableActions)]
    {
      queuedChannelChanges := queuedChannelChanges - {p.id};
      clientOutbox := clientOutbox + [Packet(p.id, EnableActions)];
    }

    /** Queue a change of p to channel destCh, arm its timeout and ask the
        destination through the bridge. An earlier queued change of p is
        overwritten, and its timeout stays armed. */
    method RequestChannelChange(p: Player, destCh: byte)
      requires Valid()
      modifies this`queuedChannelChanges, this`timers, this`nextTimer, this`bridgeOutbox
      ensures Valid()
      ensures queuedChannelChanges == old(queuedChannelChanges)[p.id := PendingChange(destCh, old(nextTimer))]
      ensures old(nextTimer) !in old(timers) && timers == old(timers)[old(nextTimer) := p]
      ensures nextTimer == old(nextTimer) + 1
      ensures bridgeOutbox == old(bridgeOutbox) + [ChangeRequest(destCh, p)]
    {
      var h := nextTimer;
      timers := timers[h := p];
      nextTimer := nextTimer + 1;
      queuedChannelChanges := queuedChannelChanges[p.id := PendingChange(destCh, h)];
      bridgeOutbox := bridgeOutbox + [ChangeRequest(destCh, p)];
    }

    /** The scheduler runs an armed timeout task once: it takes the error
        path for the player it was armed for. A cancelled or already run
        task does nothing. */
    method FireTimeout(h: TimerId)
      requires Valid()
      modifies this`queuedChannelChanges, this`clientOutbox, this`timers
      ensures Valid()
      ensures h in old(timers) ==>
        && timers == old(timers) - {h}
        && queuedChannelChanges == old(queuedChannelChanges) - {old(timers)[h].id}
        && clientOutbox == old(clientOutbox) + [Packet(old(timers)[h].id, EnableActions)]
      ensures h !in old(timers) ==>
        && timers == old(timers)
        && queuedChannelChanges == old(queuedChannelChanges)
        && clientOutbox == old(clientOutbox)
    {
      if h in timers {
        var p := timers[h];
        ChannelChangeError(p);
        timers := timers - {h};
      }
    }

    /** The destination accepted the player: take the queued change off the
        queue, cancel its timeout, and ask the bridge where the destination
        is. If it answers with a host and a port other than -1 the player is
        prepared for leaving and redirected there; otherwise the error path
        runs. The queued change and the player are used without a check that
        they exist, so both are required here. */
    method PerformChannelChange(playerId: int32, resolve: byte -> HostLookup)
      requires Valid()
      requires playerId in queuedChannelChanges
      requires playerId in storage
      modifies this`queuedChannelChanges, this`timers, this`clientOutbox, this`departing
      ensures Valid()
      ensures queuedChannelChanges == old(queuedChannelChanges) - {playerId}
      ensures timers == old(timers) - {old(queuedChannelChanges)[playerId].timeout}
      ensures var target := Destination(resolve(old(queuedChannelChanges)[playerId].destination));
        && (target.Some? ==>
              && departing == old(departing) + {playerId}
              && clientOutbox == old(clientOutbox)
                   + [Packet(playerId, NewHost(target.value.0, target.value.1))])
        && (target.None? ==>
              && departing == old(departing)
              && clientOutbox == old(clientOutbox) + [Packet(playerId, EnableActions)])
    {
      var state := queuedChannelChanges[playerId];
      queuedChannelChanges := queuedChannelChanges - {playerId};
      timers := timers - {state.timeout};
      var target := Destination(resolve(state.destination));
      var p := storage[playerId];
      if target.Some? {
        departing := departing + {p.id};
        clientOutbox := clientOutbox + [Packet(p.id, NewHost(target.value.0, target.value.1))];
      } else {
        ChannelChangeError(p);
      }
    }

    method StorePlayerBuffs(playerId: int32, context: Continuation)
      modifies this`channelChangeData
      ensures channelChangeData == old(channelChangeData)[playerId := context]
    {
      channelChangeData := channelChangeData[playerId := context];
    }

    /** Take the continuation stored for p, if any, and apply it to p. */
    method ApplyBuffsFromLastChannel(p: Player) returns (found: bool)
      modifies this`channelChangeData, this`applied
      ensures found <==> p.id in old(channelChangeData)
      ensures channelChangeData == old(channelChangeData) - {p.id}
      ensures applied == old(applied)
        + (if found then [Application(p.id, old(channelChangeData)[p.id])] else [])
    {
      if p.id !in channelChangeData {
        found := false;
        return;
      }
      var context := channelChangeData[p.id];
      channelChangeData := channelChangeData - {p.id};
      applied := applied + [Application(p.id, context)];
      found := true;
    }

    /** Only the unbound port -1 is acted on: it is recorded, and if the
        listener binds it the new port is reported. Any other port changes
        nothing. */
    method Startup(newPort: int32, bindSucceeded: bool)
      modifies this`port, this`centerOutbox
      ensures newPort != -1 ==> port == old(port) && centerOutbox == old(centerOutbox)
      ensures newPort == -1 ==>
        && port == -1
        && centerOutbox == old(centerOutbox)
             + (if bindSucceeded then [PortReport(world, channel, -1)] else [])
    {
      if newPort == -1 {
        port := newPort;
        if bindSucceeded {
          SendNewPort();
        }
      }
    }

    method Shutdown()
      modifies this`port, this`centerOutbox
      ensures port == -1
      ensures centerOutbox == old(centerOutbox) + [PortReport(world, channel, -1)]
    {
      port := -1;
      SendNewPort();
    }

    method SendNewPort()
      modifies this`centerOutbox
      ensures centerOutbox == old(centerOutbox) + [PortReport(world, channel, port)]
    {
      centerOutbox := centerOutbox + [PortReport(world, channel, port)];
    }
  }

  /* ---------------- Runs of the channel ---------------------------------- */

  /** One add or remove on the channel extends the run that the directory
      and the reports already describe by that event. */
  method ApplyEvent(c: WorldChannel, ghost dir: map<int32, Player>, ghost sent: seq<CenterMessage>,
                    ghost done: seq<DirectoryEvent>, e: DirectoryEvent)
    requires c.Valid()
    requires c.storage == Replay(dir, done)
    requires c.centerOutbox == sent + LoadReports(c.channel, dir, done)
    modifies c`storage, c`centerOutbox
    ensures c.Valid()
    ensures c.storage == Replay(dir, done + [e])
    ensures c.centerOutbox == sent + LoadReports(c.channel, dir, done + [e])
  {
    ReplayAppend(dir, done, e);
    LoadReportsAppend(c.channel, dir, done, e);
    match e {
      case Added(p) => c.AddPlayer(p);
      case Removed(p) => c.RemovePlayer(p);
    }
  }

  /** Any run of addPlayer and removePlayer calls on a channel leaves the
      directory that `Replay` describes and sends the reports that
      `LoadReports` describes, so the lemmas about those functions hold of
      the channel itself. */
  method RunEvents(c: WorldChannel, es: seq<DirectoryEvent>)
    requires c.Valid()
    modifies c`storage, c`centerOutbox
    ensures c.Valid()
    ensures c.storage == Replay(old(c.storage), es)
    ensures c.centerOutbox == old(c.centerOutbox) + LoadReports(c.channel, old(c.storage), es)
  {
    ghost var dir, sent := c.storage, c.centerOutbox;
    var i := 0;
    while i < |es|
      invariant 0 <= i <= |es|
      invariant c.Valid()
      invariant c.storage == Replay(dir, es[..i])
      invariant c.centerOutbox == sent + LoadReports(c.channel, dir, es[..i])
      decreases |es| - i
    {
      ApplyEvent(c, dir, sent, es[..i], es[i]);
      assert es[..i + 1] == es[..i] + [es[i]];
      i := i + 1;
    }
    assert es[..|es|] == es;
  }

  /** The directories of the run add a, add b, remove a hold 1, 2 and 1
      players. */
  lemma TwoJoinOneLeaves(a: Player, b: Player)
    requires a.id != b.id
    ensures var d1 := Apply(map[], Added(a));
            var d2 := Apply(d1, Added(b));
            |d1| == 1 && |d2| == 2 && |Apply(d2, Removed(a))| == 1
  {
    var d2 := Apply(Apply(map[], Added(a)), Added(b));
    assert Apply(d2, Removed(a)) == map[b.id := b];
  }

  /** Add a, add b, remove a: the directory ends with one player and the
      center is sent the counts 1, 2, 1 in that order. */
  method AddAddRemove(a: Player, b: Player, world: byte, channel: byte, port: int32, opcodes: Opcodes)
    returns (connected: int, reports: seq<CenterMessage>)
    requires a.id != b.id
    ensures connected == 1
    ensures reports == [LoadReport(channel, 1), LoadReport(channel, 2), LoadReport(channel, 1)]
  {
    var c := new WorldChannel(world, channel, port, opcodes);
    TwoJoinOneLeaves(a, b);
    c.AddPlayer(a);
    c.AddPlayer(b);
    c.RemovePlayer(a);
    connected := |c.storage|;
    reports := c.centerOutbox;
  }

  /** A change the destination never answers: when the timeout fires the
      queue no longer holds the player, the client gets exactly one
      enable-actions packet, and the player is still connected here. */
  method UnansweredChange(p: Player, destCh: byte, world: byte, channel: byte, port: int32, opcodes: Opcodes)
    returns (pending: bool, connected: bool, packets: seq<Packet>)
    ensures !pending && connected
    ensures packets == [Packet(p.id, EnableActions)]
  {
    var c := new WorldChannel(world, channel, port, opcodes);
    c.AddPlayer(p);
    c.RequestChannelChange(p, destCh);
    c.FireTimeout(0);
    pending := p.id in c.queuedChannelChanges;
    connected := c.IsPlayerConnected(p.id);
    packets := c.clientOutbox;
  }

  /** A change the destination answers in time: the player is redirected
      once, and the timeout, cancelled, never takes the error path. */
  method AnsweredChange(p: Player, destCh: byte, host: seq<byte>, hostPort: int32,
                        world: byte, channel: byte, port: int32, opcodes: Opcodes)
    returns (pending: bool, leaving: bool, packets: seq<Packet>)
    requires hostPort != -1
    ensures !pending && leaving
    ensures packets == [Packet(p.id, NewHost(host, hostPort))]
  {
    var c := new WorldChannel(world, channel, port, opcodes);
    c.AddPlayer(p);
    c.RequestChannelChange(p, destCh);
    c.PerformChannelChange(p.id, _ => Resolved(Some(host), hostPort));
    c.FireTimeout(0);
    pending := p.id in c.queuedChannelChanges;
    leaving := p.id in c.departing;
    packets := c.clientOutbox;
  }

  /** A change whose destination cannot be resolved ends on the error path:
      the player is not prepared for leaving and the client gets control
      back. */
  method UnreachableDestination(p: Player, destCh: byte, world: byte, channel: byte, port: int32, opcodes: Opcodes)
    returns (leaving: bool, packets: seq<Packet>)
    ensures !leaving
    ensures packets == [Packet(p.id, EnableActions)]
  {
    var c := new WorldChannel(world, channel, port, opcodes);
    c.AddPlayer(p);
    c.RequestChannelChange(p, destCh);
    c.PerformChannelChange(p.id, _ => UnknownHost);
    leaving := p.id in c.departing;
    packets := c.clientOutbox;
  }

  /** Two requests for one player before any answer: the second overwrites
      the first, but the first timeout stays armed and, when it fires, drops
      the second request although that one has had neither an answer nor a
      timeout of its own. The second timeout later finds nothing queued and
      sends the client a second enable-actions packet. */
  method RequestedTwice(p: Player, first: byte, second: byte, world: byte, channel: byte, port: int32, opcodes: Opcodes)
    returns (queuedBefore: Option<byte>, pendingAfterFirstTimeout: bool, packets: seq<Packet>)
    ensures queuedBefore == Some(second)
    ensures !pendingAfterFirstTimeout
    ensures packets == [Packet(p.id, EnableActions), Packet(p.id, EnableActions)]
  {
    var c := new WorldChannel(world, channel, port, opcodes);
    c.RequestChannelChange(p, first);
    c.RequestChannelChange(p, second);
    queuedBefore := if p.id in c.queuedChannelChanges then Some(c.queuedChannelChanges[p.id].destination) else None;
    c.FireTimeout(0);
    pendingAfterFirstTimeout := p.id in c.queuedChannelChanges;
    c.FireTimeout(1);
    packets := c.clientOutbox;
  }

  /** A stored continuation is applied exactly once: the first arrival finds
      and applies it, the second finds nothing. */
  method ContinuationUsedOnce(p: Player, context: Continuation, world: byte, channel: byte, port: int32, opcodes: Opcodes)
    returns (first: bool, second: bool, applications: seq<Application>)
    ensures first && !second
    ensures applications == [Application(p.id, context)]
  {
    var c := new WorldChannel(world, channel, port, opcodes);
    c.StorePlayerBuffs(p.id, context);
    first := c.ApplyBuffsFromLastChannel(p);
    second := c.ApplyBuffsFromLastChannel(p);
    applications := c.applied;
  }

  /** Shutting down reports the port -1: the center reads the unbound port. */
  method ShutdownReport(world: byte, channel: byte, port: int32, opcodes: Opcodes)
    returns (report: Option<PortChange>)
    ensures report == Some(PortChange(opcodes.modifyChannelPort, world, channel, -1))
  {
    var c := new WorldChannel(world, channel, port, opcodes);
    c.Shutdown();
    PortChangeRoundTrip(opcodes.modifyChannelPort, world, channel, -1);
    report := DecodePortChange(CenterBytes(opcodes, c.centerOutbox[0]));
  }
}
