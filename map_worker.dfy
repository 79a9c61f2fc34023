/** The per-map world worker (src/map/worker.rs). It owns one map's tile grid,
    the registry of connected players (actor id to socket and position) and its
    own job queue, and turns each selected job into changes of that state and
    newly queued jobs. Sockets are opaque handles; every socket or clock result
    a handler depends on is one of its parameters. */
module MapWorker {
  import opened Results
  import opened Wire
  import opened Model
  import opened MapActor
  import opened Schedule
  import opened Io
  import opened Channel
  import Packet
  import Writer

  type Id = string

  /** A tile of the grid and the actors standing on it. */
  datatype Tile = Tile(rotation: int, actors: map<Id, Actor>)

  /** A registry entry: the player's socket and the tile it stands on. */
  datatype Conn = Conn(socket: Socket, position: Position)

  /** The outgoing packets the worker sends. Their byte layout is not part of
      this model; each handler that sends is given the encoder. */
  datatype Message =
    | Hello(id: Id, mapId: string, actors: map<Id, Position>)
    | Move(id: Id, position: Position, duration: nat)
    | Stop(id: Id, position: Position)

  datatype Job =
    | Accept(conn: Socket, id: Id, position: Position)
    | Drop(key: Id, reason: string)
    | Readable(key: Id)
    | Incoming(key: Id, packet: Packet.Incoming)
    | Write(key: Id, message: Message)
    | Broadcast(message: Message)
    | Move(key: Id, duration: nat)

  /** Milliseconds an actor waits on a tile before it moves on. */
  const MoveCooldown: nat := 300

  // ---------------------------------------------------------------------------
  // The grid built from the map definition

  /** A tile as the map definition describes it: its rotation and nobody on it. */
  function FromPlacable(p: Placable): (t: Tile)
    ensures t.rotation == p.rotation && t.actors == map[]
  {
    Tile(p.rotation, map[])
  }

  function Positions(tiles: seq<(Position, Placable)>): set<Position>
  {
    set i | 0 <= i < |tiles| :: tiles[i].0
  }

  /** No later entry of `tiles` names the position of entry i. */
  predicate IsLastAt(tiles: seq<(Position, Placable)>, i: nat)
    requires i < |tiles|
  {
    forall j | i < j < |tiles| :: tiles[j].0 != tiles[i].0
  }

  /** The positions of a non-empty list are those of all but its last entry,
      plus the last entry's. */
  lemma PositionsSnoc(tiles: seq<(Position, Placable)>)
    requires tiles != []
    ensures Positions(tiles) == Positions(tiles[..|tiles| - 1]) + {tiles[|tiles| - 1].0}
  {
    var init := tiles[..|tiles| - 1];
    forall p | p in Positions(tiles) ensures p in Positions(init) + {tiles[|tiles| - 1].0} {
      var i :| 0 <= i < |tiles| && tiles[i].0 == p;
      if i < |init| { assert init[i] == tiles[i]; }
    }
    forall p | p in Positions(init) ensures p in Positions(tiles) {
      var i :| 0 <= i < |init| && init[i].0 == p;
      assert tiles[i] == init[i];
    }
  }

  /** The grid `from_map` collects: one tile per listed position, the last entry
      for a position deciding its tile, and nobody on any tile. */
  function Grid(tiles: seq<(Position, Placable)>): (g: map<Position, Tile>)
    ensures g.Keys == Positions(tiles)
    ensures forall p | p in g :: g[p].actors == map[]
    ensures forall i | 0 <= i < |tiles| && IsLastAt(tiles, i) :: g[tiles[i].0] == FromPlacable(tiles[i].1)
  {
    if tiles == [] then map[]
    else
      var last := tiles[|tiles| - 1];
      var g := Grid(tiles[..|tiles| - 1]);
      GridSnoc(tiles, g);
      g[last.0 := FromPlacable(last.1)]
  }

  /** One step of `collect`: inserting the last entry into the grid of all the
      earlier ones gives the grid of the whole list. */
  lemma GridSnoc(tiles: seq<(Position, Placable)>, g: map<Position, Tile>)
    requires tiles != []
    requires g.Keys == Positions(tiles[..|tiles| - 1])
    requires forall p | p in g :: g[p].actors == map[]
    requires forall i | 0 <= i < |tiles| - 1 && IsLastAt(tiles[..|tiles| - 1], i) ::
      g[tiles[i].0] == FromPlacable(tiles[i].1)
    ensures var h := g[tiles[|tiles| - 1].0 := FromPlacable(tiles[|tiles| - 1].1)];
      && h.Keys == Positions(tiles)
      && (forall p | p in h :: h[p].actors == map[])
      && (forall i | 0 <= i < |tiles| && IsLastAt(tiles, i) :: h[tiles[i].0] == FromPlacable(tiles[i].1))
  {
    var init := tiles[..|tiles| - 1];
    var last := tiles[|tiles| - 1];
    var h := g[last.0 := FromPlacable(last.1)];
    PositionsSnoc(tiles);
    forall i | 0 <= i < |tiles| && IsLastAt(tiles, i)
      ensures h[tiles[i].0] == FromPlacable(tiles[i].1)
    {
      if i < |init| {
        assert tiles[i].0 != last.0;
        assert init[i] == tiles[i];
        assert IsLastAt(init, i) by {
          forall j | i < j < |init| ensures init[j].0 != init[i].0 {
            assert init[j] == tiles[j];
          }
        }
      }
    }
  }

  // ---------------------------------------------------------------------------
  // Movement on the grid

  /** The tile next to p in direction d: Up is +z, Right +x, Down -z, Left -x. */
  function Step(p: Position, d: Direction): (q: Position)
    requires d != Idle
    ensures q.y == p.y && q != p
    ensures (q.x - p.x) * (q.x - p.x) + (q.z - p.z) * (q.z - p.z) == 1
  {
    match d
    case Up => p.(z := p.z + 1)
    case Right => p.(x := p.x + 1)
    case Down => p.(z := p.z - 1)
    case Left => p.(x := p.x - 1)
  }

  /** The direction rule of a Move request: the actor's new movement state, and
      whether a move cycle starts now. A request for the current direction changes
      nothing; otherwise the direction is taken, and a cycle starts only for an
      actor that stood still, is heading somewhere, and has waited out the cooldown. */
  function Steer(m: Movable, d: Direction, now: int): (r: (Movable, bool))
    ensures m.direction == d ==> r == (m, false)
    ensures m.direction != d ==> r.0 == m.(direction := d)
    ensures r.1 <==> m.direction == Idle && d != Idle && now >= m.movedAt + MoveCooldown
  {
    if m.direction == d then (m, false)
    else
      var isCool := m.movedAt + MoveCooldown > now;
      (m.(direction := d), !(isCool || d == Idle || m.direction != Idle))
  }

  /** Within the cooldown of the last tile transition no request starts a move. */
  lemma CooldownCoalesces(m: Movable, d: Direction, now: int)
    requires now < m.movedAt + MoveCooldown
    ensures !Steer(m, d, now).1
  {
  }

  /** A redirect while already moving starts no second cycle. */
  lemma RedirectStartsNothing(m: Movable, d: Direction, now: int)
    requires m.direction != Idle
    ensures !Steer(m, d, now).1
  {
  }

  /** A newly accepted actor asked to move within 300 ms of arriving only turns. */
  lemma NewActorWaitsOutCooldown(id: Id, created: int, d: Direction, now: int)
    requires d != Idle && now < created + MoveCooldown
    ensures Steer(NewActor(id, created).movable, d, now) == (Movable(d, created), false)
  {
  }

  // ---------------------------------------------------------------------------
  // Grid updates and the agreement between grid and registry

  /** The grid with actor a standing on tile p under key k. */
  function Place(tiles: map<Position, Tile>, p: Position, k: Id, a: Actor): (r: map<Position, Tile>)
    requires p in tiles
    ensures r.Keys == tiles.Keys
    ensures r[p] == tiles[p].(actors := tiles[p].actors[k := a])
    ensures forall q | q in tiles && q != p :: r[q] == tiles[q]
  {
    tiles[p := tiles[p].(actors := tiles[p].actors[k := a])]
  }

  /** The grid with key k taken off tile p (if there is such a tile). */
  function Unplace(tiles: map<Position, Tile>, p: Position, k: Id): (r: map<Position, Tile>)
    ensures r.Keys == tiles.Keys
    ensures p in tiles ==> r[p] == tiles[p].(actors := tiles[p].actors - {k})
    ensures forall q | q in tiles && q != p :: r[q] == tiles[q]
  {
    if p in tiles then tiles[p := tiles[p].(actors := tiles[p].actors - {k})] else tiles
  }

  /** Grid and registry agree: a registered id stands on the tile recorded for it,
      and every actor on a tile is registered there, under its own id. */
  ghost predicate Agree(tiles: map<Position, Tile>, streams: map<Id, Conn>)
  {
    && (forall k | k in streams :: streams[k].position in tiles && k in tiles[streams[k].position].actors)
    && (forall p, k | p in tiles && k in tiles[p].actors ::
          k in streams && streams[k].position == p && tiles[p].actors[k].id == k)
  }

  /** Under agreement an actor id stands on at most one tile. */
  lemma OneTilePerActor(tiles: map<Position, Tile>, streams: map<Id, Conn>, k: Id, p: Position, q: Position)
    requires Agree(tiles, streams)
    requires p in tiles && k in tiles[p].actors && q in tiles && k in tiles[q].actors
    ensures p == q
  {
    assert streams[k].position == p;
    assert streams[k].position == q;
  }

  lemma AcceptKeepsAgreement(tiles: map<Position, Tile>, streams: map<Id, Conn>, p: Position, k: Id, conn: Socket, now: int)
    requires Agree(tiles, streams) && p in tiles && k !in streams
    ensures Agree(Place(tiles, p, k, NewActor(k, now)), streams[k := Conn(conn, p)])
  {
  }

  lemma DropKeepsAgreement(tiles: map<Position, Tile>, streams: map<Id, Conn>, k: Id)
    requires Agree(tiles, streams) && k in streams
    ensures Agree(Unplace(tiles, streams[k].position, k), streams - {k})
  {
  }

  /** Changing how a registered actor moves keeps the agreement. */
  lemma SteerKeepsAgreement(tiles: map<Position, Tile>, streams: map<Id, Conn>, k: Id, m: Movable)
    requires Agree(tiles, streams) && k in streams
    ensures var p := streams[k].position;
      Agree(Place(tiles, p, k, tiles[p].actors[k].(movable := m)), streams)
  {
  }

  /** Moving a registered actor to another tile, on the grid and in the registry
      together, keeps the agreement. */
  lemma RelocateKeepsAgreement(tiles: map<Position, Tile>, streams: map<Id, Conn>, k: Id, q: Position, m: Movable)
    requires Agree(tiles, streams) && k in streams && q in tiles
    ensures var p := streams[k].position;
      Agree(Place(Unplace(tiles, p, k), q, k, tiles[p].actors[k].(movable := m)),
            streams[k := streams[k].(position := q)])
  {
    var p := streams[k].position;
    var a := tiles[p].actors[k];
    var t1 := Place(Unplace(tiles, p, k), q, k, a.(movable := m));
    var s1 := streams[k := streams[k].(position := q)];
    forall p', k' | p' in t1 && k' in t1[p'].actors
      ensures k' in s1 && s1[k'].position == p' && t1[p'].actors[k'].id == k'
    {
      if k' != k {
        assert k' in tiles[p'].actors;
      }
    }
  }

  /** Accepting an id that is already registered elsewhere breaks the agreement:
      its old tile keeps an actor the registry no longer places there. */
  lemma ReacceptBreaksAgreement()
    ensures var a := NewActor("u", 0);
      var tiles := map[Position(0, 0, 0) := Tile(0, map[]), Position(1, 0, 0) := Tile(0, map["u" := a])];
      var streams := map["u" := Conn(1, Position(1, 0, 0))];
      Agree(tiles, streams) &&
      !Agree(Place(tiles, Position(0, 0, 0), "u", a), streams["u" := Conn(2, Position(0, 0, 0))])
  {
    var a := NewActor("u", 0);
    var p0, p1 := Position(0, 0, 0), Position(1, 0, 0);
    var tiles := map[p0 := Tile(0, map[]), p1 := Tile(0, map["u" := a])];
    var streams := map["u" := Conn(1, p1)];
    assert tiles.Keys == {p0, p1};
    forall p, k | p in tiles && k in tiles[p].actors
      ensures k in streams && streams[k].position == p && tiles[p].actors[k].id == k
    {
      assert p == p1 && k == "u";
    }
    assert Agree(tiles, streams);
    var t1 := Place(tiles, p0, "u", a);
    var s1 := streams["u" := Conn(2, p0)];
    assert p1 in t1 && "u" in t1[p1].actors && s1["u"].position != p1;
    assert !Agree(t1, s1);
  }

  /** `(key, position)` of everyone registered: the roster sent in Hello. */
  function Roster(streams: map<Id, Conn>): (r: map<Id, Position>)
    ensures r.Keys == streams.Keys
    ensures forall k | k in r :: r[k] == streams[k].position
  {
    map k | k in streams :: streams[k].position
  }

  /** Why a job for `key` that needs its stream, tile and actor fails, if it does. */
  function LookupFailure(tiles: map<Position, Tile>, streams: map<Id, Conn>, key: Id): (r: Option<string>)
    ensures r == None <==>
      key in streams && streams[key].position in tiles && key in tiles[streams[key].position].actors
    ensures key !in streams ==> r == Some("no stream")
    ensures key in streams && streams[key].position !in tiles ==> r == Some("no tile")
    ensures key in streams && streams[key].position in tiles && key !in tiles[streams[key].position].actors ==>
      r == Some("no actor")
    ensures r.Some? ==> r.value in {"no stream", "no tile", "no actor"}
  {
    if key !in streams then Some("no stream")
    else if streams[key].position !in tiles then Some("no tile")
    else if key !in tiles[streams[key].position].actors then Some("no actor")
    else None
  }

  /** Under agreement the lookups fail only for an unregistered id. */
  lemma LookupFailsOnlyWhenUnregistered(tiles: map<Position, Tile>, streams: map<Id, Conn>, key: Id)
    requires Agree(tiles, streams)
    ensures LookupFailure(tiles, streams, key) == if key in streams then None else Some("no stream")
  {
  }

  /** What a Move request for direction d does once the lookups succeed:
      the actor's movement state per `Steer`, and a Move job only if a cycle
      starts and the actor has no tick queued already. */
  ghost predicate Steered(t0: map<Position, Tile>, q0: multiset<Scheduled<Job>>,
                          t1: map<Position, Tile>, q1: multiset<Scheduled<Job>>,
                          streams: map<Id, Conn>, key: Id, d: Direction, now: int)
  {
    && LookupFailure(t0, streams, key) == None
    && var p := streams[key].position;
       var a := t0[p].actors[key];
       var s := Steer(a.movable, d, now);
       && t1 == Place(t0, p, key, a.(movable := s.0))
       && q1 == q0 + (if s.1 && !Ticking(q0, key) then multiset{Instant(now, Job.Move(key, MoveCooldown))} else multiset{})
  }

  /** Asking for the direction an actor already has changes nothing and queues nothing. */
  lemma SameDirectionIsNoOp(t0: map<Position, Tile>, q0: multiset<Scheduled<Job>>,
                            t1: map<Position, Tile>, q1: multiset<Scheduled<Job>>,
                            streams: map<Id, Conn>, key: Id, d: Direction, now: int)
    requires Steered(t0, q0, t1, q1, streams, key, d, now)
    requires t0[streams[key].position].actors[key].movable.direction == d
    ensures t1 == t0 && q1 == q0
  {
    var p := streams[key].position;
    assert t0[p].actors[key := t0[p].actors[key]] == t0[p].actors;
    assert Place(t0, p, key, t0[p].actors[key]) == t0;
  }

  // ---------------------------------------------------------------------------
  // Movement chains: each queued Move tick of an actor reschedules itself, so
  // the ticks queued for an actor are its movement chains.

  /** Entry e is a movement tick of actor k. */
  predicate IsTick(e: Scheduled<Job>, k: Id)
  {
    e.job.Move? && e.job.key == k
  }

  /** A movement tick of actor k is queued: a chain of k is running. */
  predicate Ticking(q: multiset<Scheduled<Job>>, k: Id)
  {
    exists e | e in q :: IsTick(e, k)
  }

  /** No actor has two movement chains: at most one tick per actor is queued,
      and that one only once. */
  ghost predicate OneChainEach(q: multiset<Scheduled<Job>>)
  {
    forall e, f {:trigger IsTick(f, e.job.key)} | e in q && f in q && e.job.Move? && IsTick(f, e.job.key) ::
      e == f && q[e] == 1
  }

  /** Queueing anything but ticks starts no chain. */
  lemma AddOthersKeepsOneChain(q: multiset<Scheduled<Job>>, r: multiset<Scheduled<Job>>)
    requires forall e | e in r :: !e.job.Move?
    ensures OneChainEach(q) ==> OneChainEach(q + r)
  {
    if OneChainEach(q) {
      forall e, f | e in q + r && f in q + r && e.job.Move? && IsTick(f, e.job.key)
        ensures e == f && (q + r)[e] == 1
      {
        assert e !in r && f !in r;
      }
    }
  }

  /** Queueing a tick for an actor that has no chain gives it exactly one. */
  lemma AddTickKeepsOneChain(q: multiset<Scheduled<Job>>, e: Scheduled<Job>)
    requires e.job.Move?
    ensures OneChainEach(q) && !Ticking(q, e.job.key) ==> OneChainEach(q + multiset{e})
  {
    if OneChainEach(q) && !Ticking(q, e.job.key) {
      assert forall f | f in q :: !IsTick(f, e.job.key);
      assert e !in q;
    }
  }

  /** A tick that announces its move and queues the next tick keeps its actor
      to one chain. */
  lemma RescheduleKeepsOneChain(q: multiset<Scheduled<Job>>, told: Scheduled<Job>, tick: Scheduled<Job>)
    requires !told.job.Move? && tick.job.Move?
    ensures OneChainEach(q) && !Ticking(q, tick.job.key) ==> OneChainEach(q + multiset{told, tick})
  {
    AddTickKeepsOneChain(q, tick);
    AddOthersKeepsOneChain(q + multiset{tick}, multiset{told});
    assert q + multiset{tick} + multiset{told} == q + multiset{told, tick};
  }

  /** Taking an entry out keeps the chains apart, and taking out an actor's tick
      leaves that actor with no chain. */
  lemma PopKeepsOneChain(q: multiset<Scheduled<Job>>, e: Scheduled<Job>)
    requires e in q
    ensures OneChainEach(q) ==> OneChainEach(q - multiset{e})
    ensures OneChainEach(q) && e.job.Move? ==> !Ticking(q - multiset{e}, e.job.key)
  {
    if OneChainEach(q) && e.job.Move? {
      assert IsTick(e, e.job.key);
      assert (q - multiset{e})[e] == 0;
      forall f | f in q - multiset{e} ensures !IsTick(f, e.job.key) {
        assert f in q;
      }
    }
  }

  /** The source's rule starts a second chain. Actor u last moved at 300,
      so its next tick is due at 600. It has since asked for Idle. A request
      for Right handled at 600, before that tick, finds it Idle and cooled
      down, and `is_cool` starts a new chain beside the one still queued. */
  lemma AsWrittenStartsSecondChain()
    ensures var m := Movable(Idle, 300);
      var q0 := multiset{Scheduled(600, Job.Move("u", MoveCooldown))};
      && OneChainEach(q0) && Ticking(q0, "u")
      && Steer(m, Right, 600) == (Movable(Right, 300), true)
      && !OneChainEach(q0 + multiset{Instant(600, Job.Move("u", MoveCooldown))})
  {
    var e := Scheduled(600, Job.Move("u", MoveCooldown));
    var q0 := multiset{e};
    var q1 := q0 + multiset{Instant(600, Job.Move("u", MoveCooldown))};
    assert e in q0 && IsTick(e, "u");
    assert q1[e] == 2;
  }

  /** A Move request keeps every actor to at most one chain. */
  lemma SteeredKeepsOneChain(t0: map<Position, Tile>, q0: multiset<Scheduled<Job>>,
                             t1: map<Position, Tile>, q1: multiset<Scheduled<Job>>,
                             streams: map<Id, Conn>, key: Id, d: Direction, now: int)
    requires OneChainEach(q0) && Steered(t0, q0, t1, q1, streams, key, d, now)
    ensures OneChainEach(q1)
  {
    if q1 != q0 {
      AddTickKeepsOneChain(q0, Instant(now, Job.Move(key, MoveCooldown)));
    }
  }

  /** The Drop pushed for a failed write, if the failure is not would-block. */
  function DropOnFailure(key: Id, w: Result<nat, IoError>, now: int): (q: multiset<Scheduled<Job>>)
    ensures |q| <= 1
    ensures q != multiset{} <==> w.Err? && IsHard(w.error)
    ensures forall e | e in q :: w.Err? && e == Instant(now, Job.Drop(key, w.error.message))
  {
    if w.Err? && IsHard(w.error) then multiset{Instant(now, Job.Drop(key, w.error.message))} else multiset{}
  }

  predicate FailedHard(w: Result<nat, IoError>)
  {
    w.Err? && IsHard(w.error)
  }

  /** The Drops a broadcast to `keys` pushes: one for each key whose write failed hard. */
  function BroadcastDrops(keys: set<Id>, writes: Id -> Result<nat, IoError>, now: int): set<Scheduled<Job>>
  {
    set k | k in keys && FailedHard(writes(k)) :: Instant(now, Job.Drop(k, writes(k).error.message))
  }

  lemma BroadcastDropsAdd(keys: set<Id>, k: Id, writes: Id -> Result<nat, IoError>, now: int)
    ensures BroadcastDrops(keys + {k}, writes, now)
         == BroadcastDrops(keys, writes, now)
          + (if FailedHard(writes(k)) then {Instant(now, Job.Drop(k, writes(k).error.message))} else {})
  {
  }

  /** A broadcast queues a Drop for exactly the registered keys whose write failed hard. */
  lemma BroadcastDropsExactly(keys: set<Id>, writes: Id -> Result<nat, IoError>, now: int, k: Id, reason: string)
    ensures Instant(now, Job.Drop(k, reason)) in BroadcastDrops(keys, writes, now)
        <==> k in keys && FailedHard(writes(k)) && reason == writes(k).error.message
  {
  }

  /** The broadcast loop: try the write to each key of `keys`, whatever earlier
      writes did, and collect the Drops of those that failed hard. */
  method WriteEach(keys: set<Id>, writes: Id -> Result<nat, IoError>, now: int)
    returns (pushed: set<Scheduled<Job>>)
    ensures pushed == BroadcastDrops(keys, writes, now)
  {
    var pending := keys;
    pushed := {};
    ghost var done: set<Id> := {};
    while pending != {}
      invariant pending + done == keys && pending !! done
      invariant pushed == BroadcastDrops(done, writes, now)
      decreases pending
    {
      var key :| key in pending;
      match writes(key) {
        case Ok(_) =>
        case Err(e) =>
          if e.kind != WouldBlock {
            pushed := pushed + {Instant(now, Job.Drop(key, e.message))};
          }
      }
      BroadcastDropsAdd(done, key, writes, now);
      pending := pending - {key};
      done := done + {key};
    }
  }

  predicate NoQueuedAccept(q: multiset<Scheduled<Job>>)
  {
    forall e | e in q :: !e.job.Accept?
  }

  /** What the event loop's race can deliver when no queued job is urgent. */
  datatype Event =
    | Arrival(handoff: Handoff)                          // a connection arrives on the map's channel
    | Ready(key: Id)                                      // a tracked socket is readable
    | Timer                                               // the wait for the head's due time ends

  /** The outside world as one job sees it: the clock, the socket's peer
      address, what a read returns, what a write to each registered key
      returns, and the packet encoder. */
  datatype Env = Env(now: int,
                     peer: Result<string, IoError>,
                     read: Result<Packet.Incoming, IoError>,
                     writes: Id -> Result<nat, IoError>,
                     encode: Message -> seq<byte>)

  class Worker {
    const id: string
    const name: string
    var tiles: map<Position, Tile>
    var streams: map<Id, Conn>
    var queue: multiset<Scheduled<Job>>

    ghost predicate Valid()
      reads this
    {
      Agree(tiles, streams) && NoQueuedAccept(queue)
    }

    /** `Worker::from_map`. */
    constructor FromMap(m: MapData)
      ensures id == m.id && name == m.name
      ensures tiles == Grid(m.tiles) && tiles.Keys == Positions(m.tiles)
      ensures streams == map[] && queue == multiset{}
      ensures Valid() && OneChainEach(queue)
    {
      id := m.id;
      name := m.name;
      tiles := Grid(m.tiles);
      streams := map[];
      queue := multiset{};
    }

    /** `select_job` at time `now`: a head due by then is taken before anything
        the race offers; no job comes off the queue before it is due. */
    method SelectJob(now: int, event: Event) returns (job: Option<Job>)
      modifies this`queue
      ensures IsFirstUrgent(old(queue), now) ==> job.Some? && PoppedDueHead(old(queue), queue, job.value, now)
      ensures !IsFirstUrgent(old(queue), now) ==>
        match event
        case Arrival(h) => job == Some(Job.Accept(h.socket, h.userId, h.position)) && queue == old(queue)
        case Ready(k) => job == (if k in streams then Some(Job.Readable(k)) else None) && queue == old(queue)
        case Timer => job == None && queue == old(queue)
      ensures NoQueuedAccept(old(queue)) ==> NoQueuedAccept(queue)
      ensures NoQueuedAccept(old(queue)) && job.Some? && job.value.Accept? ==> event.Arrival?
      ensures OneChainEach(old(queue)) ==> OneChainEach(queue)
      ensures OneChainEach(old(queue)) && job.Some? && job.value.Move? ==> !Ticking(queue, job.value.key)
    {
      if IsFirstUrgent(queue, now) {
        HeadExists(queue);
        var e :| e in queue && IsHead(queue, e);
        UrgentIffHeadDue(queue, e, now);
        PopKeepsOneChain(queue, e);
        queue := queue - multiset{e};
        job := Some(e.job);
      } else {
        match event
        case Arrival(h) =>
          job := Some(Job.Accept(h.socket, h.userId, h.position));
        case Ready(k) =>
          job := if k in streams then Some(Job.Readable(k)) else None;
        case Timer =>
          job := None;
      }
    }

    /** Registers a handed-off connection at `position`, if that tile exists. */
    method Accept(conn: Socket, key: Id, position: Position, peer: Result<string, IoError>, now: int)
      returns (r: Outcome)
      modifies this
      ensures position !in old(tiles) || peer.Err? ==>
        && r == (if position !in old(tiles) then Failed("wrong position") else Failed(peer.error.message))
        && tiles == old(tiles) && streams == old(streams) && queue == old(queue)
      ensures position in old(tiles) && peer.Ok? ==>
        && r == Done
        && tiles == Place(old(tiles), position, key, NewActor(key, now))
        && streams == old(streams)[key := Conn(conn, position)]
        && queue == old(queue) + multiset{Instant(now, Job.Write(key, Message.Hello(key, id, Roster(streams))))}
      ensures old(Valid()) && key !in old(streams) ==> Valid()
      ensures old(OneChainEach(queue)) ==> OneChainEach(queue)
    {
      if position in tiles {
        if peer.Err? {
          return Failed(peer.error.message);
        }
        if Valid() && key !in streams {
          AcceptKeepsAgreement(tiles, streams, position, key, conn, now);
        }
        tiles := Place(tiles, position, key, NewActor(key, now));
        streams := streams[key := Conn(conn, position)];
        var hello := Instant(now, Job.Write(key, Message.Hello(key, id, Roster(streams))));
        AddOthersKeepsOneChain(queue, multiset{hello});
        queue := queue + multiset{hello};
        r := Done;
      } else {
        r := Failed("wrong position");
      }
    }

    /** Unregisters `key` and takes it off the tile recorded for it; the peer
        address looked up for the log line fails only after that. */
    method Drop(key: Id, reason: string, peer: Result<string, IoError>) returns (r: Outcome)
      modifies this`tiles, this`streams
      ensures key !in old(streams) ==> r == Failed("drop failed") && tiles == old(tiles) && streams == old(streams)
      ensures key in old(streams) ==>
        && r == (if peer.Err? then Failed(peer.error.message) else Done)
        && streams == old(streams) - {key}
        && tiles == Unplace(old(tiles), old(streams)[key].position, key)
      ensures old(Valid()) ==> Valid()
    {
      if key in streams {
        if Valid() {
          DropKeepsAgreement(tiles, streams, key);
        }
        var position := streams[key].position;
        streams := streams - {key};
        if position in tiles {
          var tile := tiles[position];
          tiles := tiles[position := tile.(actors := tile.actors - {key})];
        }
        r := if peer.Err? then Failed(peer.error.message) else Done;
      } else {
        r := Failed("drop failed");
      }
    }

    /** Reacts to a readable socket, given what reading one packet returned. */
    method Readable(key: Id, read: Result<Packet.Incoming, IoError>, now: int) returns (r: Outcome)
      modifies this`queue
      ensures key !in streams ==> r == Failed("stream not found") && queue == old(queue)
      ensures key in streams ==> r == Done
      ensures key in streams && read.Ok? ==> queue == old(queue) + multiset{Instant(now, Job.Incoming(key, read.value))}
      ensures key in streams && read.Err? && !IsHard(read.error) ==> queue == old(queue)
      ensures key in streams && read.Err? && IsHard(read.error) ==>
        queue == old(queue) + multiset{Instant(now, Job.Drop(key, read.error.message))}
      ensures old(Valid()) ==> Valid()
      ensures old(OneChainEach(queue)) ==> OneChainEach(queue)
    {
      if key !in streams {
        return Failed("stream not found");
      }
      var schedule;
      match read {
        case Ok(packet) =>
          schedule := Instant(now, Job.Incoming(key, packet));
        case Err(e) =>
          if e.kind == WouldBlock {
            return Done;
          }
          schedule := Instant(now, Job.Drop(key, e.message));
      }
      AddOthersKeepsOneChain(queue, multiset{schedule});
      queue := queue + multiset{schedule};
      r := Done;
    }

    /** `handle_packet`: only a Move request does something. It starts no cycle
        while a tick of the actor is still queued; the source omits that check
        and can start a second chain (`AsWrittenStartsSecondChain`). */
    method HandlePacket(key: Id, packet: Packet.Incoming, now: int) returns (r: Outcome)
      modifies this`tiles, this`queue
      ensures !packet.Move? ==> r == Done && tiles == old(tiles) && queue == old(queue)
      ensures packet.Move? && LookupFailure(old(tiles), streams, key).Some? ==>
        && r == Failed(LookupFailure(old(tiles), streams, key).value)
        && tiles == old(tiles) && queue == old(queue)
      ensures packet.Move? && LookupFailure(old(tiles), streams, key) == None ==>
        r == Done && Steered(old(tiles), old(queue), tiles, queue, streams, key, packet.direction, now)
      ensures r.Done? || r.Failed?
      ensures old(Valid()) ==> Valid()
      ensures old(OneChainEach(queue)) ==> OneChainEach(queue)
    {
      match packet {
        case Move(direction) =>
          if key !in streams {
            return Failed("no stream");
          }
          var position := streams[key].position;
          if position !in tiles {
            return Failed("no tile");
          }
          var tile := tiles[position];
          if key !in tile.actors {
            return Failed("no actor");
          }
          var actor := tile.actors[key];
          if actor.movable.direction == direction {
            assert tile.actors[key := actor] == tile.actors;
            assert Place(tiles, position, key, actor) == tiles;
            return Done;
          }
          var lastDirection := actor.movable.direction;
          var moved := actor.(movable := actor.movable.(direction := direction));
          if Valid() {
            SteerKeepsAgreement(tiles, streams, key, moved.movable);
          }
          tiles := tiles[position := tile.(actors := tile.actors[key := moved])];
          var isCool := actor.movable.movedAt + MoveCooldown > now;
          if isCool || direction == Idle || lastDirection != Idle {
            return Done;
          }
          if Ticking(queue, key) {
            // the chain already queued carries the new direction
            return Done;
          }
          AddTickKeepsOneChain(queue, Instant(now, Job.Move(key, MoveCooldown)));
          queue := queue + multiset{Instant(now, Job.Move(key, MoveCooldown))};
          r := Done;
        case _ =>
          r := Done;
      }
    }

    /** A decoded packet: a failure of its handler becomes a Drop of that key. */
    method Incoming(key: Id, packet: Packet.Incoming, now: int) returns (r: Outcome)
      modifies this`tiles, this`queue
      ensures r == Done
      ensures !packet.Move? ==> tiles == old(tiles) && queue == old(queue)
      ensures packet.Move? && LookupFailure(old(tiles), streams, key).Some? ==>
        && tiles == old(tiles)
        && queue == old(queue) + multiset{Instant(now, Job.Drop(key, LookupFailure(old(tiles), streams, key).value))}
      ensures packet.Move? && LookupFailure(old(tiles), streams, key) == None ==>
        Steered(old(tiles), old(queue), tiles, queue, streams, key, packet.direction, now)
      ensures old(Valid()) ==> Valid()
      ensures old(OneChainEach(queue)) ==> OneChainEach(queue)
    {
      var handled := HandlePacket(key, packet, now);
      if handled.Failed? {
        AddOthersKeepsOneChain(queue, multiset{Instant(now, Job.Drop(key, handled.reason))});
        queue := queue + multiset{Instant(now, Job.Drop(key, handled.reason))};
      }
      r := Done;
    }

    /** Best-effort write of one message to `key`; a hard failure queues its Drop. */
    method Write(key: Id, message: Message, encode: Message -> seq<byte>,
                 write: Result<nat, IoError>, now: int) returns (r: Outcome)
      modifies this`queue
      ensures key !in streams ==> r == Done && queue == old(queue)
      ensures key in streams && Writer.Frame(encode(message)).Err? ==> r == Failed(Writer.TooLarge) && queue == old(queue)
      ensures key in streams && Writer.Frame(encode(message)).Ok? ==>
        r == Done && queue == old(queue) + DropOnFailure(key, write, now)
      ensures old(Valid()) ==> Valid()
      ensures old(OneChainEach(queue)) ==> OneChainEach(queue)
    {
      if key in streams {
        var buf := Writer.Frame(encode(message));
        if buf.Err? {
          return Failed(buf.error);
        }
        match write {
          case Ok(_) =>
          case Err(e) =>
            if e.kind != WouldBlock {
              AddOthersKeepsOneChain(queue, multiset{Instant(now, Job.Drop(key, e.message))});
              queue := queue + multiset{Instant(now, Job.Drop(key, e.message))};
            }
        }
      }
      r := Done;
    }

    /** Writes one message to every registered key, whatever earlier writes did;
      each hard failure queues that key's Drop. */
    method Broadcast(message: Message, encode: Message -> seq<byte>,
                     writes: Id -> Result<nat, IoError>, now: int) returns (r: Outcome)
      modifies this`queue
      ensures Writer.Frame(encode(message)).Err? ==> r == Failed(Writer.TooLarge) && queue == old(queue)
      ensures Writer.Frame(encode(message)).Ok? ==>
        r == Done && queue == old(queue) + multiset(BroadcastDrops(streams.Keys, writes, now))
      ensures old(Valid()) ==> Valid()
      ensures old(OneChainEach(queue)) ==> OneChainEach(queue)
    {
      var buf := Writer.Frame(encode(message));
      if buf.Err? {
        return Failed(buf.error);
      }
      var pushed := WriteEach(streams.Keys, writes, now);
      AddOthersKeepsOneChain(queue, multiset(pushed));
      queue := queue + multiset(pushed);
      r := Done;
    }

    /** One movement tick for `key`: step one tile in its direction, or stop. */
    method MoveTick(key: Id, duration: nat, now: int) returns (r: Outcome)
      modifies this`tiles, this`streams, this`queue
      ensures LookupFailure(old(tiles), old(streams), key).Some? ==>
        && r == Failed(LookupFailure(old(tiles), old(streams), key).value)
        && tiles == old(tiles) && streams == old(streams) && queue == old(queue)
      ensures LookupFailure(old(tiles), old(streams), key) == None ==>
        var p := old(streams)[key].position;
        var a := old(tiles)[p].actors[key];
        var d := a.movable.direction;
        && r == Done
        && (d == Idle || Step(p, d) !in old(tiles) ==>
              && tiles == old(tiles) && streams == old(streams)
              && queue == old(queue) + multiset{Instant(now, Job.Broadcast(Message.Stop(key, p)))})
        && (d != Idle && Step(p, d) in old(tiles) ==>
              var q := Step(p, d);
              && tiles == Place(Unplace(old(tiles), p, key), q, key, a.(movable := a.movable.(movedAt := now)))
              && streams == old(streams)[key := Conn(old(streams)[key].socket, q)]
              && queue == old(queue) + multiset{Instant(now, Job.Broadcast(Message.Move(key, q, duration))),
                                                Scheduled(now + duration, Job.Move(key, duration))})
      ensures old(Valid()) ==> Valid()
      ensures old(OneChainEach(queue)) && !old(Ticking(queue, key)) ==> OneChainEach(queue)
    {
      if key !in streams {
        return Failed("no stream");
      }
      var position := streams[key].position;
      if position !in tiles {
        return Failed("no tile");
      }
      if key !in tiles[position].actors {
        return Failed("no actor");
      }
      var actor := tiles[position].actors[key];
      if actor.movable.direction == Idle {
        AddOthersKeepsOneChain(queue, multiset{Instant(now, Job.Broadcast(Message.Stop(key, position)))});
        queue := queue + multiset{Instant(now, Job.Broadcast(Message.Stop(key, position)))};
        return Done;
      }
      var next := Step(position, actor.movable.direction);
      if next !in tiles {
        AddOthersKeepsOneChain(queue, multiset{Instant(now, Job.Broadcast(Message.Stop(key, position)))});
        queue := queue + multiset{Instant(now, Job.Broadcast(Message.Stop(key, position)))};
        return Done;
      }
      Advance(key, next, duration, now);
      r := Done;
    }

    /** The moving half of a tick: the actor, stamped with `now`, goes from its
        tile to `next` on the grid and in the registry; the move is announced
        and the next tick queued, `duration` from now. */
    method Advance(key: Id, next: Position, duration: nat, now: int)
      modifies this`tiles, this`streams, this`queue
      requires LookupFailure(tiles, streams, key) == None && next in tiles
      ensures var p := old(streams)[key].position;
        var a := old(tiles)[p].actors[key];
        && tiles == Place(Unplace(old(tiles), p, key), next, key, a.(movable := a.movable.(movedAt := now)))
        && streams == old(streams)[key := Conn(old(streams)[key].socket, next)]
        && queue == old(queue) + multiset{Instant(now, Job.Broadcast(Message.Move(key, next, duration))),
                                          Scheduled(now + duration, Job.Move(key, duration))}
      ensures old(Valid()) ==> Valid()
      ensures old(OneChainEach(queue)) && !old(Ticking(queue, key)) ==> OneChainEach(queue)
    {
      var position := streams[key].position;
      var actor := tiles[position].actors[key];
      var moved := actor.(movable := actor.movable.(movedAt := now));
      if Valid() {
        RelocateKeepsAgreement(tiles, streams, key, next, moved.movable);
      }
      tiles := Place(Unplace(tiles, position, key), next, key, moved);
      streams := streams[key := streams[key].(position := next)];
      RescheduleKeepsOneChain(queue, Instant(now, Job.Broadcast(Message.Move(key, next, duration))),
                              Scheduled(now + duration, Job.Move(key, duration)));
      queue := queue + multiset{Instant(now, Job.Broadcast(Message.Move(key, next, duration))),
                                Scheduled(now + duration, Job.Move(key, duration))};
    }

    /** `handle_job`: dispatch one job. Every job keeps grid and registry in
        agreement, an Accept provided its id is not registered yet. */
    method HandleJob(job: Job, env: Env) returns (r: Outcome)
      modifies this
      ensures old(Valid()) && (job.Accept? ==> job.id !in old(streams)) ==> Valid()
      ensures old(OneChainEach(queue)) && (job.Move? ==> !old(Ticking(queue, job.key))) ==> OneChainEach(queue)
      ensures tiles.Keys == old(tiles).Keys
      ensures r.Done? || r.Failed?
    {
      match job {
        case Accept(conn, key, position) =>
          r := Accept(conn, key, position, env.peer, env.now);
        case Drop(key, reason) =>
          r := Drop(key, reason, env.peer);
        case Readable(key) =>
          r := Readable(key, env.read, env.now);
        case Incoming(key, packet) =>
          r := Incoming(key, packet, env.now);
        case Write(key, message) =>
          r := Write(key, message, env.encode, env.writes(key), env.now);
        case Broadcast(message) =>
          r := Broadcast(message, env.encode, env.writes, env.now);
        case Move(key, duration) =>
          r := MoveTick(key, duration, env.now);
      }
    }

    /** One iteration of `run`: select a job and handle it. */
    method RunOnce(event: Event, env: Env) returns (r: Option<Outcome>)
      modifies this
      ensures old(Valid()) && (event.Arrival? ==> event.handoff.userId !in old(streams)) ==> Valid()
      ensures old(OneChainEach(queue)) ==> OneChainEach(queue)
      ensures tiles.Keys == old(tiles).Keys
    {
      var job := SelectJob(env.now, event);
      if job.None? {
        return None;
      }
      var outcome := HandleJob(job.value, env);
      r := Some(outcome);
    }
  }
}
