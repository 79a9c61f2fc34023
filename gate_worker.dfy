/** The gate worker (src/gate/worker.rs): it accepts every new connection,
    waits for its Hello, authenticates the token and hands the connection to
    the map worker of the player's stored map. Connections are kept in a vector
    and named by their index in it; the authentication service and database are
    oracles. */
module GateWorker {
  import opened Results
  import opened Model
  import opened Schedule
  import opened Io
  import opened Text
  import opened Channel
  import Packet

  datatype Job =
    | Accept(socket: Socket)
    | Drop(index: nat, reason: string)
    | Readable(index: nat)
    | Incoming(index: nat, packet: Packet.Incoming)
    | Send(index: nat, userId: string, mapId: string)

  /** The map a player without a stored location is sent to. */
  const FallbackMapId := "map_0000"

  /** HTTP 201, the status of a successful authentication. */
  const Created: nat := 201

  /** The reply of the authentication service to one token: it was not reached,
      or it answered with a status, a readable (or unreadable) body, and a token
      record whose id can (or cannot) be parsed from that body. */
  datatype AuthReply =
    | Unreachable(error: string)
    | Reply(status: nat, text: Result<string, string>, tokenId: Result<string, string>)

  /** The result of a single-row query. */
  datatype Query = QueryFailed(error: string) | Row(value: string) | NoRow

  /** The outside services `handle_packet` consults: the authentication call,
      the database connection, the user lookup by token id and the map lookup
      by user id. */
  datatype Oracle = Oracle(auth: string -> AuthReply,
                           connect: Result<(), string>,
                           users: string -> Query,
                           locations: string -> Query)

  /** The error text of the non-201 branch: the body, or why it could not be read. */
  function BodyText(text: Result<string, string>): (s: string)
    ensures text.Ok? ==> s == text.value
    ensures text.Err? ==> s == text.error
  {
    match text
    case Ok(body) => body
    case Err(e) => e
  }

  /** The map id of a found user: the stored one, or the fallback when there is none. */
  function MapOf(q: Query): (r: Result<string, string>)
    ensures q.NoRow? ==> r == Ok(FallbackMapId)
    ensures q.Row? ==> r == Ok(q.value)
    ensures q.QueryFailed? ==> r == Err(q.error)
  {
    match q
    case QueryFailed(e) => Err(e)
    case Row(m) => Ok(m)
    case NoRow => Ok(FallbackMapId)
  }

  /** Authentication of a Hello token: the user id and map id to send it to,
      or the reason it fails. */
  function Admit(token: string, o: Oracle): (r: Result<(string, string), string>)
    ensures o.auth(token).Unreachable? ==> r == Err(o.auth(token).error)
    ensures o.auth(token).Reply? && o.auth(token).status != Created ==> r == Err(BodyText(o.auth(token).text))
    ensures r.Ok? ==>
      && o.auth(token).Reply? && o.auth(token).status == Created
      && o.auth(token).tokenId.Ok? && o.connect.Ok?
      && o.users(o.auth(token).tokenId.value) == Row(r.value.0)
      && MapOf(o.locations(r.value.0)) == Ok(r.value.1)
  {
    match o.auth(token)
    case Unreachable(e) => Err(e)
    case Reply(status, text, tokenId) =>
      if status != Created then Err(BodyText(text))
      else if tokenId.Err? then Err(tokenId.error)
      else if o.connect.Err? then Err(o.connect.error)
      else match o.users(tokenId.value)
        case QueryFailed(e) => Err(e)
        case NoRow => Err("user not found")
        case Row(userId) =>
          match MapOf(o.locations(userId))
          case Err(e) => Err(e)
          case Ok(mapId) => Ok((userId, mapId))
  }

  /** A token the service authenticates, for a stored user, is admitted to that
      user's stored map, or to the fallback map when none is stored. */
  lemma AdmittedToStoredOrFallbackMap(token: string, o: Oracle, tokenId: string, userId: string)
    requires o.auth(token).Reply? && o.auth(token).status == Created && o.auth(token).tokenId == Ok(tokenId)
    requires o.connect.Ok? && o.users(tokenId) == Row(userId)
    requires !o.locations(userId).QueryFailed?
    ensures Admit(token, o) == Ok((userId, if o.locations(userId).Row? then o.locations(userId).value else FallbackMapId))
  {
  }

  /** A token whose user the database does not know is refused as "user not found". */
  lemma UnknownUserRefused(token: string, o: Oracle, tokenId: string)
    requires o.auth(token).Reply? && o.auth(token).status == Created && o.auth(token).tokenId == Ok(tokenId)
    requires o.connect.Ok? && o.users(tokenId) == NoRow
    ensures Admit(token, o) == Err("user not found")
  {
  }

  /** The vector after `remove(i)`. */
  function RemoveAt(s: seq<Socket>, i: nat): (r: seq<Socket>)
    requires i < |s|
    ensures |r| == |s| - 1
    ensures forall j | 0 <= j < i :: r[j] == s[j]
    ensures forall j | i <= j < |r| :: r[j] == s[j + 1]
    ensures multiset(r) + multiset{s[i]} == multiset(s)
  {
    assert s == s[..i] + [s[i]] + s[i + 1..];
    s[..i] + s[i + 1..]
  }

  /** Removal shifts later indices: among distinct connections, a job still
      holding index j > i now names the connection that followed the one it meant. */
  lemma RemovalShiftsLaterIndices(s: seq<Socket>, i: nat, j: nat)
    requires i < j < |s| - 1
    requires forall a, b | 0 <= a < b < |s| :: s[a] != s[b]
    ensures RemoveAt(s, i)[j] == s[j + 1] && RemoveAt(s, i)[j] != s[j]
  {
  }

  /** The panic message of `Vec::remove` with an index out of range. */
  function RemovalPanic(index: nat, len: nat): (s: string)
    ensures |s| > 19 + |Decimal(index)|
    ensures s[..18] == "removal index (is " && s[18..18 + |Decimal(index)|] == Decimal(index)
    ensures s[18 + |Decimal(index)|] == ')'
  {
    var d := Decimal(index);
    var s := "removal index (is " + d + ") should be < len (is " + Decimal(len) + ")";
    assert s[18..18 + |d|] == d;
    assert s[18 + |d|] == ')';
    s
  }

  /** The panic message names the offending index: different indices give
      different messages. */
  lemma RemovalPanicNamesIndex(i: nat, j: nat, len: nat)
    requires RemovalPanic(i, len) == RemovalPanic(j, len)
    ensures i == j
  {
    var s := RemovalPanic(i, len);
    var di, dj := Decimal(i), Decimal(j);
    if |di| != |dj| {
      assert false;
    }
    assert di == s[18..18 + |di|] == dj;
    DecimalInjective(i, j);
  }

  /** What the event loop's race can deliver when no queued job is urgent. */
  datatype Event =
    | Connect(socket: Socket)  // the listener accepts a connection
    | Ready(index: nat)        // a tracked socket is readable
    | Timer                    // the wait for the head's due time ends

  /** The outside world as one job sees it. */
  datatype Env = Env(now: int,
                     peer: Result<string, IoError>,
                     read: Result<Packet.Incoming, IoError>,
                     oracle: Oracle)

  class Worker {
    var streams: seq<Socket>
    var queue: multiset<Scheduled<Job>>
    /** The handoffs sent so far on each registered map channel. */
    var channels: map<string, seq<Handoff>>

    /** `Worker::new`. */
    constructor ()
      ensures streams == [] && queue == multiset{} && channels == map[]
    {
      streams := [];
      queue := multiset{};
      channels := map[];
    }

    /** Registers (or replaces) the channel of map `key`, with nothing sent on it. */
    method AddChannel(key: string)
      modifies this`channels
      ensures channels == old(channels)[key := []]
    {
      channels := channels[key := []];
    }

    /** `select_job` at time `now`: a head due by then is taken before anything
        the race offers; no job comes off the queue before it is due. */
    method SelectJob(now: int, event: Event) returns (job: Option<Job>)
      modifies this`queue
      ensures IsFirstUrgent(old(queue), now) ==> job.Some? && PoppedDueHead(old(queue), queue, job.value, now)
      ensures !IsFirstUrgent(old(queue), now) ==>
        match event
        case Connect(s) => job == Some(Job.Accept(s)) && queue == old(queue)
        case Ready(i) => job == (if i < |streams| then Some(Job.Readable(i)) else None) && queue == old(queue)
        case Timer => job == None && queue == old(queue)
      ensures NoQueuedAccept(old(queue)) && job.Some? && job.value.Accept? ==> event == Connect(job.value.socket)
      ensures NoQueuedAccept(old(queue)) ==> NoQueuedAccept(queue)
    {
      if IsFirstUrgent(queue, now) {
        HeadExists(queue);
        var e :| e in queue && IsHead(queue, e);
        UrgentIffHeadDue(queue, e, now);
        queue := queue - multiset{e};
        job := Some(e.job);
      } else {
        match event
        case Connect(s) =>
          job := Some(Job.Accept(s));
        case Ready(i) =>
          job := if i < |streams| then Some(Job.Readable(i)) else None;
        case Timer =>
          job := None;
      }
    }

    /** Appends an accepted connection, once its peer address is known. */
    method Accept(socket: Socket, peer: Result<string, IoError>) returns (r: Outcome)
      modifies this`streams
      ensures peer.Err? ==> r == Failed(peer.error.message) && streams == old(streams)
      ensures peer.Ok? ==> r == Done && streams == old(streams) + [socket]
      ensures |old(streams)| <= |streams| && streams[..|old(streams)|] == old(streams)
    {
      if peer.Err? {
        return Failed(peer.error.message);
      }
      streams := streams + [socket];
      r := Done;
    }

    /** Removes the connection at `index`; an index out of range panics. */
    method Drop(index: nat, reason: string, peer: Result<string, IoError>) returns (r: Outcome)
      modifies this`streams
      ensures index >= |old(streams)| ==> r == Panicked(RemovalPanic(index, |old(streams)|)) && streams == old(streams)
      ensures index < |old(streams)| ==>
        && r == (if peer.Err? then Failed(peer.error.message) else Done)
        && streams == RemoveAt(old(streams), index)
      ensures multiset(streams) <= multiset(old(streams))
    {
      if index >= |streams| {
        return Panicked(RemovalPanic(index, |streams|));
      }
      streams := RemoveAt(streams, index);
      r := if peer.Err? then Failed(peer.error.message) else Done;
    }

    /** Reacts to a readable connection, given what reading one packet returned. */
    method Readable(index: nat, read: Result<Packet.Incoming, IoError>, now: int) returns (r: Outcome)
      modifies this`queue
      ensures index >= |streams| ==> r == Failed("stream not found") && queue == old(queue)
      ensures index < |streams| ==> r == Done
      ensures index < |streams| && read.Ok? ==> queue == old(queue) + multiset{Instant(now, Job.Incoming(index, read.value))}
      ensures index < |streams| && read.Err? && !IsHard(read.error) ==> queue == old(queue)
      ensures index < |streams| && read.Err? && IsHard(read.error) ==>
        queue == old(queue) + multiset{Instant(now, Job.Drop(index, read.error.message))}
      ensures NoQueuedAccept(old(queue)) ==> NoQueuedAccept(queue)
    {
      if index >= |streams| {
        return Failed("stream not found");
      }
      var schedule;
      match read {
        case Ok(packet) =>
          schedule := Instant(now, Job.Incoming(index, packet));
        case Err(e) =>
          if e.kind == WouldBlock {
            return Done;
          }
          schedule := Instant(now, Job.Drop(index, e.message));
      }
      queue := queue + multiset{schedule};
      r := Done;
    }

    /** `handle_packet`: a Hello is authenticated and, if admitted, its
        connection is scheduled to be sent on; other packets are ignored. */
    method HandlePacket(index: nat, packet: Packet.Incoming, o: Oracle, now: int) returns (r: Outcome)
      modifies this`queue
      ensures !packet.Hello? ==> r == Done && queue == old(queue)
      ensures packet.Hello? && Admit(packet.token, o).Err? ==>
        r == Failed(Admit(packet.token, o).error) && queue == old(queue)
      ensures packet.Hello? && Admit(packet.token, o).Ok? ==>
        var (userId, mapId) := Admit(packet.token, o).value;
        r == Done && queue == old(queue) + multiset{Instant(now, Job.Send(index, userId, mapId))}
      ensures NoQueuedAccept(old(queue)) ==> NoQueuedAccept(queue)
    {
      match packet {
        case Hello(token) =>
          var admitted := Admit(token, o);
          if admitted.Err? {
            return Failed(admitted.error);
          }
          var (userId, mapId) := admitted.value;
          queue := queue + multiset{Instant(now, Job.Send(index, userId, mapId))};
          r := Done;
        case _ =>
          r := Done;
      }
    }

    /** A decoded packet: a failure of its handler becomes a Drop of that index. */
    method Incoming(index: nat, packet: Packet.Incoming, o: Oracle, now: int) returns (r: Outcome)
      modifies this`queue
      ensures r == Done
      ensures !packet.Hello? ==> queue == old(queue)
      ensures packet.Hello? && Admit(packet.token, o).Err? ==>
        queue == old(queue) + multiset{Instant(now, Job.Drop(index, Admit(packet.token, o).error))}
      ensures packet.Hello? && Admit(packet.token, o).Ok? ==>
        var (userId, mapId) := Admit(packet.token, o).value;
        queue == old(queue) + multiset{Instant(now, Job.Send(index, userId, mapId))}
      ensures NoQueuedAccept(old(queue)) ==> NoQueuedAccept(queue)
    {
      var handled := HandlePacket(index, packet, o, now);
      if handled.Failed? {
        queue := queue + multiset{Instant(now, Job.Drop(index, handled.reason))};
      }
      r := Done;
    }

    /** Takes the connection at `index` out of the gate and, if map `mapId` has
        a channel, hands it over there at the origin. */
    method Send(index: nat, userId: string, mapId: string) returns (r: Outcome)
      modifies this`streams, this`channels
      ensures index >= |old(streams)| ==>
        r == Panicked(RemovalPanic(index, |old(streams)|)) && streams == old(streams) && channels == old(channels)
      ensures index < |old(streams)| ==>
        && r == Done
        && streams == RemoveAt(old(streams), index)
        && (mapId !in old(channels) ==> channels == old(channels))
        && (mapId in old(channels) ==>
              channels == old(channels)[mapId := old(channels)[mapId] + [Handoff(old(streams)[index], userId, Position(0, 0, 0))]])
      ensures multiset(streams) <= multiset(old(streams))
      ensures channels.Keys == old(channels).Keys
      ensures forall k | k in old(channels) ::
        |old(channels)[k]| <= |channels[k]| && channels[k][..|old(channels)[k]|] == old(channels)[k]
    {
      if index >= |streams| {
        return Panicked(RemovalPanic(index, |streams|));
      }
      var stream := streams[index];
      streams := RemoveAt(streams, index);
      if mapId in channels {
        channels := channels[mapId := channels[mapId] + [Handoff(stream, userId, Position(0, 0, 0))]];
      }
      r := Done;
    }

    /** `handle_job`: dispatch one job. Channels only grow, and only Accept brings
        a connection in: every other job keeps or removes connections. */
    method HandleJob(job: Job, env: Env) returns (r: Outcome)
      modifies this
      ensures channels.Keys == old(channels).Keys
      ensures forall k | k in old(channels) ::
        |old(channels)[k]| <= |channels[k]| && channels[k][..|old(channels)[k]|] == old(channels)[k]
      ensures multiset(streams) <= multiset(old(streams)) + Accepted(job)
      ensures NoQueuedAccept(old(queue)) ==> NoQueuedAccept(queue)
    {
      match job {
        case Accept(socket) =>
          r := Accept(socket, env.peer);
        case Drop(index, reason) =>
          r := Drop(index, reason, env.peer);
        case Readable(index) =>
          r := Readable(index, env.read, env.now);
        case Incoming(index, packet) =>
          r := Incoming(index, packet, env.oracle, env.now);
        case Send(index, userId, mapId) =>
          r := Send(index, userId, mapId);
      }
    }

    /** One iteration of `run`: select a job and handle it. */
    method RunOnce(event: Event, env: Env) returns (r: Option<Outcome>)
      modifies this
      ensures channels.Keys == old(channels).Keys
      ensures NoQueuedAccept(old(queue)) ==>
        && multiset(streams) <= multiset(old(streams)) + (if event.Connect? then multiset{event.socket} else multiset{})
        && NoQueuedAccept(queue)
    {
      var job := SelectJob(env.now, event);
      if job.None? {
        return None;
      }
      assert NoQueuedAccept(old(queue)) ==>
        Accepted(job.value) <= if event.Connect? then multiset{event.socket} else multiset{};
      var outcome := HandleJob(job.value, env);
      r := Some(outcome);
    }
  }

  /** Accept jobs come from the listener, never from the queue. */
  predicate NoQueuedAccept(q: multiset<Scheduled<Job>>)
  {
    forall e | e in q :: !e.job.Accept?
  }

  /** The connection a job brings in, if any. */
  function Accepted(job: Job): (m: multiset<Socket>)
    ensures |m| <= 1
    ensures m != multiset{} <==> job.Accept?
  {
    if job.Accept? then multiset{job.socket} else multiset{}
  }
}
