/**
 The gateway's in-memory room registry (pkgs/go/storage/storage.go). Instants are
 nanoseconds. Nicknames are left out: a room's peers are a set of ids.
 */
module Storage {
  import opened Options

  type Name = string
  type PeerId = string
  type Bytes = seq<bv8>

  const SECOND: nat := 1_000_000_000

  datatype Room = Room(
    peers: set<PeerId>,
    lastActivity: nat,
    ttlSeconds: nat,
    createdAt: nat,
    salt: Bytes)

  type Rooms = map<Name, Room>

  function Joined(rooms: Rooms, name: Name, peer: PeerId, ttl: int, salt: Bytes, now: nat): Rooms {
    var r := if name in rooms then rooms[name] else Room({}, now, if ttl > 0 then ttl else 0, now, salt);
    rooms[name := r.(peers := r.peers + {peer}, lastActivity := now)]
  }

  function Left(rooms: Rooms, name: Name, peer: PeerId, now: nat): Rooms {
    if name !in rooms then rooms
    else
      var rest := rooms[name].peers - {peer};
      if rest == {} then rooms - {name}
      else rooms[name := rooms[name].(peers := rest, lastActivity := now)]
  }

  predicate Expires(r: Room, now: nat) {
    r.ttlSeconds > 0 && now > r.createdAt + r.ttlSeconds * SECOND
  }

  function Expired(rooms: Rooms, now: nat): set<Name> {
    set n | n in rooms && Expires(rooms[n], now)
  }

  // What a presence message advertises, in milliseconds
  function ExpiresAt(r: Room): Option<nat> {
    if r.ttlSeconds > 0 then Some((r.createdAt + r.ttlSeconds * SECOND) / 1_000_000) else None
  }

  // The part of a room that is fixed when it is created
  predicate SameIncarnation(a: Room, b: Room) {
    a.ttlSeconds == b.ttlSeconds && a.createdAt == b.createdAt && a.salt == b.salt
  }

  // ---- What the registry remembers of its calls ----

  datatype Call =
    | Joins(name: Name, peer: PeerId, ttl: int, salt: Bytes, at: nat)
    | Leaves(name: Name, peer: PeerId, at: nat)

  function After(calls: seq<Call>): Rooms {
    if calls == [] then map[]
    else
      match calls[|calls| - 1]
      case Joins(n, p, ttl, salt, at) => Joined(After(calls[..|calls| - 1]), n, p, ttl, salt, at)
      case Leaves(n, p, at) => Left(After(calls[..|calls| - 1]), n, p, at)
  }

  // Who has joined the room and not left it since
  function Present(calls: seq<Call>, n: Name): set<PeerId> {
    if calls == [] then {}
    else
      var before, c := Present(calls[..|calls| - 1], n), calls[|calls| - 1];
      if c.name != n then before else if c.Joins? then before + {c.peer} else before - {c.peer}
  }

  // The latest join that found the room empty
  function Founder(calls: seq<Call>, n: Name): Option<Call> {
    if calls == [] then None
    else
      var before, c := calls[..|calls| - 1], calls[|calls| - 1];
      if c.Joins? && c.name == n && Present(before, n) == {} then Some(c) else Founder(before, n)
  }

  // When the room was last called for
  function LastCall(calls: seq<Call>, n: Name): nat {
    if calls == [] then 0
    else if calls[|calls| - 1].name == n then calls[|calls| - 1].at else LastCall(calls[..|calls| - 1], n)
  }

  // After any calls the rooms are those with somebody present, with these as peers; the first writer
  // wins: salt, time to live and creation time are those of the join that founded the room
  lemma {:induction false} StoreFollowsCalls(calls: seq<Call>, n: Name)
    ensures n in After(calls) <==> Present(calls, n) != {}
    ensures n in After(calls) ==>
              var r, f := After(calls)[n], Founder(calls, n);
              && r.peers == Present(calls, n)
              && f.Some? && f.value.Joins?
              && r.salt == f.value.salt && r.createdAt == f.value.at
              && r.ttlSeconds == (if f.value.ttl > 0 then f.value.ttl else 0)
              && r.lastActivity == LastCall(calls, n)
  {
    if calls != [] {
      StoreFollowsCalls(calls[..|calls| - 1], n);
    }
  }

  class Store {
    var rooms: Rooms

    constructor ()
      ensures rooms == map[]
    {
      rooms := map[];
    }

    method JoinWithTTL(name: Name, peer: PeerId, ttlSeconds: int, salt: Bytes, now: nat)
      returns (count: nat, isNew: bool)
      modifies this
      ensures rooms == Joined(old(rooms), name, peer, ttlSeconds, salt, now)
      ensures isNew <==> name !in old(rooms)
      ensures count == |rooms[name].peers|
    {
      isNew := name !in rooms;
      if isNew {
        var r := Room({}, now, 0, now, []);
        if ttlSeconds > 0 {
          r := r.(ttlSeconds := ttlSeconds);
        }
        if |salt| > 0 {
          r := r.(salt := salt);
        }
        rooms := rooms[name := r];
      }
      if peer !in rooms[name].peers {
        rooms := rooms[name := rooms[name].(peers := rooms[name].peers + {peer})];
      }
      rooms := rooms[name := rooms[name].(lastActivity := now)];
      count := |rooms[name].peers|;
      assert name in old(rooms) && peer in old(rooms)[name].peers ==>
          old(rooms)[name].peers + {peer} == old(rooms)[name].peers;
    }

    method Leave(name: Name, peer: PeerId, now: nat) returns (count: nat)
      modifies this
      ensures rooms == Left(old(rooms), name, peer, now)
      ensures count == if name in rooms then |rooms[name].peers| else 0
    {
      if name !in rooms {
        return 0;
      }
      var r := rooms[name].(peers := rooms[name].peers - {peer}, lastActivity := now);
      rooms := rooms[name := r];
      count := |r.peers|;
      if count == 0 {
        rooms := rooms - {name};
      }
    }

    method Count(name: Name) returns (count: nat)
      ensures count == if name in rooms then |rooms[name].peers| else 0
    {
      if name in rooms {
        return |rooms[name].peers|;
      }
      return 0;
    }

    method Peers(name: Name) returns (peers: set<PeerId>)
      ensures peers == if name in rooms then rooms[name].peers else {}
    {
      peers := if name in rooms then rooms[name].peers else {};
    }

    method RoomSalt(name: Name) returns (salt: Option<Bytes>)
      ensures salt == if name in rooms && rooms[name].salt != [] then Some(rooms[name].salt) else None
    {
      if name !in rooms || |rooms[name].salt| == 0 {
        return None;
      }
      return Some(rooms[name].salt);
    }

    // The list is in the order of the map's iteration, which is not specified
    method ExpiredRooms(now: nat) returns (expired: seq<Name>)
      ensures forall n :: n in expired <==> n in Expired(rooms, now)
      ensures forall n :: n in expired <==>
                n in rooms && rooms[n].ttlSeconds > 0
                && now > rooms[n].createdAt + rooms[n].ttlSeconds * 1_000_000_000
    {
      expired := [];
      var left := rooms.Keys;
      while left != {}
        invariant left <= rooms.Keys
        invariant forall n :: n in expired <==> n in rooms.Keys - left && Expires(rooms[n], now)
        decreases left
      {
        var n :| n in left;
        left := left - {n};
        if rooms[n].ttlSeconds > 0 && now > rooms[n].createdAt + rooms[n].ttlSeconds * SECOND {
          expired := expired + [n];
        }
      }
    }
  }
}
