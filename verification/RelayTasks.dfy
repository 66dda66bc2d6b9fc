/**
 The critical sections of handle_connection, leave_room and fan_out_msg (services/relay/src/main.rs)
 on shared objects: a map from names to room objects, whose handles tasks keep after the map's lock is
 gone, so that a handle can outlive its name. A method is one section and makes exactly the step
 of the state machine that its `ensures` names; the loop of a fan-out is a step for each member, with the
 steps of other tasks in between. Where each task stands is ghost.
 */
module RelayTasks {
  import opened Options
  import opened RelayRegistry
  import opened RelayFanOut

  class RoomObject {
    ghost const id: RoomId
    const name: Name
    var members: set<Conn>

    constructor (name: Name, ghost id: RoomId)
      ensures this.name == name && this.id == id && members == {}
    {
      this.name, this.id, members := name, id, {};
    }

    method RemoveAll(ids: set<Conn>)
      modifies this
      ensures members == old(members) - ids
    {
      var left := ids;
      while left != {}
        invariant left <= ids && members == old(members) - (ids - left)
        decreases left
      {
        var id :| id in left;
        members := members - {id};
        left := left - {id};
      }
      assert ids - left == ids;
    }
  }

  ghost function Rooms(made: seq<RoomObject>): seq<Room>
    reads made
  {
    seq(|made|, k requires 0 <= k < |made| reads made => Room(made[k].name, made[k].members))
  }

  // None of these is a step of the task
  predicate Others(events: seq<Event>, c: Conn) {
    forall k | 0 <= k < |events| :: events[k].Section? ==> events[k].action.c != c
  }

  lemma {:induction false} OthersLeaveTask(h: Hub, events: seq<Event>, c: Conn)
    requires Feasible(h, events) && Others(events, c) && c in h.registry.tasks && c in h.sending
    ensures var h' := Played(h, events);
            && c in h'.registry.tasks && h'.registry.tasks[c] == h.registry.tasks[c]
            && c in h'.sending && h'.sending[c] == h.sending[c]
    decreases |events|
  {
    if events != [] {
      if events[0].Section? { OneTaskMoves(h.registry, events[0].action); }
      OthersLeaveTask(Step(h, events[0]), events[1..], c);
    }
  }

  lemma {:induction false} PlayedOn(h: Hub, xs: seq<Event>, ys: seq<Event>)
    requires Feasible(h, xs) && Feasible(Played(h, xs), ys)
    ensures Feasible(h, xs + ys) && Played(h, xs + ys) == Played(Played(h, xs), ys)
    decreases |xs|
  {
    if xs == [] {
      assert xs + ys == ys;
    } else {
      assert (xs + ys)[1..] == xs[1..] + ys;
      PlayedOn(Step(h, xs[0]), xs[1..], ys);
    }
  }

  // The states passed through since `from`
  ghost predicate Leads(from: Hub, events: seq<Event>, to: Hub) {
    Feasible(from, events) && Played(from, events) == to
  }

  lemma LeadsOn(from: Hub, xs: seq<Event>, mid: Hub, ys: seq<Event>, to: Hub)
    requires Leads(from, xs, mid) && Leads(mid, ys, to)
    ensures Leads(from, xs + ys, to)
  {
    PlayedOn(from, xs, ys);
  }

  lemma OneLeads(h: Hub, e: Event)
    requires Possible(h, e)
    ensures Leads(h, [e], Step(h, e))
  {
    assert [e][1..] == [];
  }

  class Relay {
    var mapped: map<Name, RoomObject>
    var channels: map<Conn, Channel>
    ghost var made: seq<RoomObject> // every room object, in the map or not
    ghost var tasks: map<Conn, Task>
    ghost var writer: Option<Conn>
    ghost var log: seq<Sent>
    ghost var ends: map<nat, nat>
    ghost var since: map<Entry, nat>
    ghost var sending: map<Conn, nat>

    ghost function Names(): map<Name, RoomId>
      reads `mapped
    {
      map n | n in mapped :: mapped[n].id
    }

    ghost function View(): Hub
      reads this, made
    {
      Hub(State(Names(), Rooms(made), tasks, writer), channels, log, ends, since, sending)
    }

    ghost predicate Valid()
      reads `made, `mapped
    {
      && (forall k | 0 <= k < |made| :: made[k].id == k)
      && (forall n | n in mapped :: mapped[n].id < |made| && made[mapped[n].id] == mapped[n])
    }

    // The room that a task holds by its handle
    ghost predicate Holds(room: RoomObject)
      reads `made
    {
      room.id < |made| && made[room.id] == room
    }

    constructor ()
      ensures Valid() && View() == QUIET
    {
      mapped, channels, made, tasks, writer := map[], map[], [], map[], None;
      log, ends, since, sending := [], map[], map[], map[];
    }

    // The writes of a section have been made; its task goes on
    ghost method Did(before: Hub, e: Event)
      requires Possible(before, e) && Valid()
      requires var h' := Step(before, e);
               Names() == h'.registry.mapped && Rooms(made) == h'.registry.rooms && channels == h'.channels
      modifies `tasks, `writer, `log, `ends, `since, `sending
      ensures View() == Step(before, e) && Valid()
    {
      var h' := Step(before, e);
      tasks, writer := h'.registry.tasks, h'.registry.writer;
      log, ends, since, sending := h'.log, h'.ends, h'.since, h'.sending;
    }

    // A new room object under a new name
    method MakeRoom(name: Name) returns (room: RoomObject)
      requires Valid() && name !in mapped
      modifies `mapped, `made
      ensures Valid() && fresh(room) && made == old(made) + [room] && room.id == |old(made)|
      ensures Names() == old(Names())[name := |old(made)|] && Rooms(made) == old(Rooms(made)) + [Room(name, {})]
    {
      ghost var names, rooms := Names(), Rooms(made);
      room := new RoomObject(name, |made|);
      mapped := mapped[name := room];
      made := made + [room];
      assert Rooms(made) == rooms + [Room(name, {})];
      assert Names() == names[name := |rooms|];
    }

    // The join arm under the map's write lock: the room, found or made within the limit
    method FindOrCreate(c: Conn, name: Name) returns (room: RoomObject?)
      requires Valid() && Possible(View(), Section(Advance(c))) && tasks[c].pc == JoinLookup(name)
      modifies this
      ensures Valid() && View() == Step(old(View()), Section(Advance(c)))
      ensures room == null <==> name !in old(mapped) && |old(mapped)| >= MAX_ROOMS
      ensures room != null ==> Holds(room) && tasks[c].pc == JoinInsert(name, room.id)
    {
      ghost var before := View();
      SameSize();
      var isNew := name !in mapped;
      if isNew && |mapped| >= MAX_ROOMS {
        room := null;
      } else if isNew {
        room := MakeRoom(name);
      } else {
        room := mapped[name];
      }
      Did(before, Section(Advance(c)));
    }

    lemma SameSize()
      ensures |Names()| == |mapped|
    {
      assert Names().Keys == mapped.Keys;
      assert |Names().Keys| == |Names()| && |mapped.Keys| == |mapped|;
    }

    // The join arm under the room's write lock, on a room that may have lost its name
    method Insert(c: Conn, name: Name, room: RoomObject) returns (ok: bool)
      requires Valid() && Holds(room) && Possible(View(), Section(Advance(c)))
               && tasks[c].pc == JoinInsert(name, room.id)
      modifies this, room
      ensures Valid() && View() == Step(old(View()), Section(Advance(c)))
      ensures ok <==> |old(room.members)| < MAX_PEERS_PER_ROOM || c in old(room.members)
    {
      ghost var before := View();
      ok := !(|room.members| >= MAX_PEERS_PER_ROOM && c !in room.members);
      if ok {
        room.members := room.members + {c};
        assert Rooms(made) == before.registry.rooms[room.id := Room(before.registry.rooms[room.id].name, room.members)];
      }
      Did(before, Section(Advance(c)));
    }

    // leave_room's map read
    method FindToLeave(c: Conn, name: Name) returns (room: RoomObject?)
      requires Valid() && Possible(View(), Section(Advance(c))) && tasks[c].pc.LeaveLookup? && tasks[c].pc.name == name
      modifies this
      ensures Valid() && View() == Step(old(View()), Section(Advance(c)))
      ensures room != null ==> Holds(room) && tasks[c].pc.LeaveRemove? && tasks[c].pc.room == room.id
      ensures room == null <==> name !in mapped
    {
      room := if name in mapped then mapped[name] else null;
      Did(View(), Section(Advance(c)));
    }

    // leave_room's room write
    method RemoveSelf(c: Conn, room: RoomObject) returns (count: nat)
      requires Valid() && Holds(room) && Possible(View(), Section(Advance(c)))
      requires tasks[c].pc.LeaveRemove? && tasks[c].pc.room == room.id
      modifies this, room
      ensures Valid() && View() == Step(old(View()), Section(Advance(c)))
      ensures count == 0 <==> tasks[c].pc.LeavePeek?
    {
      ghost var before := View();
      room.members := room.members - {c};
      count := |room.members|;
      assert Rooms(made) == before.registry.rooms[room.id := Room(before.registry.rooms[room.id].name, room.members)];
      Did(before, Section(Advance(c)));
    }

    method IsEmpty(name: Name) returns (empty: bool)
      requires Valid()
      ensures empty <==>
                name in View().registry.mapped && View().registry.rooms[View().registry.mapped[name]].members == {}
    {
      empty := name in mapped && |mapped[name].members| == 0;
    }

    // leave_room's quick check under the map's read lock
    method Peek(c: Conn, name: Name) returns (stillEmpty: bool)
      requires Valid() && Possible(View(), Section(Advance(c))) && tasks[c].pc.LeavePeek? && tasks[c].pc.name == name
      modifies this
      ensures Valid() && View() == Step(old(View()), Section(Advance(c)))
      ensures stillEmpty <==> tasks[c].pc.LeaveRecheck?
    {
      stillEmpty := IsEmpty(name);
      Did(View(), Section(Advance(c)));
    }

    // leave_room's second check under the map's write lock, and the removal with the lock still held
    method RemoveIfEmpty(c: Conn, name: Name) returns (removed: bool)
      requires Valid() && Possible(View(), Section(Advance(c))) && tasks[c].pc.LeaveRecheck? && tasks[c].pc.name == name
      modifies this
      ensures Valid() && Possible(old(View()), Section(Advance(c)))
      ensures var h := Step(old(View()), Section(Advance(c)));
              if removed then Possible(h, Section(Advance(c))) && View() == Step(h, Section(Advance(c)))
              else View() == h
      ensures removed <==> old(View().registry.mapped.Keys) != View().registry.mapped.Keys
    {
      removed := IsEmpty(name);
      Did(View(), Section(Advance(c)));
      if removed {
        ghost var before := View();
        mapped := mapped - {name};
        assert Names() == before.registry.mapped - {name};
        Did(before, Section(Advance(c)));
      }
    }

    // fan_out_msg's map read
    method FindToFanOut(c: Conn, name: Name) returns (room: RoomObject?)
      requires Valid() && Possible(View(), Section(Advance(c))) && tasks[c].pc == FanLookup(name)
      modifies this
      ensures Valid() && View() == Step(old(View()), Section(Advance(c)))
      ensures room != null ==> Holds(room) && tasks[c].pc == FanSend(room.id)
      ensures room == null <==> name !in mapped
    {
      room := if name in mapped then mapped[name] else null;
      Did(View(), Section(Advance(c)));
    }

    // The room is taken for reading
    method BeginLoop(c: Conn, room: RoomObject) returns (targets: set<Conn>)
      requires Valid() && Holds(room) && Possible(View(), Section(Advance(c))) && tasks[c].pc == FanSend(room.id)
      modifies this
      ensures Valid() && View() == Step(old(View()), Section(Advance(c)))
      ensures targets == room.members - {c} && tasks[c].pc == FanLoop(room.id, targets, {})
      ensures c in sending && sending[c] == |old(log)| && made == old(made)
    {
      targets := room.members - {c};
      Did(View(), Section(Advance(c)));
    }

    // One try_send of the message, which is known by its number
    method TrySend(c: Conn, p: Conn, number: nat) returns (ok: bool)
      requires Valid() && c in tasks && tasks[c].pc.FanLoop? && p in tasks[c].pc.left
      requires c in sending && number == sending[c]
      modifies this
      ensures Valid() && made == old(made)
      ensures Possible(old(View()), Section(Offer(c, p, ok))) && View() == Step(old(View()), Section(Offer(c, p, ok)))
      ensures c in tasks && tasks[c].pc == Offered(old(tasks[c].pc), p, ok) && c in sending && sending[c] == number
    {
      ghost var before := View();
      ok := p in channels && !channels[p].closed && |channels[p].queue| < PEER_CHANNEL_CAP;
      if ok { channels := channels[p := Take(channels[p], Fan(number))]; }
      Did(before, Section(Offer(c, p, ok)));
    }

    // The room is let go
    method EndLoop(c: Conn, room: RoomObject, stale: set<Conn>)
      requires Valid() && Holds(room) && c in sending && c in tasks && tasks[c].pc == FanLoop(room.id, {}, stale)
      modifies this
      ensures Valid() && made == old(made)
      ensures Possible(old(View()), Section(Advance(c))) && View() == Step(old(View()), Section(Advance(c)))
      ensures c in tasks && tasks[c].pc == if stale == {} then Reading else FanEvict(room.id, stale)
    {
      Did(View(), Section(Advance(c)));
    }

    // Any steps of other tasks and of the channels
    method Interleave(ghost c: Conn) returns (ghost more: seq<Event>)
      requires Valid()
      modifies this, made
      ensures Valid() && old(made) <= made && (forall k | |old(made)| <= k < |made| :: fresh(made[k]))
      ensures Others(more, c) && Leads(old(View()), more, View())
    {
      more := [];
    }

    // They leave a task in the middle of its fan-out where it is
    method Interleaved(ghost from: Hub, ghost events: seq<Event>, ghost c: Conn) returns (ghost on: seq<Event>)
      requires Valid() && Leads(from, events, View()) && c in tasks && c in sending
      modifies this, made
      ensures Valid() && old(made) <= made && (forall k | |old(made)| <= k < |made| :: fresh(made[k]))
      ensures events <= on && Leads(from, on, View())
      ensures c in tasks && tasks[c] == old(tasks[c]) && c in sending && sending[c] == old(sending[c])
    {
      ghost var before := View();
      ghost var more := Interleave(c);
      OthersLeaveTask(before, more, c);
      LeadsOn(from, events, before, more, View());
      on := events + more;
    }

    // One turn of the loop, after whatever else has happened
    method OfferNext(ghost from: Hub, ghost events: seq<Event>, c: Conn, p: Conn, number: nat)
      returns (ok: bool, ghost on: seq<Event>)
      requires Valid() && Leads(from, events, View())
      requires c in tasks && tasks[c].pc.FanLoop? && p in tasks[c].pc.left && c in sending && number == sending[c]
      modifies this, made
      ensures Valid() && old(made) <= made && (forall k | |old(made)| <= k < |made| :: fresh(made[k]))
      ensures Leads(from, on, View())
      ensures c in tasks && tasks[c].pc == Offered(old(tasks[c].pc), p, ok) && c in sending && sending[c] == number
    {
      on := Interleaved(from, events, c);
      ghost var before := View();
      ok := TrySend(c, p, number);
      OneLeads(before, Section(Offer(c, p, ok)));
      LeadsOn(from, on, before, [Section(Offer(c, p, ok))], View());
      on := on + [Section(Offer(c, p, ok))];
    }

    method LetGo(ghost from: Hub, ghost events: seq<Event>, c: Conn, room: RoomObject, stale: set<Conn>)
      returns (ghost on: seq<Event>)
      requires Valid() && Holds(room) && Leads(from, events, View())
      requires c in sending && c in tasks && tasks[c].pc == FanLoop(room.id, {}, stale)
      modifies this, made
      ensures Valid() && Holds(room) && Leads(from, on, View())
      ensures c in tasks && tasks[c].pc == if stale == {} then Reading else FanEvict(room.id, stale)
    {
      on := Interleaved(from, events, c);
      ghost var before := View();
      EndLoop(c, room, stale);
      OneLeads(before, Section(Advance(c)));
      LeadsOn(from, on, before, [Section(Advance(c))], View());
      on := on + [Section(Advance(c))];
    }

    // try_send to every other member under the room's read lock, which other fan-outs share; those it fails for
    // are stale
    method SendToMembers(c: Conn, room: RoomObject, number: nat) returns (stale: set<Conn>, ghost events: seq<Event>)
      requires number == |log| && Valid() && Holds(room)
      requires Possible(View(), Section(Advance(c))) && tasks[c].pc == FanSend(room.id)
      modifies this, made
      ensures Valid() && Holds(room) && Leads(old(View()), events, View())
      ensures c in tasks && tasks[c].pc == if stale == {} then Reading else FanEvict(room.id, stale)
    {
      ghost var from := View();
      OneLeads(from, Section(Advance(c)));
      var left := BeginLoop(c, room);
      events := [Section(Advance(c))];
      stale := {};
      while left != {}
        invariant Valid() && Holds(room) && old(made) <= made
                  && (forall k | |old(made)| <= k < |made| :: fresh(made[k]))
        invariant Leads(from, events, View())
        invariant c in tasks && tasks[c].pc == FanLoop(room.id, left, stale) && c in sending && sending[c] == number
        decreases left
      {
        var p :| p in left;
        var ok: bool;
        ok, events := OfferNext(from, events, c, p, number);
        left := left - {p};
        if !ok { stale := stale + {p}; }
      }
      events := LetGo(from, events, c, room, stale);
    }

    // The stale peers are removed one by one under the room's write lock
    method Evict(c: Conn, room: RoomObject, stale: set<Conn>)
      requires Valid() && Holds(room) && Possible(View(), Section(Advance(c)))
               && tasks[c].pc == FanEvict(room.id, stale)
      modifies this, room
      ensures Valid() && View() == Step(old(View()), Section(Advance(c)))
    {
      ghost var before := View();
      room.RemoveAll(stale);
      assert Rooms(made) == before.registry.rooms[room.id := Room(before.registry.rooms[room.id].name, room.members)];
      Did(before, Section(Advance(c)));
    }
  }
}
