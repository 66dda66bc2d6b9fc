/**
 The client's object (apps/trapchat/src/socket/client.js): its private fields, changed in place by
 `send`, `disconnect` and the socket's handlers. `sockets` and `timers` are the browser's part.
 Each method takes the step of the state machine in SocketClient that its `ensures` names.
 */
module SocketObject {
  import opened Options
  import opened SocketClient

  lemma RejoinOne(s: State, rooms: seq<Room>, n: nat)
    requires n < |rooms|
    ensures Rejoined(s, rooms[n..]) == Rejoined(Next(s, Event.Send(Join, rooms[n])), rooms[n + 1..])
    ensures |Next(s, Event.Send(Join, rooms[n])).fates| == |s.fates|
  {
    assert rooms[n..][0] == rooms[n] && rooms[n..][1..] == rooms[n + 1..];
  }

  class TrapChatClient {
    var sockets: seq<Socket>
    var timers: set<nat>
    var made: nat

    var ws: Option<nat>
    var joinedRooms: seq<Room>
    var pendingQueue: seq<nat>
    var reconnecting: bool
    var reconnectAttempts: nat
    var reconnectTimer: Option<nat>

    ghost var wire: seq<Out>
    ghost var fates: seq<Fate>

    ghost function View(): State
      reads this
    {
      State(sockets, ws, joinedRooms, pendingQueue, reconnecting, reconnectAttempts, timers, reconnectTimer, made,
            wire, fates)
    }

    constructor ()
      ensures View() == START
    {
      sockets, timers, made := [], {}, 0;
      ws, joinedRooms, pendingQueue, reconnecting, reconnectAttempts, reconnectTimer := None, [], [], false, 0, None;
      wire, fates := [], [];
    }

    function Connected(): bool
      reads this
    {
      ws.Some? && ws.value < |sockets| && sockets[ws.value].ready.Open?
    }

    method Connect()
      modifies this
      ensures View() == Next(old(View()), Event.Connect)
    {
      sockets, ws := sockets + [Socket(Connecting, false, false, false)], Some(|sockets|);
    }

    // `note` stands for the random id of the message: its number, if it is chat or media
    method Send(kind: Kind, room: Room, note: nat) returns (sent: bool)
      requires note == |fates|
      modifies this
      ensures View() == Next(old(View()), Event.Send(kind, room))
      ensures sent <==> old(Connected()) && !TooMany(old(View()), kind, room)
    {
      if kind.Join? {
        if !Has(joinedRooms, room.name) && |joinedRooms| >= MAX_ROOMS {
          return false;
        }
        joinedRooms := Put(joinedRooms, room);
      } else if kind.Leave? {
        joinedRooms := Delete(joinedRooms, room.name);
      }
      if !Connected() {
        if kind.Chat? || kind.Media? {
          if |pendingQueue| < MAX_PENDING {
            pendingQueue, fates := pendingQueue + [note], fates + [Waiting];
          } else {
            fates := fates + [Overflowed];
          }
        }
        return false;
      }
      wire := wire + [Written(old(View()), kind, room)];
      if kind.Chat? || kind.Media? { fates := fates + [Wired]; }
      sent := true;
    }

    method FlushQueue()
      modifies this
      ensures View() == Flushed(old(View()))
    {
      while |pendingQueue| > 0
        invariant Flushed(View()) == Flushed(old(View()))
        decreases |pendingQueue|
      {
        ghost var before := View();
        var k := pendingQueue[0];
        pendingQueue := pendingQueue[1..];
        if Connected() {
          wire, fates := wire + [Note(k)], Mark(fates, k, Wired);
        } else {
          fates := Mark(fates, k, Dropped);
        }
        assert View() == Flush1(before);
      }
    }

    method RejoinRooms(note: nat)
      requires note == |fates|
      modifies this
      ensures View() == Rejoined(old(View()), old(joinedRooms))
    {
      var rooms := joinedRooms;
      ghost var final := Rejoined(View(), rooms);
      assert rooms[0..] == rooms;
      for n := 0 to |rooms|
        invariant Rejoined(View(), rooms[n..]) == final
        invariant |fates| == note
      {
        RejoinOne(View(), rooms, n);
        var sent := Send(Join, rooms[n], note);
      }
    }

    method OnOpen(i: nat, note: nat)
      requires Enabled(View(), Event.Opens(i)) && note == |fates|
      modifies this
      ensures View() == Next(old(View()), Event.Opens(i))
    {
      sockets := sockets[i := sockets[i].(ready := Open, settled := true)];
      reconnectAttempts := 0;
      if reconnecting && |joinedRooms| > 0 {
        RejoinRooms(note);
        reconnecting := false;
      }
      FlushQueue();
    }

    method OnError(i: nat)
      requires Enabled(View(), Event.Errors(i))
      modifies this
      ensures View() == Next(old(View()), Event.Errors(i))
    {
      if !sockets[i].settled {
        sockets := sockets[i := sockets[i].(settled := true)];
      }
      assert old(sockets)[i].settled ==> old(sockets)[i := old(sockets)[i].(settled := true)] == old(sockets);
    }

    method OnClose(i: nat)
      requires Enabled(View(), Event.CloseRuns(i))
      modifies this
      ensures View() == Next(old(View()), Event.CloseRuns(i))
    {
      sockets := sockets[i := sockets[i].(over := true)];
      if sockets[i].settled {
        AttemptReconnect();
      }
    }

    method AttemptReconnect()
      modifies this
      ensures View() == Reconnect(old(View()))
    {
      if |joinedRooms| == 0 {
        return;
      }
      if reconnectAttempts >= MAX_RECONNECT_ATTEMPTS {
        reconnecting := false;
        return;
      }
      reconnecting := true;
      reconnectAttempts := reconnectAttempts + 1;
      reconnectTimer, timers, made := Some(made), timers + {made}, made + 1;
    }

    method TimerRuns(t: nat)
      requires Enabled(View(), Event.TimerRuns(t))
      modifies this
      ensures View() == Next(old(View()), Event.TimerRuns(t))
    {
      timers := timers - {t};
      sockets, ws := sockets + [Socket(Connecting, false, false, true)], Some(|sockets|);
    }

    method ClearReconnect()
      modifies this
      ensures View() == old(View()).(reconnecting := false, attempts := 0, timer := None,
                                     timers := if old(reconnectTimer).Some?
                                               then old(timers) - {old(reconnectTimer).value}
                                               else old(timers))
    {
      reconnecting := false;
      reconnectAttempts := 0;
      if reconnectTimer.Some? {
        timers := timers - {reconnectTimer.value};
        reconnectTimer := None;
      }
    }

    method Disconnect()
      modifies this
      ensures View() == Next(old(View()), Event.Disconnect)
    {
      ClearReconnect();
      joinedRooms := [];
      pendingQueue := [];
      fates := Clear(fates);
      if ws.Some? {
        if ws.value < |sockets| {
          sockets := sockets[ws.value := sockets[ws.value].(ready := Closed)];
        }
        ws := None;
      }
    }
  }
}
