/**
 The gateway's functions as methods on the shared tables (services/gateway/cmd/gateway/main.go).
 A lock is held from one write or read of the tables or the store to the next; in between, other
 goroutines run. `log` is the schedule so far, so what is proved of schedules holds of the object.
 */
module GatewayServer {
  import opened Storage
  import opened Gateway
  import opened GatewayInvariant

  // None of these is a section of the task
  ghost predicate Others(actions: seq<Action>, tid: Tid) {
    forall k | 0 <= k < |actions| :: actions[k].Wait? || Mover(actions[k]) != tid
  }

  lemma {:induction false} RunSplits(s: State, xs: seq<Action>, ys: seq<Action>)
    requires Schedule(s, xs + ys)
    ensures Schedule(s, xs) && Schedule(Run(s, xs), ys) && Run(s, xs + ys) == Run(Run(s, xs), ys)
    decreases |xs|
  {
    if xs == [] {
      assert xs + ys == ys;
    } else {
      assert (xs + ys)[1..] == xs[1..] + ys;
      RunSplits(Next(s, xs[0]), xs[1..], ys);
    }
  }

  // The peer has not joined the room in the store meanwhile
  predicate NotJoined(h: History, h': History, n: Name, p: PeerId) {
    && h.joins <= h'.joins
    && (Entry(n, p) in h'.stamps <==> Entry(n, p) in h.stamps)
    && (Entry(n, p) in h.stamps ==> h'.stamps[Entry(n, p)] == h.stamps[Entry(n, p)])
  }

  ghost predicate NoneJoined(h: History, h': History, tid: Tid) {
    tid.Conn? ==> forall n :: NotJoined(h, h', n, tid.peer)
  }

  lemma NoneJoinedTwice(h: History, h1: History, h2: History, tid: Tid)
    requires NoneJoined(h, h1, tid) && NoneJoined(h1, h2, tid)
    ensures NoneJoined(h, h2, tid)
  {
    if tid.Conn? {
      forall n ensures NotJoined(h, h2, n, tid.peer) {
        assert NotJoined(h, h1, n, tid.peer) && NotJoined(h1, h2, n, tid.peer);
      }
    }
  }

  lemma {:induction false} OthersLeaveTask(s: State, actions: seq<Action>, tid: Tid)
    requires Schedule(s, actions) && Others(actions, tid) && tid in s.tasks
    ensures tid in Run(s, actions).tasks && Run(s, actions).tasks[tid] == s.tasks[tid]
    ensures NoneJoined(s.history, Run(s, actions).history, tid)
    decreases |actions|
  {
    if actions != [] {
      var s' := Next(s, actions[0]);
      OthersLeaveTask(s', actions[1..], tid);
      NoneJoinedTwice(s.history, s'.history, Run(s, actions).history, tid);
    }
  }

  // No entry's number is above the count of joins
  ghost predicate Numbered(h: History) {
    forall e | e in h.stamps :: h.stamps[e] <= h.joins
  }

  lemma {:induction false} StampsBounded(s: State, actions: seq<Action>)
    requires Schedule(s, actions) && Numbered(s.history)
    ensures Numbered(Run(s, actions).history)
    decreases |actions|
  {
    if actions != [] { StampsBounded(Next(s, actions[0]), actions[1..]); }
  }

  lemma LeaverIsOut(actions: seq<Action>, p: PeerId, n: Name)
    requires Schedule(EMPTY, actions)
    requires var s := Run(EMPTY, actions); Conn(p) in s.tasks && s.tasks[Conn(p)] == LeaveForget(n)
    ensures !Stores(Run(EMPTY, actions).tables, n, p)
  {
    RunKeepsInv(EMPTY, actions);
  }

  lemma RestJoinedSince(actions: seq<Action>, tid: Tid, n: Name, since: nat, rest: seq<Name>)
    requires Schedule(EMPTY, actions)
    requires var s := Run(EMPTY, actions); tid in s.tasks && s.tasks[tid] == ClearTake(n, {}, since, rest)
    ensures var s := Run(EMPTY, actions); forall p | Stores(s.tables, n, p) :: JoinedAfter(s.history, n, p, since)
  {
    RunKeepsInv(EMPTY, actions);
    var s := Run(EMPTY, actions);
    forall p | Stores(s.tables, n, p) ensures JoinedAfter(s.history, n, p, since) {
      assert Clears(s.tasks[tid], n) && Known(s.history, s.tasks[tid], n, p);
    }
  }

  class Server {
    const store: Store
    var conns: set<PeerId>
    var peerRooms: map<PeerId, set<Name>>
    var clock: nat
    ghost var tasks: map<Tid, Pc>
    ghost var history: History
    ghost var log: seq<Action>

    ghost function View(): State
      reads this, store
    {
      State(Tables(conns, peerRooms, store.rooms), tasks, clock, history)
    }

    ghost predicate Valid()
      reads this, store
    {
      Schedule(EMPTY, log) && View() == Run(EMPTY, log)
    }

    constructor ()
      ensures Valid() && fresh(store) && View() == EMPTY && log == []
    {
      store := new Store();
      conns, peerRooms, clock := {}, map[], 0;
      tasks, history, log := map[Sweeper := Idle], History(0, map[], map[], 0), [];
    }

    // The writes of a section have been made
    ghost method Did(before: State, a: Action)
      requires Schedule(EMPTY, log) && before == Run(EMPTY, log) && Enabled(before, a) && !a.Wait?
      requires View() == before.(tables := TablesAfter(before, a))
      modifies `tasks, `history, `log
      ensures Valid() && View() == Next(before, a) && log == old(log) + [a]
    {
      RunExtends(EMPTY, log, a);
      tasks, history, log := Next(before, a).tasks, Next(before, a).history, log + [a];
    }

    // Any schedule of other tasks' sections
    method Interleave(ghost tid: Tid)
      requires Valid() && tid in tasks
      modifies this, store
      ensures Valid() && old(log) <= log && Others(log[|old(log)|..], tid)
    {
    }

    // Between two sections of a task anything may happen that other tasks can do, but not to where it stands
    method Unlocked(ghost tid: Tid)
      requires Valid() && tid in tasks
      modifies this, store
      ensures Valid() && old(log) <= log
      ensures tid in tasks && tasks[tid] == old(tasks)[tid] && NoneJoined(old(history), history, tid)
    {
      ghost var before := log;
      Interleave(tid);
      assert before + log[|before|..] == log;
      RunSplits(EMPTY, before, log[|before|..]);
      OthersLeaveTask(Run(EMPTY, before), log[|before|..], tid);
    }

    method Connected(p: PeerId)
      requires Valid() && Conn(p) !in tasks && !IsDummy(p)
      modifies this
      ensures Valid() && log == old(log) + [Connect(p)] && p in conns
      ensures Conn(p) in tasks && tasks[Conn(p)] == Reading
    {
      ghost var before := View();
      conns := conns + {p};
      Did(before, Connect(p));
    }

    // ---- The sections of a join ----

    method CountIsZero(p: PeerId, j: JoinRequest) returns (zero: bool)
      requires Valid() && Conn(p) in tasks && tasks[Conn(p)] == JoinCount(j)
      modifies this
      ensures Valid() && log == old(log) + [Advance(Conn(p))] && history == old(history)
      ensures Conn(p) in tasks && tasks[Conn(p)] == if zero then JoinLimit(j) else JoinCheck(j)
    {
      var count := store.Count(j.room);
      zero := count == 0;
      Did(View(), Advance(Conn(p)));
    }

    method AtLimit(p: PeerId, j: JoinRequest) returns (full: bool)
      requires Valid() && Conn(p) in tasks && tasks[Conn(p)] == JoinLimit(j)
      modifies this
      ensures Valid() && log == old(log) + [Advance(Conn(p))] && history == old(history)
      ensures Conn(p) in tasks && tasks[Conn(p)] == if full then Reading else JoinCheck(j)
    {
      full := |store.rooms| >= MAX_ROOMS;
      Did(View(), Advance(Conn(p)));
    }

    method HasPlace(p: PeerId, j: JoinRequest) returns (ok: bool)
      requires Valid() && Conn(p) in tasks && tasks[Conn(p)] == JoinCheck(j)
      modifies this
      ensures Valid() && log == old(log) + [Advance(Conn(p))] && history == old(history)
      ensures Conn(p) in tasks && tasks[Conn(p)] == if ok then JoinRecord(j) else Reading
    {
      var current := if p in peerRooms then peerRooms[p] else {};
      ok := j.room in current || |current| < MAX_ROOMS_PER_PEER;
      Did(View(), Advance(Conn(p)));
    }

    // Adds the room to the peer's set, which is made on first use; the salt is looked at afterwards
    method RecordRoom(p: PeerId, j: JoinRequest) returns (ok: bool)
      requires Valid() && Conn(p) in tasks && tasks[Conn(p)] == JoinRecord(j)
      modifies this
      ensures Valid() && log == old(log) + [Advance(Conn(p))] && history == old(history)
      ensures (ok <==> SaltOk(j.salt)) && Conn(p) in tasks && tasks[Conn(p)] == if ok then JoinStore(j) else Reading
    {
      ghost var before := View();
      if p !in peerRooms {
        peerRooms := peerRooms[p := {}];
      }
      peerRooms := peerRooms[p := peerRooms[p] + {j.room}];
      ok := j.salt.Absent? || (j.salt.Decoded? && |j.salt.bytes| == 32);
      Did(before, Advance(Conn(p)));
    }

    method JoinInStore(p: PeerId, j: JoinRequest)
      requires Valid() && Conn(p) in tasks && tasks[Conn(p)] == JoinStore(j)
      modifies this, store
      ensures Valid() && log == old(log) + [Advance(Conn(p))]
      ensures Conn(p) in tasks && tasks[Conn(p)] == Reading && Stores(View().tables, j.room, p)
      ensures JoinedAfter(history, j.room, p, old(history.joins))
    {
      ghost var before := View();
      var ttlForJoin := 0;
      if j.ttl > 0 && AllowedTtl(j.ttl) {
        ttlForJoin := j.ttl;
      }
      var count, isNew := store.JoinWithTTL(j.room, p, ttlForJoin, if j.salt.Decoded? then j.salt.bytes else [], clock);
      Did(before, Advance(Conn(p)));
    }

    method Receives(p: PeerId, request: Request)
      requires Valid() && Conn(p) in tasks && tasks[Conn(p)] == Reading
      modifies this
      ensures Valid() && log == old(log) + [Receive(p, request)] && history == old(history)
      ensures Conn(p) in tasks
      ensures tasks[Conn(p)] == match request case Join(j) => JoinCount(j) case Leave(n) => LeaveStore(n)
    {
      Did(View(), Receive(p, request));
    }

    // The join arm up to its first write
    method MayJoin(p: PeerId, j: JoinRequest) returns (ok: bool)
      requires Valid() && Conn(p) in tasks && tasks[Conn(p)] == JoinCount(j)
      modifies this, store
      ensures Valid() && old(log) <= log
      ensures Conn(p) in tasks && tasks[Conn(p)] == if ok then JoinRecord(j) else Reading
      ensures NoneJoined(old(history), history, Conn(p))
    {
      var zero := CountIsZero(p, j);
      Unlocked(Conn(p));
      if zero {
        var full := AtLimit(p, j);
        if full { return false; }
        ghost var h := history;
        Unlocked(Conn(p));
        NoneJoinedTwice(old(history), h, history, Conn(p));
      }
      ok := HasPlace(p, j);
    }

    method RecordAndStore(p: PeerId, j: JoinRequest) returns (joined: bool)
      requires Valid() && Conn(p) in tasks && tasks[Conn(p)] == JoinRecord(j)
      modifies this, store
      ensures Valid() && old(log) <= log && Conn(p) in tasks && tasks[Conn(p)] == Reading
      ensures joined <==> SaltOk(j.salt)
      ensures joined ==> Stores(View().tables, j.room, p)
      ensures joined ==> JoinedAfter(history, j.room, p, old(history.joins))
      ensures !joined ==> NoneJoined(old(history), history, Conn(p))
    {
      joined := RecordRoom(p, j);
      if !joined { return; }
      Unlocked(Conn(p));
      assert NotJoined(old(history), history, j.room, p);
      JoinInStore(p, j);
    }

    // The join arm: true exactly if the peer has joined the room in the store during the call
    method HandleJoin(p: PeerId, j: JoinRequest) returns (joined: bool)
      requires Valid() && Conn(p) in tasks && tasks[Conn(p)] == Reading
      modifies this, store
      ensures Valid() && Conn(p) in tasks && tasks[Conn(p)] == Reading
      ensures old(log) + [Receive(p, Join(j))] <= log
      ensures joined ==> SaltOk(j.salt) && Stores(View().tables, j.room, p)
      ensures joined <==> JoinedAfter(history, j.room, p, old(history.joins))
    {
      StampsBounded(EMPTY, log);
      Receives(p, Join(j));
      Unlocked(Conn(p));
      ghost var h := history;
      var ok := MayJoin(p, j);
      NoneJoinedTwice(old(history), h, history, Conn(p));
      if ok {
        h := history;
        Unlocked(Conn(p));
        NoneJoinedTwice(old(history), h, history, Conn(p));
        h := history;
        joined := RecordAndStore(p, j);
        if !joined { NoneJoinedTwice(old(history), h, history, Conn(p)); }
        assert NotJoined(old(history), h, j.room, p);
      } else {
        joined := false;
      }
      assert !joined ==> NotJoined(old(history), history, j.room, p);
    }

    // ---- Leaving and closing ----

    method LeaveInStore(p: PeerId, n: Name)
      requires Valid() && Conn(p) in tasks && tasks[Conn(p)] == LeaveStore(n)
      modifies this, store
      ensures Valid() && log == old(log) + [Advance(Conn(p))] && Conn(p) in tasks && tasks[Conn(p)] == LeaveForget(n)
    {
      ghost var before := View();
      var count := store.Leave(n, p, clock);
      Did(before, Advance(Conn(p)));
    }

    method ForgetRoom(p: PeerId, n: Name)
      requires Valid() && Conn(p) in tasks && tasks[Conn(p)] == LeaveForget(n)
      modifies this
      ensures Valid() && log == old(log) + [Advance(Conn(p))] && Conn(p) in tasks && tasks[Conn(p)] == Reading
      ensures View().tables == Forget(old(View()).tables, p, n)
    {
      ghost var before := View();
      if p in peerRooms {
        var rooms := peerRooms[p] - {n};
        peerRooms := if |rooms| == 0 then peerRooms - {p} else peerRooms[p := rooms];
      }
      Did(before, Advance(Conn(p)));
    }

    // The leave arm. No other task can put the peer back between its two sections.
    method HandleLeave(p: PeerId, n: Name)
      requires Valid() && Conn(p) in tasks && tasks[Conn(p)] == Reading
      modifies this, store
      ensures Valid() && Conn(p) in tasks && tasks[Conn(p)] == Reading
      ensures old(log) + [Receive(p, Leave(n))] <= log
      ensures !Stores(View().tables, n, p) && n !in RoomsOf(View().tables, p)
    {
      Receives(p, Leave(n));
      Unlocked(Conn(p));
      LeaveInStore(p, n);
      Unlocked(Conn(p));
      LeaverIsOut(log, p, n);
      ghost var before := View().tables;
      ForgetRoom(p, n);
      ForgetFacts(before, p, n);
    }

    method DropRecords(p: PeerId) returns (rooms: set<Name>)
      requires Valid() && Conn(p) in tasks && tasks[Conn(p)] == Reading
      modifies this
      ensures Valid() && log == old(log) + [Hangup(p)] && Conn(p) in tasks && tasks[Conn(p)] == Closing(rooms)
      ensures rooms == old(RoomsOf(View().tables, p))
    {
      ghost var before := View();
      rooms := if p in peerRooms then peerRooms[p] else {};
      conns := conns - {p};
      peerRooms := peerRooms - {p};
      Did(before, Hangup(p));
    }

    method ForsakeRoom(p: PeerId, n: Name, ghost left: set<Name>)
      requires Valid() && Conn(p) in tasks && tasks[Conn(p)] == Closing(left) && n in left
      modifies this, store
      ensures Valid() && log == old(log) + [Forsake(p, n)] && Conn(p) in tasks && tasks[Conn(p)] == Closing(left - {n})
    {
      ghost var before := View();
      var count := store.Leave(n, p, clock);
      Did(before, Forsake(p, n));
    }

    // The deferred clean-up of a connection: its records at once, then its rooms in any order
    method Disconnected(p: PeerId)
      requires Valid() && Conn(p) in tasks && tasks[Conn(p)] == Reading
      modifies this, store
      ensures Valid() && Conn(p) in tasks && tasks[Conn(p)] == Closed
      ensures old(log) + [Hangup(p)] <= log
    {
      var left := DropRecords(p);
      while left != {}
        invariant Valid() && Conn(p) in tasks && tasks[Conn(p)] == Closing(left)
        invariant old(log) + [Hangup(p)] <= log
        decreases left
      {
        Unlocked(Conn(p));
        var n :| n in left;
        ForsakeRoom(p, n, left);
        left := left - {n};
      }
      Did(View(), Advance(Conn(p)));
    }

    // ---- Clearing a room ----

    method ListMembers(ghost tid: Tid, n: Name, ghost rest: seq<Name>) returns (peers: set<PeerId>, ghost since: nat)
      requires Valid() && !tid.Conn? && tid in tasks && tasks[tid] == ClearList(n, rest)
      modifies this
      ensures Valid() && log == old(log) + [Advance(tid)]
      ensures tid in tasks && tasks[tid] == ClearTake(n, peers, since, rest)
    {
      peers := store.Peers(n);
      since := history.joins;
      Did(View(), Advance(tid));
    }

    // A connected member loses the room, and the connection with its last room
    method TakeMemberOut(ghost tid: Tid, n: Name, p: PeerId, ghost todo: set<PeerId>, ghost since: nat,
                         ghost rest: seq<Name>)
      requires Valid() && !tid.Conn? && tid in tasks && tasks[tid] == ClearTake(n, todo, since, rest) && p in todo
      modifies this
      ensures Valid() && log == old(log) + [Take(tid, p)]
      ensures tid in tasks && tasks[tid] == ClearLeave(n, p, todo - {p}, since, rest)
    {
      ghost var before := View();
      if p in conns && p in peerRooms {
        var rooms := peerRooms[p] - {n};
        if |rooms| == 0 {
          peerRooms := peerRooms - {p};
          conns := conns - {p};
        } else {
          peerRooms := peerRooms[p := rooms];
        }
      }
      Did(before, Take(tid, p));
    }

    method MemberLeaves(ghost tid: Tid, n: Name, p: PeerId, ghost todo: set<PeerId>, ghost since: nat,
                        ghost rest: seq<Name>)
      requires Valid() && !tid.Conn? && tid in tasks && tasks[tid] == ClearLeave(n, p, todo, since, rest)
      modifies this, store
      ensures Valid() && log == old(log) + [Advance(tid)] && tid in tasks
              && tasks[tid] == ClearTake(n, todo, since, rest)
    {
      ghost var before := View();
      var count := store.Leave(n, p, clock);
      Did(before, Advance(tid));
    }

    // disconnectAllPeers: the members are listed once; each is taken out of the tables and then, in the
    // store, out of the room. A member that is still there has joined since.
    method DisconnectAllPeers(ghost tid: Tid, n: Name, ghost rest: seq<Name>) returns (ghost since: nat)
      requires Valid() && !tid.Conn? && tid in tasks && tasks[tid] == ClearList(n, rest)
      modifies this, store
      ensures Valid() && old(log) <= log && tid in tasks && tasks[tid] == ClearTake(n, {}, since, rest)
      ensures forall p | Stores(View().tables, n, p) :: JoinedAfter(history, n, p, since)
    {
      var left;
      left, since := ListMembers(tid, n, rest);
      while left != {}
        invariant Valid() && tid in tasks && tasks[tid] == ClearTake(n, left, since, rest)
        invariant old(log) <= log
        decreases left
      {
        Unlocked(tid);
        var p :| p in left;
        TakeMemberOut(tid, n, p, left, since, rest);
        left := left - {p};
        Unlocked(tid);
        MemberLeaves(tid, n, p, left, since, rest);
      }
      RestJoinedSince(log, tid, n, since, rest);
    }

    // The leave under an id that no connection has
    method LastLeave(tid: Tid, n: Name, ghost since: nat, ghost rest: seq<Name>)
      requires Valid() && !tid.Conn? && tid in tasks && tasks[tid] == ClearTake(n, {}, since, rest)
      modifies this, store
      ensures Valid() && log == old(log) + [Advance(tid)] && tid in tasks && tasks[tid] == NextRoom(rest)
    {
      ghost var before := View();
      var count := store.Leave(n, if tid.Sweeper? then "__ttl_cleanup__" else "__cleanup__", clock);
      Did(before, Advance(tid));
    }

    // A clean-up request
    method Cleanup(k: nat, n: Name)
      requires Valid() && Cleaner(k) !in tasks
      modifies this, store
      ensures Valid() && Cleaner(k) in tasks && tasks[Cleaner(k)] == Idle
      ensures old(log) + [Clean(k, n)] <= log
    {
      Did(View(), Clean(k, n));
      ghost var since := DisconnectAllPeers(Cleaner(k), n, []);
      Unlocked(Cleaner(k));
      LastLeave(Cleaner(k), n, since, []);
    }

    method SweepRoom(n: Name, ghost rest: seq<Name>)
      requires Valid() && Sweeper in tasks && tasks[Sweeper] == ClearList(n, rest)
      modifies this, store
      ensures Valid() && old(log) <= log && Sweeper in tasks && tasks[Sweeper] == NextRoom(rest)
    {
      Unlocked(Sweeper);
      ghost var since := DisconnectAllPeers(Sweeper, n, rest);
      Unlocked(Sweeper);
      LastLeave(Sweeper, n, since, rest);
    }

    // One tick of the expiry loop
    method ExpiryTick() returns (expired: seq<Name>)
      requires Valid() && Sweeper in tasks && tasks[Sweeper] == Idle
      modifies this, store
      ensures Valid() && Sweeper in tasks && tasks[Sweeper] == Idle
      ensures old(log) + [Tick(expired)] <= log
      ensures forall n :: n in expired <==>
                n in old(store.rooms) && old(store.rooms)[n].ttlSeconds > 0
                && old(clock) > old(store.rooms)[n].createdAt + old(store.rooms)[n].ttlSeconds * 1_000_000_000
    {
      expired := store.ExpiredRooms(clock);
      Did(View(), Tick(expired));
      var i := 0;
      while i < |expired|
        invariant i <= |expired| && Valid() && Sweeper in tasks && tasks[Sweeper] == NextRoom(expired[i..])
        invariant old(log) + [Tick(expired)] <= log
      {
        assert expired[i..][0] == expired[i] && expired[i..][1..] == expired[i + 1..];
        SweepRoom(expired[i], expired[i + 1..]);
        i := i + 1;
      }
    }
  }
}
