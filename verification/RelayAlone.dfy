/**
 What one connection's request does when no other task moves, in terms of a plain map from room names to members:
 a join takes the connection out of its room and puts it into the new one, unless that is full or there are too
 many rooms; a room is gone with its last member.
 */
module RelayAlone {
  import opened Options
  import opened RelayRegistry
  import opened RelayInvariant
  import opened RelayTheorems

  type Book = map<Name, set<Conn>>

  function Rooms(s: State): Book
    requires forall n | n in s.mapped :: s.mapped[n] < |s.rooms|
  {
    map n | n in s.mapped :: s.rooms[s.mapped[n]].members
  }

  function Without(book: Book, n: Name, c: Conn): Book {
    if n !in book then book
    else if book[n] - {c} == {} then book - {n}
    else book[n := book[n] - {c}]
  }

  // At most 50 members a room and 10,000 rooms
  predicate Takes(book: Book, n: Name, c: Conn) {
    if n in book then |book[n]| < 50 || c in book[n] else |book| < 10_000
  }

  function With(book: Book, n: Name, c: Conn): Book {
    book[n := (if n in book then book[n] else {}) + {c}]
  }

  function Left(book: Book, current: Option<Name>, c: Conn): Book {
    if current.Some? then Without(book, current.value, c) else book
  }

  predicate Resting(t: Task) {
    t.pc.Reading? || t.pc.Ended?
  }

  ghost predicate OthersRest(s: State, c: Conn) {
    c in s.tasks && forall d | d in s.tasks && d != c :: Resting(s.tasks[d])
  }

  ghost predicate AllRest(s: State) {
    forall d | d in s.tasks :: Resting(s.tasks[d])
  }

  // Steps of c alone lead from one to the other
  ghost predicate Goes(s: State, s': State, c: Conn) {
    exists actions :: Schedule(s, actions) && Run(s, actions) == s' && OnlyOf(actions, c)
  }

  predicate OnlyOf(actions: seq<Action>, c: Conn) {
    forall k | 0 <= k < |actions| :: actions[k].c == c
  }

  lemma GoesNowhere(s: State, c: Conn)
    ensures Goes(s, s, c)
  {
    assert Schedule(s, []) && Run(s, []) == s && OnlyOf([], c);
  }

  lemma GoesOn(s: State, m: State, a: Action)
    requires Goes(s, m, a.c) && Enabled(m, a)
    ensures Goes(s, Next(m, a), a.c)
  {
    var actions :| Schedule(s, actions) && Run(s, actions) == m && OnlyOf(actions, a.c);
    RunExtends(s, actions, a);
    assert OnlyOf(actions + [a], a.c);
  }

  lemma Moves(s: State, m: State, c: Conn, m': State)
    requires Goes(s, m, c) && Enabled(m, Advance(c)) && Next(m, Advance(c)) == m'
    ensures Goes(s, m', c)
  {
    GoesOn(s, m, Advance(c));
  }

  // What c needs to go on by itself
  ghost predicate Alone(s: State, c: Conn) {
    && MapInRange(s) && OthersRest(s, c) && (s.writer == None || s.writer == Some(c))
    && TaskConsistent(s, s.tasks[c])
  }

  lemma MayAdvance(s: State, c: Conn)
    requires Alone(s, c) && !Resting(s.tasks[c]) && !Fanning(s.tasks[c].pc)
    ensures Enabled(s, Advance(c))
  {
  }

  // ---- Leaving, section by section ----

  lemma LooksUp(s: State, c: Conn, n: Name, after: After)
    requires Alone(s, c) && s.tasks[c].pc == LeaveLookup(n, after)
    ensures Enabled(s, Advance(c))
    ensures var t' := if n in s.mapped then s.tasks[c].(pc := LeaveRemove(n, s.mapped[n], after))
                      else Resumed(s.tasks[c], after);
            Next(s, Advance(c)) == SetTask(s, c, t')
  {
    MayAdvance(s, c);
  }

  lemma Removes(s: State, c: Conn, n: Name, after: After)
    requires Alone(s, c) && n in s.mapped && s.tasks[c].pc == LeaveRemove(n, s.mapped[n], after)
    ensures Enabled(s, Advance(c))
    ensures var rest := s.rooms[s.mapped[n]].members - {c};
            var t' := if rest == {} then s.tasks[c].(pc := LeavePeek(n, after)) else Resumed(s.tasks[c], after);
            Next(s, Advance(c)) == SetTask(SetMembers(s, s.mapped[n], rest), c, t')
  {
    MayAdvance(s, c);
  }

  lemma LooksTwice(s: State, c: Conn, n: Name, after: After)
    requires Alone(s, c) && s.tasks[c].pc == LeavePeek(n, after) && MappedEmpty(s, n)
    ensures Enabled(s, Advance(c))
    ensures var s1 := SetTask(s, c, s.tasks[c].(pc := LeaveRecheck(n, after)));
            var s2 := SetTask(s, c, s.tasks[c].(pc := LeaveUnmap(n, after))).(writer := Some(c));
            Next(s, Advance(c)) == s1 && Enabled(s1, Advance(c)) && Next(s1, Advance(c)) == s2
  {
    MayAdvance(s, c);
    var s1 := Next(s, Advance(c));
    MayAdvance(s1, c);
    assert s1.tasks[c := s1.tasks[c].(pc := LeaveUnmap(n, after))]
        == s.tasks[c := s.tasks[c].(pc := LeaveUnmap(n, after))];
  }

  lemma Unmaps(s: State, c: Conn, n: Name, after: After)
    requires Alone(s, c) && s.tasks[c].pc == LeaveUnmap(n, after)
    ensures Enabled(s, Advance(c))
    ensures Next(s, Advance(c)) == State(s.mapped - {n}, s.rooms, s.tasks[c := Resumed(s.tasks[c], after)], None)
  {
    MayAdvance(s, c);
  }

  lemma RoomShrinks(s: State, n: Name, c: Conn)
    requires MapInRange(s) && n in s.mapped
    ensures var s' := SetMembers(s, s.mapped[n], s.rooms[s.mapped[n]].members - {c});
            MapInRange(s') && Rooms(s') == Rooms(s)[n := Rooms(s)[n] - {c}]
  {
  }

  lemma TaskMoves(s: State, c: Conn, t: Task)
    requires Alone(s, c) && TaskConsistent(s, t)
    ensures Alone(SetTask(s, c, t), c) && Rooms(SetTask(s, c, t)) == Rooms(s)
  {
  }

  // The room is empty: its name goes
  lemma LastGoes(s0: State, s: State, c: Conn, n: Name, after: After) returns (s': State)
    requires Goes(s0, s, c) && Alone(s, c) && s.tasks[c].pc == LeavePeek(n, after) && MappedEmpty(s, n)
    ensures Goes(s0, s', c) && Alone(s', c)
    ensures s'.tasks == s.tasks[c := Resumed(s.tasks[c], after)] && Rooms(s') == Rooms(s) - {n}
  {
    var t := s.tasks[c];
    LooksTwice(s, c, n, after);
    var s1 := SetTask(s, c, t.(pc := LeaveRecheck(n, after)));
    Moves(s0, s, c, s1);
    var s2 := SetTask(s, c, t.(pc := LeaveUnmap(n, after))).(writer := Some(c));
    Moves(s0, s1, c, s2);
    s' := NameGoes(s0, s2, c, n, after);
    TwoMoves(s, c, t.(pc := LeaveUnmap(n, after)), Resumed(t, after));
  }

  lemma NameGoes(s0: State, s: State, c: Conn, n: Name, after: After) returns (s': State)
    requires Goes(s0, s, c) && Alone(s, c) && s.tasks[c].pc == LeaveUnmap(n, after)
    ensures Goes(s0, s', c) && Alone(s', c)
    ensures s'.tasks == s.tasks[c := Resumed(s.tasks[c], after)] && Rooms(s') == Rooms(s) - {n}
  {
    Unmaps(s, c, n, after);
    s' := State(s.mapped - {n}, s.rooms, s.tasks[c := Resumed(s.tasks[c], after)], None);
    Moves(s0, s, c, s');
  }

  lemma Leaves(s0: State, s: State, c: Conn, n: Name, after: After) returns (s': State)
    requires Goes(s0, s, c) && Alone(s, c) && s.tasks[c].pc == LeaveLookup(n, after)
    ensures Goes(s0, s', c) && Alone(s', c)
    ensures s'.tasks == s.tasks[c := Resumed(s.tasks[c], after)] && Rooms(s') == Without(Rooms(s), n, c)
  {
    LooksUp(s, c, n, after);
    GoesOn(s0, s, Advance(c));
    s' := Next(s, Advance(c));
    TaskMoves(s, c, s'.tasks[c]);
    if n in s.mapped {
      var t := s.tasks[c];
      s' := RemovesFrom(s0, s', c, n, after);
      assert s.tasks[c := t.(pc := LeaveRemove(n, s.mapped[n], after))][c := Resumed(t, after)]
          == s.tasks[c := Resumed(t, after)];
    }
  }

  lemma RemovesFrom(s0: State, s: State, c: Conn, n: Name, after: After) returns (s': State)
    requires Goes(s0, s, c) && Alone(s, c) && n in s.mapped && s.tasks[c].pc == LeaveRemove(n, s.mapped[n], after)
    ensures Goes(s0, s', c) && Alone(s', c)
    ensures s'.tasks == s.tasks[c := Resumed(s.tasks[c], after)] && Rooms(s') == Without(Rooms(s), n, c)
  {
    var t, rest := s.tasks[c], s.rooms[s.mapped[n]].members - {c};
    var m := SetMembers(s, s.mapped[n], rest);
    Removes(s, c, n, after);
    RoomShrinks(s, n, c);
    if rest == {} {
      TaskMoves(m, c, t.(pc := LeavePeek(n, after)));
      var s1 := SetTask(m, c, t.(pc := LeavePeek(n, after)));
      Moves(s0, s, c, s1);
      s' := LastGoes(s0, s1, c, n, after);
      TwoMoves(s, c, t.(pc := LeavePeek(n, after)), Resumed(t, after));
      PutThenTaken(Rooms(s), n);
    } else {
      TaskMoves(m, c, Resumed(t, after));
      s' := SetTask(m, c, Resumed(t, after));
      Moves(s0, s, c, s');
    }
  }

  lemma PutThenTaken(book: Book, n: Name)
    ensures book[n := {}] - {n} == book - {n}
  {
  }

  // ---- Coming in ----

  lemma Inserts(s: State, c: Conn, n: Name)
    requires Alone(s, c) && n in s.mapped && s.tasks[c].pc == JoinInsert(n, s.mapped[n])
    ensures Enabled(s, Advance(c))
    ensures var members := s.rooms[s.mapped[n]].members;
            Next(s, Advance(c)) ==
            if |members| < 50 || c in members
            then SetTask(SetMembers(s, s.mapped[n], members + {c}), c, Task(Some(n), Reading))
            else SetTask(s, c, s.tasks[c].(pc := Reading))
  {
    MayAdvance(s, c);
  }

  lemma RoomGrows(s: State, n: Name, c: Conn)
    requires MapInRange(s) && n in s.mapped
    ensures var s' := SetMembers(s, s.mapped[n], s.rooms[s.mapped[n]].members + {c});
            MapInRange(s') && Rooms(s') == Rooms(s)[n := Rooms(s)[n] + {c}]
  {
  }

  lemma InsertsInto(s0: State, s: State, c: Conn, n: Name) returns (s': State)
    requires Goes(s0, s, c) && Alone(s, c) && n in s.mapped && s.tasks[c].pc == JoinInsert(n, s.mapped[n])
    ensures Goes(s0, s', c) && Alone(s', c)
    ensures if |Rooms(s)[n]| < 50 || c in Rooms(s)[n]
            then s'.tasks == s.tasks[c := Task(Some(n), Reading)] && Rooms(s') == Rooms(s)[n := Rooms(s)[n] + {c}]
            else s'.tasks == s.tasks[c := s.tasks[c].(pc := Reading)] && Rooms(s') == Rooms(s)
  {
    Inserts(s, c, n);
    GoesOn(s0, s, Advance(c));
    s' := Next(s, Advance(c));
    var members := s.rooms[s.mapped[n]].members;
    if |members| < 50 || c in members {
      RoomGrows(s, n, c);
      TaskMoves(SetMembers(s, s.mapped[n], members + {c}), c, Task(Some(n), Reading));
    } else {
      TaskMoves(s, c, s.tasks[c].(pc := Reading));
    }
  }

  function Made(s: State, c: Conn, n: Name): State
    requires c in s.tasks
  {
    State(s.mapped[n := |s.rooms|], s.rooms + [Room(n, {})],
          s.tasks[c := s.tasks[c].(pc := JoinInsert(n, |s.rooms|))], s.writer)
  }

  lemma FindsOrMakes(s: State, c: Conn, n: Name)
    requires Alone(s, c) && s.tasks[c].pc == JoinLookup(n)
    ensures Enabled(s, Advance(c))
    ensures Next(s, Advance(c)) ==
            if n in s.mapped then SetTask(s, c, s.tasks[c].(pc := JoinInsert(n, s.mapped[n])))
            else if |s.mapped| < 10_000 then Made(s, c, n)
            else SetTask(s, c, s.tasks[c].(pc := Reading))
  {
    MayAdvance(s, c);
  }

  lemma RoomIsMade(s: State, c: Conn, n: Name)
    requires Alone(s, c) && n !in s.mapped
    ensures Alone(Made(s, c, n), c) && Rooms(Made(s, c, n)) == Rooms(s)[n := {}]
  {
  }

  lemma ComesToRoom(s0: State, s: State, c: Conn, n: Name) returns (s': State)
    requires Goes(s0, s, c) && Alone(s, c) && s.tasks[c].pc == JoinLookup(n) && n in s.mapped
    ensures Goes(s0, s', c) && Alone(s', c)
    ensures if |Rooms(s)[n]| < 50 || c in Rooms(s)[n]
            then s'.tasks == s.tasks[c := Task(Some(n), Reading)] && Rooms(s') == Rooms(s)[n := Rooms(s)[n] + {c}]
            else s'.tasks == s.tasks[c := s.tasks[c].(pc := Reading)] && Rooms(s') == Rooms(s)
  {
    var t := s.tasks[c].(pc := JoinInsert(n, s.mapped[n]));
    FindsOrMakes(s, c, n);
    Moves(s0, s, c, SetTask(s, c, t));
    TaskMoves(s, c, t);
    s' := InsertsInto(s0, SetTask(s, c, t), c, n);
    TwoMoves(s, c, t, s'.tasks[c]);
  }

  lemma ComesToNewRoom(s0: State, s: State, c: Conn, n: Name) returns (s': State)
    requires Goes(s0, s, c) && Alone(s, c) && s.tasks[c].pc == JoinLookup(n) && n !in s.mapped && |s.mapped| < 10_000
    ensures Goes(s0, s', c) && Alone(s', c)
    ensures s'.tasks == s.tasks[c := Task(Some(n), Reading)] && Rooms(s') == Rooms(s)[n := {c}]
  {
    FindsOrMakes(s, c, n);
    Moves(s0, s, c, Made(s, c, n));
    RoomIsMade(s, c, n);
    var m := Made(s, c, n);
    assert Rooms(m)[n] == {} && |Rooms(m)[n]| < 50 && m.mapped[n] == |s.rooms|;
    s' := InsertsInto(s0, m, c, n);
    TwoMoves(s, c, s.tasks[c].(pc := JoinInsert(n, |s.rooms|)), Task(Some(n), Reading));
    PutTwice(Rooms(s), n, c);
  }

  lemma PutTwice(book: Book, n: Name, c: Conn)
    ensures book[n := {}][n := book[n := {}][n] + {c}] == book[n := {c}]
  {
    assert {} + {c} == {c};
  }

  lemma Comes(s0: State, s: State, c: Conn, n: Name) returns (s': State)
    requires Goes(s0, s, c) && Alone(s, c) && s.tasks[c].pc == JoinLookup(n)
    ensures Goes(s0, s', c) && Alone(s', c)
    ensures if Takes(Rooms(s), n, c)
            then s'.tasks == s.tasks[c := Task(Some(n), Reading)] && Rooms(s') == With(Rooms(s), n, c)
            else s'.tasks == s.tasks[c := s.tasks[c].(pc := Reading)] && Rooms(s') == Rooms(s)
  {
    AsManyRooms(s);
    if n in s.mapped {
      s' := ComesToRoom(s0, s, c, n);
    } else if |s.mapped| < 10_000 {
      s' := ComesToNewRoom(s0, s, c, n);
      assert {} + {c} == {c};
    } else {
      s' := FindsNoPlace(s0, s, c, n);
    }
  }

  lemma FindsNoPlace(s0: State, s: State, c: Conn, n: Name) returns (s': State)
    requires Goes(s0, s, c) && Alone(s, c) && s.tasks[c].pc == JoinLookup(n) && n !in s.mapped && |s.mapped| >= 10_000
    ensures Goes(s0, s', c) && Alone(s', c)
    ensures s'.tasks == s.tasks[c := s.tasks[c].(pc := Reading)] && Rooms(s') == Rooms(s)
  {
    FindsOrMakes(s, c, n);
    s' := SetTask(s, c, s.tasks[c].(pc := Reading));
    Moves(s0, s, c, s');
    TaskMoves(s, c, s.tasks[c].(pc := Reading));
  }

  lemma TwoMoves(s: State, c: Conn, t: Task, u: Task)
    ensures s.tasks[c := t][c := u] == s.tasks[c := u]
  {
  }

  lemma AsManyRooms(s: State)
    requires MapInRange(s)
    ensures |Rooms(s)| == |s.mapped|
  {
    assert Rooms(s).Keys == s.mapped.Keys && |Rooms(s)| == |Rooms(s).Keys| && |s.mapped| == |s.mapped.Keys|;
  }

  // ---- Requests ----

  lemma Receives(s: State, c: Conn, request: Request) returns (s': State)
    requires Inv(s) && AllRest(s) && c in s.tasks && s.tasks[c].pc.Reading?
    ensures Goes(s, s', c) && Alone(s', c) && Rooms(s') == Rooms(s)
    ensures s'.tasks == s.tasks[c := Accept(s.tasks[c], request)]
  {
    s' := Next(s, Receive(c, request));
    GoesNowhere(s, c);
    GoesOn(s, s, Receive(c, request));
    assert s.writer.Some? ==> s.writer.value in s.tasks && s.tasks[s.writer.value].pc.LeaveUnmap?;
  }

  /**
   A join with nobody else moving: out of the current room, whose last member takes it with it, and into the new one
   if that has fewer than 50 members, or if it is new and there are fewer than 10,000. A refused join changes
   nothing but that.
   */
  lemma JoinAlone(s: State, c: Conn, n: Name) returns (s': State)
    requires Reachable(s) && AllRest(s) && c in s.tasks && s.tasks[c].pc.Reading?
    ensures MapInRange(s) && Goes(s, s', c) && Alone(s', c)
    ensures var current, left := s.tasks[c].current, Left(Rooms(s), s.tasks[c].current, c);
            && s'.tasks == s.tasks[c := Task(if Takes(left, n, c) then Some(n) else current, Reading)]
            && Rooms(s') == (if Takes(left, n, c) then With(left, n, c) else left)
  {
    ReachableInv(s);
    var t := s.tasks[c];
    s' := Receives(s, c, Join(n));
    if t.current.Some? {
      s' := Leaves(s, s', c, t.current.value, Rejoin(n));
      TwoMoves(s, c, Accept(t, Join(n)), t.(pc := JoinLookup(n)));
    }
    var came := Comes(s, s', c, n);
    TwoMoves(s, c, t.(pc := JoinLookup(n)), came.tasks[c]);
    s' := came;
  }

  // A leave takes the connection out of its room
  lemma LeaveAlone(s: State, c: Conn) returns (s': State)
    requires Reachable(s) && AllRest(s) && c in s.tasks && s.tasks[c].pc.Reading?
    ensures MapInRange(s) && Goes(s, s', c) && Alone(s', c)
    ensures s'.tasks == s.tasks[c := Task(None, Reading)] && Rooms(s') == Left(Rooms(s), s.tasks[c].current, c)
  {
    ReachableInv(s);
    var t := s.tasks[c];
    s' := Receives(s, c, RelayRegistry.Leave);
    if t.current.Some? {
      s' := Leaves(s, s', c, t.current.value, Clear);
      TwoMoves(s, c, Accept(t, RelayRegistry.Leave), Task(None, Reading));
    }
  }

  // And so does the end of the connection
  lemma HangupAlone(s: State, c: Conn) returns (s': State)
    requires Reachable(s) && AllRest(s) && c in s.tasks && s.tasks[c].pc.Reading?
    ensures MapInRange(s) && Goes(s, s', c) && Alone(s', c)
    ensures s'.tasks == s.tasks[c := s.tasks[c].(pc := Ended)] && Rooms(s') == Left(Rooms(s), s.tasks[c].current, c)
  {
    ReachableInv(s);
    var t := s.tasks[c];
    s' := Receives(s, c, Hangup);
    if t.current.Some? {
      s' := Leaves(s, s', c, t.current.value, End);
      TwoMoves(s, c, Accept(t, Hangup), t.(pc := Ended));
    }
  }
}
