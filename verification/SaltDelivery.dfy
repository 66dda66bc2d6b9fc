/**
 That announcements and chats get through: each join and each leave is announced once, what is broadcast comes to every
 peer of that moment whose send queue has room, and what a client is handed it handles in order.
 */
module SaltDelivery {
  import opened Options
  import opened SaltAgreement
  import opened SaltTheorems
  import opened SaltWitnesses

  // ---- Everybody is told ----

  function Told(members: map<Id, Member>, ids: set<Id>, msg: Msg): map<Id, Member> {
    map id | id in members ::
      if id !in ids then members[id]
      else
        members[id].(chan := members[id].chan + [msg],
                     told := members[id].told + if msg.Presence? then [msg.salt] else [])
  }

  lemma TellsOne(s: State, n: nat, id: Id, ids: set<Id>)
    requires n < |s.casts| && s.casts[n].to == Some(ids) && id in ids && id in s.members
    ensures Enabled(s, Hands(n, id, false))
    ensures Next(s, Hands(n, id, false)) ==
            s.(casts := s.casts[n := s.casts[n].(to := Some(ids - {id}))],
               members := Told(s.members, {id}, s.casts[n].msg))
  {
    var msg := s.casts[n].msg;
    assert s.members[id].told + [] == s.members[id].told;
    assert Told(s.members, {id}, msg) == s.members[id := Handed(s.members[id], msg)];
  }

  lemma ToldTwice(members: map<Id, Member>, id: Id, rest: set<Id>, msg: Msg)
    requires id !in rest
    ensures Told(Told(members, {id}, msg), rest, msg) == Told(members, {id} + rest, msg)
  {
  }

  lemma {:induction false} TellsAll(s: State, n: nat, ids: set<Id>) returns (s': State)
    requires Reachable(s) && n < |s.casts| && s.casts[n].to == Some(ids) && ids <= s.members.Keys
    ensures Reachable(s')
    ensures s' == s.(casts := s.casts[n := s.casts[n].(to := Some({}))],
                     members := Told(s.members, ids, s.casts[n].msg))
    decreases ids
  {
    var msg := s.casts[n].msg;
    if ids == {} {
      s' := s;
      assert Told(s.members, {}, msg) == s.members && s.casts[n := s.casts[n].(to := Some({}))] == s.casts;
    } else {
      var id :| id in ids;
      TellsOne(s, n, id, ids);
      var m := s.(casts := s.casts[n := s.casts[n].(to := Some(ids - {id}))], members := Told(s.members, {id}, msg));
      Goes(s, Hands(n, id, false), m);
      s' := TellsAll(m, n, ids - {id});
      ToldTwice(s.members, id, ids - {id}, msg);
      assert {id} + (ids - {id}) == ids;
    }
  }

  // A chat comes to everybody in the room, if nothing is dropped
  lemma ChatComesToAll(s: State, chat: nat) returns (s': State)
    requires Reachable(s)
    ensures Reachable(s') && s'.room == s.room && s'.salts == s.salts
    ensures s'.members == Told(s.members, if s.room.Some? then s.room.value.peers else {}, Chat(chat))
  {
    ReachableInv(s);
    var m := s.(casts := s.casts + [Cast(Chat(chat), 0, Some(Peers(s)))]);
    Goes(s, Says(chat), m);
    s' := TellsAll(m, |s.casts|, Peers(s));
  }

  // An announcement that is due comes to everybody in the room, with its salt
  lemma PresenceComesToAll(s: State) returns (s': State)
    requires Reachable(s) && s.owed > 0
    ensures Reachable(s') && s'.room == s.room && s'.salts == s.salts && s'.owed == s.owed - 1
    ensures s.room.Some? ==> s'.members == Told(s.members, s.room.value.peers, Presence(s.room.value.salt))
  {
    ReachableInv(s);
    Begins(s);
    var m, n := Begun(s), |s.casts|;
    var read := m.(casts := m.casts[n := m.casts[n].(to := Some(Peers(s)))]);
    Goes(m, ReadsPeers(n), read);
    s' := TellsAll(read, n, Peers(s));
  }

  // ---- One announcement for each join and each leave ----

  // The joins and the leaves that took place, less the announcements begun
  function Due(s: State, events: seq<Event>): int
    decreases |events|
  {
    if events == [] then 0
    else
      var ev := events[0];
      (match ev
       case Joins(id) => if id in s.members && !s.members[id].joined then 1 else 0
       case Leaves(id) => if id in Peers(s) then 1 else 0
       case ReadsSalt => if s.owed > 0 then -1 else 0
       case _ => 0)
      + Due(Next(s, ev), events[1..])
  }

  lemma {:induction false} EachIsAnnounced(s: State, events: seq<Event>)
    ensures Run(s, events).owed == s.owed + Due(s, events)
    decreases |events|
  {
    if events != [] { EachIsAnnounced(Next(s, events[0]), events[1..]); }
  }

  // ---- What has come is handled ----

  function ChatsIn(msgs: seq<Msg>): seq<nat> {
    if msgs == [] then [] else (if msgs[0].Chat? then [msgs[0].chat] else []) + ChatsIn(msgs[1..])
  }

  lemma ReceivesOne(s: State, id: Id)
    requires id in s.members && s.members[id].chan != []
    ensures var s' := Next(s, Delivers(id));
            && s' == s.(members := s.members[id := s'.members[id]])
            && s'.members[id].chan == s.members[id].chan[1..]
            && s'.members[id].client.received == s.members[id].client.received + ChatsIn(s.members[id].chan[..1])
  {
    var m := s.members[id];
    assert m.chan[..1] == [m.chan[0]] && [m.chan[0]][1..] == [];
    assert m.client.received + [] == m.client.received;
  }

  // A client handles all that has come to it, its chats in the order in which they were handed
  lemma {:induction false} HandlesAll(s: State, id: Id) returns (s': State)
    requires Reachable(s) && id in s.members
    ensures Reachable(s') && id in s'.members && s' == s.(members := s.members[id := s'.members[id]])
    ensures s'.members[id].chan == []
    ensures s'.members[id].client.received == s.members[id].client.received + ChatsIn(s.members[id].chan)
    ensures var c := s'.members[id].client; Chats(c.done) + c.queue == c.received
    decreases |s.members[id].chan|
  {
    var m := s.members[id];
    if m.chan == [] {
      s' := s;
      assert s.members[id := m] == s.members && m.client.received + [] == m.client.received;
      ChatsKeepTheirOrder(s, id);
    } else {
      ReceivesOne(s, id);
      var s1 := Next(s, Delivers(id));
      Goes(s, Delivers(id), s1);
      s' := HandlesAll(s1, id);
      FirstThenRest(m.chan);
      assert s.members[id := s1.members[id]][id := s'.members[id]] == s.members[id := s'.members[id]];
    }
  }

  lemma FirstThenRest(msgs: seq<Msg>)
    requires msgs != []
    ensures ChatsIn(msgs[..1]) + ChatsIn(msgs[1..]) == ChatsIn(msgs)
  {
    assert msgs[..1][1..] == [];
  }
}
