/**
 How the members of a passphrase room come to one key (apps/trapchat/src/App.jsx,
 apps/trapchat/src/hooks/useRoomManager.js, pkgs/go/storage/storage.go, services/gateway).
 One room name; each client joins it once. Gateway goroutines interleave: a presence is announced by reading
 the room's salt, then the room's peers, then handing it to each of them, and in between peers join and
 leave, and the room is deleted and founded again. What a peer is handed reaches it in order, unless dropped at a
 full send queue. Deriving a key takes time, in which the client goes on handling messages. PBKDF2 is ideal: a
 key is its inputs.
 */
module SaltAgreement {
  import opened Options

  type Id = string
  type Salt = nat
  type Pass = string

  datatype Key = Derived(pass: Pass, salt: Salt) | Linked(n: nat)

  datatype Job = Job(pass: Pass, salt: Salt)

  // A chat message and the key in force when it was handled
  datatype Done = Done(chat: nat, key: Option<Key>)

  // What one client keeps for the room: its three maps' entries, the pending mark and queue,
  // derivations under way, and, for the statements, chats handled and received
  datatype Client = Client(salt: Option<Salt>, pass: Option<Pass>, key: Option<Key>, pending: bool,
                           queue: seq<nat>, jobs: seq<Job>, done: seq<Done>, received: seq<nat>)

  function WithPassphrase(pass: Pass, salt: Salt): Client {
    Client(Some(salt), Some(pass), Some(Derived(pass, salt)), false, [], [], [], [])
  }

  function WithLink(n: nat): Client {
    Client(None, None, Some(Linked(n)), false, [], [], [], [])
  }

  function OnPresence(c: Client, salt: Option<Salt>): Client {
    if salt.None? || c.salt == salt || c.pass.None? then c
    else c.(pending := true, salt := salt, jobs := c.jobs + [Job(c.pass.value, salt.value)])
  }

  function Handled(chats: seq<nat>, key: Option<Key>): seq<Done> {
    seq(|chats|, k requires 0 <= k < |chats| => Done(chats[k], key))
  }

  // A derivation ends: the key is in force, and the queued chats are handled under it
  function OnDerived(c: Client, n: nat): Client
    requires n < |c.jobs|
  {
    var key := Some(Derived(c.jobs[n].pass, c.jobs[n].salt));
    c.(key := key, pass := None, pending := false, jobs := c.jobs[..n] + c.jobs[n + 1..],
       queue := [], done := c.done + Handled(c.queue, key))
  }

  function OnChat(c: Client, chat: nat): Client {
    var c1 := c.(received := c.received + [chat]);
    if c.pending then c1.(queue := c.queue + [chat]) else c1.(done := c.done + [Done(chat, c.key)])
  }

  function OnLeave(c: Client): Client {
    c.(salt := None, pass := None, key := None)
  }

  // ---- The room ----

  datatype Msg = Presence(salt: Option<Salt>) | Chat(chat: nat)

  // A broadcast under way: the founding of the room under which a presence's salt was read, and, once they
  // have been read, the peers still to be handed the message
  datatype Cast = Cast(msg: Msg, read: nat, to: Option<set<Id>>)

  // A client with the messages on their way to it. `own` is the passphrase and the random salt it
  // started with; `joinedIn` the founding of the room it joined under, and `saltAtJoin` the room's salt then.
  // For the statements: `told` are the salts of all presences handed to it, `derived` those of the
  // derivations that have ended; `seen` says that it has handled a presence with a salt, after `stale`
  // chats, `finished` that some handling of such a presence has ended.
  datatype Member = Member(client: Client, chan: seq<Msg>, own: Option<Job>, joined: bool, left: bool,
                           joinedIn: nat, saltAtJoin: Option<Salt>, told: seq<Option<Salt>>, derived: seq<Salt>,
                           seen: bool, stale: nat, finished: bool)

  datatype Room = Room(peers: set<Id>, salt: Option<Salt>)

  // `salts` has the salt of every founding of the room; `owed` counts the joins and leaves whose presence has
  // yet to be announced
  datatype State = State(room: Option<Room>, salts: seq<Option<Salt>>, owed: nat, casts: seq<Cast>,
                         members: map<Id, Member>)

  const START := State(None, [], 0, [], map[])

  datatype Event =
    | Sets(id: Id, pass: Pass, salt: Salt)
    | SetsLink(id: Id, n: nat)
    | Joins(id: Id)                            // in the store
    | Leaves(id: Id)                           // from the store, by a message or with the connection
    | Evicts(id: Id)                           // from the store, by a clean-up or the expiry sweep
    | ReadsSalt                                // an announcement begins
    | ReadsPeers(n: nat)                       // broadcast n finds out whom to send to
    | Hands(n: nat, id: Id, dropped: bool)     // broadcast n comes to one of them
    | Says(chat: nat)                          // a chat is broadcast, its recipients read
    | Delivers(id: Id)
    | Derives(id: Id, n: nat)
    | Forgets(id: Id)

  predicate Enabled(s: State, ev: Event) {
    match ev
    case Sets(id, _, _) => id !in s.members
    case SetsLink(id, _) => id !in s.members
    case Joins(id) => id in s.members && !s.members[id].joined
    case Leaves(id) => s.room.Some? && id in s.room.value.peers
    case Evicts(id) => s.room.Some? && id in s.room.value.peers
    case ReadsSalt => s.owed > 0
    case ReadsPeers(n) => n < |s.casts| && s.casts[n].to.None?
    case Hands(n, id, _) => n < |s.casts| && s.casts[n].to.Some? && id in s.casts[n].to.value && id in s.members
    case Says(_) => true
    case Delivers(id) => id in s.members && s.members[id].chan != []
    case Derives(id, n) => id in s.members && n < |s.members[id].client.jobs|
    case Forgets(id) => id in s.members && !s.members[id].left
  }

  function Starts(client: Client, own: Option<Job>): Member {
    Member(client, [], own, false, false, 0, None, [], [], false, 0, false)
  }

  function Peers(s: State): set<Id> {
    if s.room.Some? then s.room.value.peers else {}
  }

  function RoomSalt(s: State): Option<Salt> {
    if s.room.Some? then s.room.value.salt else None
  }

  // The salt the room has once m has joined: the founder brings its own, if it has one
  function SaltFor(s: State, m: Member): Option<Salt> {
    if s.room.Some? then s.room.value.salt else if m.own.Some? then Some(m.own.value.salt) else None
  }

  function Removed(room: Room, id: Id): Option<Room> {
    if room.peers - {id} == {} then None else Some(room.(peers := room.peers - {id}))
  }

  function RoomAfter(s: State, ev: Event): Option<Room>
    requires Enabled(s, ev)
  {
    match ev
    case Joins(id) => Some(Room(Peers(s) + {id}, SaltFor(s, s.members[id])))
    case Leaves(id) => Removed(s.room.value, id)
    case Evicts(id) => Removed(s.room.value, id)
    case _ => s.room
  }

  function SaltsAfter(s: State, ev: Event): seq<Option<Salt>>
    requires Enabled(s, ev)
  {
    if ev.Joins? && s.room.None? then s.salts + [SaltFor(s, s.members[ev.id])] else s.salts
  }

  function CastsAfter(s: State, ev: Event): seq<Cast>
    requires Enabled(s, ev)
  {
    match ev
    case ReadsSalt => s.casts + [Cast(Presence(RoomSalt(s)), if s.salts == [] then 0 else |s.salts| - 1, None)]
    case ReadsPeers(n) => s.casts[n := s.casts[n].(to := Some(Peers(s)))]
    case Hands(n, id, _) => s.casts[n := s.casts[n].(to := Some(s.casts[n].to.value - {id}))]
    case Says(chat) => s.casts + [Cast(Chat(chat), 0, Some(Peers(s)))]
    case _ => s.casts
  }

  function Handed(m: Member, msg: Msg): Member {
    m.(chan := m.chan + [msg], told := if msg.Presence? then m.told + [msg.salt] else m.told)
  }

  function Received(m: Member): Member
    requires m.chan != []
  {
    var m1 := m.(chan := m.chan[1..]);
    match m.chan[0]
    case Chat(chat) => m1.(client := OnChat(m.client, chat))
    case Presence(salt) =>
      var client := OnPresence(m.client, salt);
      if salt.None? then m1.(client := client)
      else m1.(client := client, seen := true, stale := if m.seen then m.stale else |m.client.done|,
               finished := m.finished || client == m.client)
  }

  function DerivedBy(m: Member, n: nat): Member
    requires n < |m.client.jobs|
  {
    m.(client := OnDerived(m.client, n), derived := m.derived + [m.client.jobs[n].salt], finished := true)
  }

  // The one member that an event concerns, afterwards
  function MembersAfter(s: State, ev: Event): map<Id, Member>
    requires Enabled(s, ev)
  {
    match ev
    case Sets(id, pass, salt) => s.members[id := Starts(WithPassphrase(pass, salt), Some(Job(pass, salt)))]
    case SetsLink(id, n) => s.members[id := Starts(WithLink(n), None)]
    case Joins(id) =>
      var m := s.members[id];
      s.members[id := m.(joined := true, saltAtJoin := SaltFor(s, m),
                         joinedIn := if s.room.None? || s.salts == [] then |s.salts| else |s.salts| - 1)]
    case Hands(n, id, dropped) =>
      if dropped then s.members else s.members[id := Handed(s.members[id], s.casts[n].msg)]
    case Delivers(id) => s.members[id := Received(s.members[id])]
    case Derives(id, n) => s.members[id := DerivedBy(s.members[id], n)]
    case Forgets(id) =>
      var m := s.members[id];
      s.members[id := m.(client := OnLeave(m.client), left := true)]
    case _ => s.members
  }

  function OwedAfter(s: State, ev: Event): nat
    requires Enabled(s, ev)
  {
    if ev.Joins? || ev.Leaves? then s.owed + 1 else if ev.ReadsSalt? then s.owed - 1 else s.owed
  }

  function Next(s: State, ev: Event): State {
    if !Enabled(s, ev) then s
    else
      State(RoomAfter(s, ev), SaltsAfter(s, ev), OwedAfter(s, ev), CastsAfter(s, ev), MembersAfter(s, ev))
  }

  function Run(s: State, events: seq<Event>): State
    decreases |events|
  {
    if events == [] then s else Run(Next(s, events[0]), events[1..])
  }

  // ---- What holds of every member ----

  function Chats(done: seq<Done>): seq<nat> {
    seq(|done|, k requires 0 <= k < |done| => done[k].chat)
  }

  // Handled, then queued: every chat received, in order, once
  predicate InOrder(c: Client) {
    Chats(c.done) + c.queue == c.received && (!c.pending ==> c.queue == [])
  }

  // Every presence handed to the member so far has had the salt of the room as the member joined it
  predicate ToldOwn(m: Member) {
    forall k | 0 <= k < |m.told| && m.told[k].Some? :: m.told[k] == m.saltAtJoin
  }

  predicate ChanTold(m: Member) {
    forall k | 0 <= k < |m.chan| && m.chan[k].Presence? :: m.chan[k].salt in m.told
  }

  predicate BeforeSalt(c: Client, own: Job) {
    c.salt == Some(own.salt) && c.pass == Some(own.pass) && c.key == Some(Derived(own.pass, own.salt))
    && !c.pending && c.jobs == []
  }

  predicate Deriving(c: Client, own: Job, salt: Salt) {
    c.salt == Some(salt) && c.pass == Some(own.pass) && c.key == Some(Derived(own.pass, own.salt))
    && own.salt != salt && c.pending && c.jobs == [Job(own.pass, salt)]
  }

  predicate Agreed(c: Client, own: Job, salt: Salt) {
    c.salt == Some(salt) && c.key == Some(Derived(own.pass, salt)) && !c.pending && c.jobs == []
  }

  // Chats handled after the first presence with a salt are handled under the room's key
  predicate HandledUnder(m: Member, key: Key) {
    m.stale <= |m.client.done| && forall k | m.stale <= k < |m.client.done| :: m.client.done[k].key == Some(key)
  }

  // A member with a passphrase on its way from its own salt to the room's
  predicate OnItsWay(m: Member)
    requires m.own.Some?
  {
    if m.seen then
      && m.saltAtJoin.Some?
      && (Deriving(m.client, m.own.value, m.saltAtJoin.value) || Agreed(m.client, m.own.value, m.saltAtJoin.value))
      && HandledUnder(m, Derived(m.own.value.pass, m.saltAtJoin.value))
    else
      BeforeSalt(m.client, m.own.value)
  }

  // The salt of the key in force: that of the derivation that ended last
  function LastSalt(m: Member): Salt
    requires m.own.Some?
  {
    if m.derived == [] then m.own.value.salt else m.derived[|m.derived| - 1]
  }

  predicate JobsOf(c: Client, pass: Pass) {
    (c.pass.Some? ==> c.pass.value == pass) && forall k | 0 <= k < |c.jobs| :: c.jobs[k].pass == pass
  }

  // Whatever it is told: the key is of the last derivation, derivations are of the own passphrase, and the passphrase
  // is forgotten when one has ended
  predicate KeyedByLast(m: Member)
    requires m.own.Some?
  {
    && (!m.left ==> m.client.key == Some(Derived(m.own.value.pass, LastSalt(m))))
    && (m.derived != [] ==> m.client.pass.None?)
    && JobsOf(m.client, m.own.value.pass)
  }

  predicate MemberInv(m: Member) {
    && InOrder(m.client) && ChanTold(m)
    && (!m.joined ==> m.chan == [] && m.told == [] && !m.seen)
    && (m.own.Some? ==> KeyedByLast(m))
    && (m.own.Some? && !m.left && ToldOwn(m) ==> OnItsWay(m))
    && (m.own.None? || m.left ==> m.client.pass.None?)
    && (m.client.jobs != [] || m.finished ==> m.seen)
  }

  // ---- What holds of the room and the broadcasts ----

  ghost predicate PeersOk(s: State) {
    s.room.Some? ==>
      && s.salts != [] && s.room.value.salt == s.salts[|s.salts| - 1]
      && forall id | id in s.room.value.peers ::
           id in s.members && s.members[id].joined && s.members[id].joinedIn == |s.salts| - 1
  }

  ghost predicate JoinsOk(s: State) {
    forall id | id in s.members && s.members[id].joined ::
      s.members[id].joinedIn < |s.salts| && s.members[id].saltAtJoin == s.salts[s.members[id].joinedIn]
  }

  predicate HasSalt(cast: Cast) {
    cast.msg.Presence? && cast.msg.salt.Some?
  }

  // A presence carries the salt of the founding under which it was read, and goes to members of that or a later one
  ghost predicate CastOk(s: State, cast: Cast) {
    && (HasSalt(cast) ==> cast.read < |s.salts| && s.salts[cast.read] == cast.msg.salt)
    && (cast.to.Some? ==> forall id | id in cast.to.value ::
          id in s.members && s.members[id].joined && (HasSalt(cast) ==> cast.read <= s.members[id].joinedIn))
  }

  ghost predicate CastsOk(s: State) {
    forall n | 0 <= n < |s.casts| :: CastOk(s, s.casts[n])
  }

  ghost predicate MembersOk(s: State) {
    forall id | id in s.members :: MemberInv(s.members[id])
  }

  ghost predicate Inv(s: State) {
    MembersOk(s) && PeersOk(s) && JoinsOk(s) && CastsOk(s)
  }

  lemma ChatKeepsOrder(c: Client, chat: nat)
    requires InOrder(c)
    ensures InOrder(OnChat(c, chat))
  {
    if c.pending {
      assert Chats(c.done) + (c.queue + [chat]) == c.received + [chat];
    } else {
      assert Chats(c.done + [Done(chat, c.key)]) == Chats(c.done) + [chat];
      assert Chats(c.done) + [] == Chats(c.done);
    }
  }

  lemma DerivedKeepsOrder(c: Client, n: nat)
    requires InOrder(c) && n < |c.jobs|
    ensures InOrder(OnDerived(c, n))
  {
    var key := Some(Derived(c.jobs[n].pass, c.jobs[n].salt));
    assert Chats(c.done + Handled(c.queue, key)) == Chats(c.done) + c.queue;
    assert Chats(c.done + Handled(c.queue, key)) + [] == Chats(c.done + Handled(c.queue, key));
  }

  lemma ReceivedKeepsOrder(m: Member)
    requires MemberInv(m) && m.chan != []
    ensures InOrder(Received(m).client) && ChanTold(Received(m))
  {
    var m' := Received(m);
    assert forall k | 0 <= k < |m'.chan| :: m'.chan[k] == m.chan[k + 1];
    if m.chan[0].Chat? { ChatKeepsOrder(m.client, m.chan[0].chat); }
  }

  lemma PresenceKeepsJobs(c: Client, salt: Option<Salt>, pass: Pass)
    requires JobsOf(c, pass)
    ensures JobsOf(OnPresence(c, salt), pass) && OnPresence(c, salt).key == c.key
  {
  }

  lemma ReceivedKeepsKeyed(m: Member)
    requires m.chan != [] && m.own.Some? && KeyedByLast(m)
    ensures KeyedByLast(Received(m))
  {
    if m.chan[0].Presence? { PresenceKeepsJobs(m.client, m.chan[0].salt, m.own.value.pass); }
  }

  // Handling one message keeps a member that has been told of no other salt on its way
  lemma ReceivedKeepsWay(m: Member)
    requires MemberInv(m) && m.chan != [] && m.own.Some? && !m.left && ToldOwn(m)
    ensures OnItsWay(Received(m))
  {
    assert m.chan[0].Presence? ==> m.chan[0].salt in m.told;
  }

  lemma ReceivedKeeps(m: Member)
    requires MemberInv(m) && m.chan != []
    ensures MemberInv(Received(m))
  {
    ReceivedKeepsOrder(m);
    if m.own.Some? { ReceivedKeepsKeyed(m); }
    if m.own.Some? && !m.left && ToldOwn(m) { ReceivedKeepsWay(m); }
  }

  // The end of a derivation keeps it, handling the queued chats under the new key
  lemma DerivedKeeps(m: Member, n: nat)
    requires MemberInv(m) && n < |m.client.jobs|
    ensures MemberInv(DerivedBy(m, n))
  {
    DerivedKeepsOrder(m.client, n);
  }

  lemma HandedKeeps(m: Member, msg: Msg)
    requires MemberInv(m) && m.joined
    ensures MemberInv(Handed(m, msg))
    ensures ToldOwn(Handed(m, msg)) <==> ToldOwn(m) && (msg.Presence? && msg.salt.Some? ==> msg.salt == m.saltAtJoin)
  {
    var m' := Handed(m, msg);
    forall k | 0 <= k < |m'.chan| && m'.chan[k].Presence? ensures m'.chan[k].salt in m'.told {
      if k < |m.chan| { assert m.chan[k].salt in m.told; } else { assert m'.told[|m.told|] == msg.salt; }
    }
    if msg.Presence? {
      assert m'.told[|m.told|] == msg.salt;
      assert forall k | 0 <= k < |m.told| :: m'.told[k] == m.told[k];
    }
  }

  lemma ForgetKeeps(m: Member)
    requires MemberInv(m)
    ensures MemberInv(m.(client := OnLeave(m.client), left := true))
  {
  }

  lemma MemberStaysOk(s: State, ev: Event, id: Id)
    requires MembersOk(s) && CastsOk(s) && Enabled(s, ev) && id in s.members
    ensures id in Next(s, ev).members && MemberInv(Next(s, ev).members[id])
  {
    var m := s.members[id];
    assert MemberInv(m);
    match ev {
      case Hands(n, p, _) =>
        assert CastOk(s, s.casts[n]);
        if p == id { HandedKeeps(m, s.casts[n].msg); }
      case Delivers(p) => if p == id { ReceivedKeeps(m); }
      case Derives(p, n) => if p == id { DerivedKeeps(m, n); }
      case Forgets(p) => if p == id { ForgetKeeps(m); }
      case _ =>
    }
  }

  lemma NextKeepsMembers(s: State, ev: Event)
    requires MembersOk(s) && CastsOk(s) && Enabled(s, ev)
    ensures MembersOk(Next(s, ev))
  {
    forall id | id in Next(s, ev).members ensures MemberInv(Next(s, ev).members[id]) {
      if id in s.members { MemberStaysOk(s, ev, id); }
    }
  }

  // A member keeps what it joined under, once it has
  lemma JoinedStays(s: State, ev: Event, id: Id)
    requires Enabled(s, ev) && id in s.members && s.members[id].joined
    ensures id in Next(s, ev).members
    ensures var m, m' := s.members[id], Next(s, ev).members[id];
            m'.joined && m'.joinedIn == m.joinedIn && m'.saltAtJoin == m.saltAtJoin
  {
  }

  // Founding only adds a salt
  lemma SaltsGrow(s: State, ev: Event)
    requires Enabled(s, ev)
    ensures s.salts <= Next(s, ev).salts
  {
  }

  lemma NextKeepsJoins(s: State, ev: Event)
    requires PeersOk(s) && JoinsOk(s) && Enabled(s, ev)
    ensures JoinsOk(Next(s, ev))
  {
    SaltsGrow(s, ev);
    var s' := Next(s, ev);
    forall id | id in s'.members && s'.members[id].joined
      ensures s'.members[id].joinedIn < |s'.salts| && s'.members[id].saltAtJoin == s'.salts[s'.members[id].joinedIn]
    {
      if id in s.members && s.members[id].joined { JoinedStays(s, ev, id); }
    }
  }

  lemma NextKeepsPeers(s: State, ev: Event)
    requires PeersOk(s) && Enabled(s, ev)
    ensures PeersOk(Next(s, ev))
  {
    var s' := Next(s, ev);
    if s'.room.Some? {
      forall id | id in s'.room.value.peers
        ensures id in s'.members && s'.members[id].joined && s'.members[id].joinedIn == |s'.salts| - 1
      {
        if s.room.Some? && id in s.room.value.peers { JoinedStays(s, ev, id); }
      }
    }
  }

  lemma CastStaysOk(s: State, ev: Event, cast: Cast)
    requires Enabled(s, ev) && CastOk(s, cast)
    ensures CastOk(Next(s, ev), cast)
  {
    SaltsGrow(s, ev);
    if cast.to.Some? {
      forall id | id in cast.to.value
        ensures id in Next(s, ev).members && Next(s, ev).members[id].joined
        ensures HasSalt(cast) ==> cast.read <= Next(s, ev).members[id].joinedIn
      {
        JoinedStays(s, ev, id);
      }
    }
  }

  // A broadcast that begins, reads its peers, or has come to one of them
  lemma CastAfterOk(s: State, ev: Event, n: nat)
    requires PeersOk(s) && CastsOk(s) && Enabled(s, ev) && n < |CastsAfter(s, ev)|
    ensures CastOk(s, CastsAfter(s, ev)[n])
  {
    assert n < |s.casts| ==> CastOk(s, s.casts[n]);
  }

  lemma NextKeepsCasts(s: State, ev: Event)
    requires PeersOk(s) && CastsOk(s) && Enabled(s, ev)
    ensures CastsOk(Next(s, ev))
  {
    forall n | 0 <= n < |CastsAfter(s, ev)| ensures CastOk(Next(s, ev), CastsAfter(s, ev)[n]) {
      CastAfterOk(s, ev, n);
      CastStaysOk(s, ev, CastsAfter(s, ev)[n]);
    }
  }

  lemma NextKeepsInv(s: State, ev: Event)
    requires Inv(s)
    ensures Inv(Next(s, ev))
  {
    if Enabled(s, ev) {
      NextKeepsMembers(s, ev);
      NextKeepsPeers(s, ev);
      NextKeepsJoins(s, ev);
      NextKeepsCasts(s, ev);
    }
  }

  lemma {:induction false} RunKeepsInv(s: State, events: seq<Event>)
    requires Inv(s)
    ensures Inv(Run(s, events))
    decreases |events|
  {
    if events != [] {
      NextKeepsInv(s, events[0]);
      RunKeepsInv(Next(s, events[0]), events[1..]);
    }
  }

  ghost predicate Reachable(s: State) {
    exists events :: s == Run(START, events)
  }

  lemma ReachableInv(s: State)
    requires Reachable(s)
    ensures Inv(s)
  {
    var events :| s == Run(START, events);
    RunKeepsInv(START, events);
  }
}
