/**
 The maps in which the application keeps each room's key, salt and passphrase, the rooms whose key
 is being derived and the chats that wait for it (apps/trapchat/src/App.jsx,
 apps/trapchat/src/hooks/useRoomManager.js). Each method does to its room what SaltAgreement says
 of one client, and nothing to any other room.
 */
module RoomKeys {
  import opened Options
  import opened SaltAgreement

  type Name = string

  function Get<T>(m: map<Name, T>, room: Name): Option<T> {
    if room in m then Some(m[room]) else None
  }

  function Queued(m: map<Name, seq<nat>>, room: Name): seq<nat> {
    if room in m then m[room] else []
  }

  // A passphrase and a salt are set; the key is still the one before, if any
  function SetUp(before: Option<Client>, key: Option<Key>, pass: Pass, salt: Salt): Client {
    match before
    case None => Client(Some(salt), Some(pass), key, false, [], [], [], [])
    case Some(c) => c.(salt := Some(salt), pass := Some(pass))
  }

  function Keyed(c: Client, job: Job): Client {
    c.(key := Some(Derived(job.pass, job.salt)))
  }

  // A room set up for the first time, with nothing in between, is what a client joins with
  lemma SetUpGivesStart(key: Option<Key>, pass: Pass, salt: Salt)
    ensures Keyed(SetUp(None, key, pass, salt), Job(pass, salt)) == WithPassphrase(pass, salt)
  {
  }

  lemma HandledGrows(chats: seq<nat>, n: nat, key: Option<Key>)
    requires n < |chats|
    ensures Handled(chats[..n + 1], key) == Handled(chats[..n], key) + [Done(chats[n], key)]
  {
  }

  lemma Overwritten(m: map<Name, Client>, room: Name, a: Client, b: Client)
    ensures m[room := a][room := b] == m[room := b]
  {
  }

  class KeyRefs {
    var keyRefs: map<Name, Key>
    var saltRefs: map<Name, Salt>
    var passphraseRefs: map<Name, Pass>
    var pendingKeyRooms: set<Name>
    var pendingMessages: map<Name, seq<nat>>
    ghost var clients: map<Name, Client>

    ghost predicate Agrees(room: Name, c: Client)
      reads this
    {
      && c.key == Get(keyRefs, room)
      && c.salt == Get(saltRefs, room)
      && c.pass == Get(passphraseRefs, room)
      && (c.pending <==> room in pendingKeyRooms)
      && c.queue == Queued(pendingMessages, room)
    }

    // Only rooms that have been set up are marked or have chats waiting
    ghost predicate Valid()
      reads this
    {
      && (forall room | room in clients :: Agrees(room, clients[room]))
      && (forall room :: room in pendingKeyRooms || room in pendingMessages ==> room in clients)
    }

    constructor ()
      ensures Valid() && clients == map[] && pendingKeyRooms == {} && pendingMessages == map[]
              && passphraseRefs == map[]
    {
      keyRefs, saltRefs, passphraseRefs := map[], map[], map[];
      pendingKeyRooms, pendingMessages, clients := {}, map[], map[];
    }

    // The passphrase branch of `setupRoomKey` up to its await; the random salt is a parameter. A room set up
    // again, even while a derivation for it is under way, keeps its mark, the waiting chats and the derivation.
    method BeginSetup(room: Name, passphrase: Pass, salt: Salt) returns (job: Job)
      requires Valid()
      modifies this
      ensures Valid()
      ensures clients == old(clients)[room := SetUp(Get(old(clients), room), Get(old(keyRefs), room), passphrase, salt)]
      ensures job == Job(passphrase, salt)
      ensures saltRefs == old(saltRefs)[room := salt] && passphraseRefs == old(passphraseRefs)[room := passphrase]
      ensures keyRefs == old(keyRefs)
      ensures pendingKeyRooms == old(pendingKeyRooms) && pendingMessages == old(pendingMessages)
    {
      saltRefs := saltRefs[room := salt];
      passphraseRefs := passphraseRefs[room := passphrase];
      clients := clients[room := SetUp(Get(clients, room), Get(keyRefs, room), passphrase, salt)];
      job := Job(passphrase, salt);
    }

    // And from there, when the key is derived, whatever the maps now hold
    method FinishSetup(room: Name, job: Job)
      requires Valid() && room in clients
      modifies this
      ensures Valid() && clients == old(clients)[room := Keyed(old(clients)[room], job)]
      ensures keyRefs == old(keyRefs)[room := Derived(job.pass, job.salt)]
      ensures saltRefs == old(saltRefs) && passphraseRefs == old(passphraseRefs)
      ensures pendingKeyRooms == old(pendingKeyRooms) && pendingMessages == old(pendingMessages)
    {
      keyRefs := keyRefs[room := Derived(job.pass, job.salt)];
      clients := clients[room := Keyed(clients[room], job)];
    }

    // The presence branch up to its `await`: the derivation to start, if any
    method OnPresence(room: Name, salt: Option<Salt>) returns (job: Option<Job>)
      requires Valid() && room in clients
      modifies this
      ensures Valid() && clients == old(clients)[room := SaltAgreement.OnPresence(old(clients)[room], salt)]
      ensures clients[room].jobs == old(clients)[room].jobs + if job.Some? then [job.value] else []
    {
      job := None;
      ghost var c := clients[room];
      assert clients == clients[room := c] && c.jobs + [] == c.jobs;
      if salt.Some? {
        var saltsMatch := room in saltRefs && saltRefs[room] == salt.value;
        if !saltsMatch && room in passphraseRefs {
          pendingKeyRooms := pendingKeyRooms + {room};
          saltRefs := saltRefs[room := salt.value];
          job := Some(Job(passphraseRefs[room], salt.value));
          clients := clients[room := SaltAgreement.OnPresence(c, salt)];
        }
      }
    }

    method HandleChat(room: Name, chat: nat)
      requires Valid() && room in clients
      modifies `clients
      ensures Valid()
      ensures var c := old(clients)[room]; clients == old(clients)[room := c.(done := c.done + [Done(chat, c.key)])]
    {
      clients := clients[room := clients[room].(done := clients[room].done + [Done(chat, Get(keyRefs, room))])];
    }

    // The queued chats, emitted again in order
    method Flush(room: Name, queued: seq<nat>)
      requires Valid() && room in clients
      modifies `clients
      ensures Valid()
      ensures var c := old(clients)[room]; clients == old(clients)[room := c.(done := c.done + Handled(queued, c.key))]
    {
      ghost var all, c := clients, clients[room];
      assert c.done + Handled(queued[..0], c.key) == c.done && all[room := c] == all;
      for i := 0 to |queued|
        invariant Valid()
        invariant clients == all[room := c.(done := c.done + Handled(queued[..i], c.key))]
      {
        HandledGrows(queued, i, c.key);
        ghost var now, next := clients[room], c.(done := c.done + Handled(queued[..i + 1], c.key));
        Overwritten(all, room, now, next);
        HandleChat(room, queued[i]);
        assert now.done + [Done(queued[i], c.key)] == next.done;
      }
      assert queued[..|queued|] == queued;
    }

    // The derived key is put in force and the passphrase forgotten
    method PutKey(room: Name, job: Job)
      requires Valid() && room in clients
      modifies `keyRefs, `passphraseRefs, `clients
      ensures Valid()
      ensures var c := old(clients)[room];
              clients == old(clients)[room := c.(key := Some(Derived(job.pass, job.salt)), pass := None)]
    {
      keyRefs := keyRefs[room := Derived(job.pass, job.salt)];
      passphraseRefs := passphraseRefs - {room};
      clients := clients[room := clients[room].(key := Some(Derived(job.pass, job.salt)), pass := None)];
    }

    // The room is no longer marked, and the chats that waited are handed out
    method Unmark(room: Name, ghost n: nat) returns (queued: seq<nat>)
      requires Valid() && room in clients && n < |clients[room].jobs|
      modifies `pendingKeyRooms, `pendingMessages, `clients
      ensures Valid() && queued == old(clients)[room].queue
      ensures var c := old(clients)[room];
              clients == old(clients)[room := c.(pending := false, queue := [], jobs := c.jobs[..n] + c.jobs[n + 1..])]
    {
      pendingKeyRooms := pendingKeyRooms - {room};
      queued := Queued(pendingMessages, room);
      if |queued| > 0 { pendingMessages := pendingMessages - {room}; }
      ghost var c := clients[room];
      clients := clients[room := c.(pending := false, queue := [], jobs := c.jobs[..n] + c.jobs[n + 1..])];
    }

    method Settle(room: Name, ghost n: nat, job: Job) returns (queued: seq<nat>)
      requires Valid() && room in clients && n < |clients[room].jobs| && clients[room].jobs[n] == job
      modifies this
      ensures Valid() && queued == old(clients)[room].queue
      ensures var c := old(clients)[room];
              clients == old(clients)[room := SaltAgreement.OnDerived(c, n).(done := c.done)]
    {
      ghost var all := clients;
      PutKey(room, job);
      ghost var keyed := clients[room];
      queued := Unmark(room, n);
      Overwritten(all, room, keyed, clients[room]);
    }

    // What follows the `await`, for the nth derivation under way
    method OnDerived(room: Name, ghost n: nat, job: Job)
      requires Valid() && room in clients && n < |clients[room].jobs| && clients[room].jobs[n] == job
      modifies this
      ensures Valid() && clients == old(clients)[room := SaltAgreement.OnDerived(old(clients)[room], n)]
    {
      ghost var all, c := clients, SaltAgreement.OnDerived(clients[room], n);
      var queued := Settle(room, n, job);
      Overwritten(all, room, c.(done := all[room].done), c);
      Flush(room, queued);
    }

    method QueueChat(room: Name, chat: nat)
      requires Valid() && room in clients
      modifies `clients, `pendingMessages
      ensures Valid()
      ensures var c := old(clients)[room]; clients == old(clients)[room := c.(queue := c.queue + [chat])]
    {
      if room !in pendingMessages { pendingMessages := pendingMessages[room := []]; }
      pendingMessages := pendingMessages[room := pendingMessages[room] + [chat]];
      clients := clients[room := clients[room].(queue := clients[room].queue + [chat])];
    }

    // The chat branch
    method OnChat(room: Name, chat: nat)
      requires Valid() && room in clients
      modifies this
      ensures Valid() && clients == old(clients)[room := SaltAgreement.OnChat(old(clients)[room], chat)]
    {
      ghost var all, c := clients, clients[room].(received := clients[room].received + [chat]);
      clients := clients[room := c];
      Overwritten(all, room, c, SaltAgreement.OnChat(all[room], chat));
      if room in pendingKeyRooms {
        QueueChat(room, chat);
      } else {
        HandleChat(room, chat);
      }
    }

    method RemoveRoom(room: Name)
      requires Valid() && room in clients
      modifies this
      ensures Valid() && clients == old(clients)[room := OnLeave(old(clients)[room])]
      ensures keyRefs == old(keyRefs) - {room} && saltRefs == old(saltRefs) - {room}
      ensures passphraseRefs == old(passphraseRefs) - {room}
      ensures pendingKeyRooms == old(pendingKeyRooms) && pendingMessages == old(pendingMessages)
    {
      keyRefs := keyRefs - {room};
      saltRefs := saltRefs - {room};
      passphraseRefs := passphraseRefs - {room};
      clients := clients[room := OnLeave(clients[room])];
    }
  }
}
