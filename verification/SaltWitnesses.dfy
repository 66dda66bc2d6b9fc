/**
 Runs of a passphrase room in which members do not come to one key: a presence handled while a derivation is
 under way, and an announcement that outlives the founding of the room whose salt it has read.
 */
module SaltWitnesses {
  import opened Options
  import opened SaltAgreement
  import opened SaltTheorems

  lemma {:induction false} RunExtends(s: State, events: seq<Event>, ev: Event)
    ensures Run(s, events + [ev]) == Next(Run(s, events), ev)
    decreases |events|
  {
    if events == [] {
      assert ([ev])[1..] == [];
    } else {
      assert (events + [ev])[1..] == events[1..] + [ev];
      RunExtends(Next(s, events[0]), events[1..], ev);
    }
  }

  lemma Goes(s: State, ev: Event, s': State)
    requires Reachable(s) && s' == Next(s, ev)
    ensures Reachable(s')
  {
    var events :| s == Run(START, events);
    RunExtends(START, events, ev);
  }

  lemma StartIsReachable()
    ensures Reachable(START)
  {
    assert Run(START, []) == START;
  }

  // ---- Joining and announcing ----

  function Comes(s: State, id: Id, pass: Pass, salt: Salt): State {
    var own := Job(pass, salt);
    var stored := if s.room.Some? then s.room.value.salt else Some(salt);
    var foundings := if s.room.Some? then s.salts else s.salts + [stored];
    State(Some(Room(Peers(s) + {id}, stored)), foundings, s.owed + 1, s.casts,
          s.members[id := Starts(WithPassphrase(pass, salt), Some(own)).(
                            joined := true, joinedIn := if foundings == [] then 0 else |foundings| - 1,
                            saltAtJoin := stored)])
  }

  // A client sets its passphrase and joins
  lemma ComesIn(s: State, id: Id, pass: Pass, salt: Salt)
    requires Reachable(s) && id !in s.members && (s.room.Some? ==> s.salts != [])
    ensures Reachable(Comes(s, id, pass, salt))
  {
    var s1 := s.(members := s.members[id := Starts(WithPassphrase(pass, salt), Some(Job(pass, salt)))]);
    Goes(s, Sets(id, pass, salt), s1);
    var s2 := Comes(s, id, pass, salt);
    assert s1.members[id := s2.members[id]] == s2.members;
    Goes(s1, Joins(id), s2);
  }

  function Begun(s: State): State
    requires s.owed > 0
  {
    s.(owed := s.owed - 1,
       casts := s.casts + [Cast(Presence(RoomSalt(s)), if s.salts == [] then 0 else |s.salts| - 1, None)])
  }

  lemma Begins(s: State)
    requires Reachable(s) && s.owed > 0
    ensures Reachable(Begun(s))
  {
    Goes(s, ReadsSalt, Begun(s));
  }

  function Told(s: State, n: nat, id: Id): State
    requires n < |s.casts| && id in s.members && s.members[id].chan == []
  {
    s.(casts := s.casts[n := s.casts[n].(to := Some(Peers(s) - {id}))],
       members := s.members[id := Received(Handed(s.members[id], s.casts[n].msg))])
  }

  // The announcement reads the peers, comes to one of them, and is handled there
  lemma Tells(s: State, n: nat, id: Id)
    requires Reachable(s) && n < |s.casts| && s.casts[n].to.None?
    requires id in Peers(s) && id in s.members && s.members[id].chan == []
    ensures Reachable(Told(s, n, id))
  {
    var s1 := s.(casts := s.casts[n := s.casts[n].(to := Some(Peers(s)))]);
    Goes(s, ReadsPeers(n), s1);
    var m := Handed(s.members[id], s.casts[n].msg);
    var s2 := s1.(casts := s1.casts[n := s1.casts[n].(to := Some(Peers(s) - {id}))], members := s1.members[id := m]);
    Goes(s1, Hands(n, id, false), s2);
    var s3 := s2.(members := s2.members[id := Received(m)]);
    Goes(s2, Delivers(id), s3);
    assert s3.members == Told(s, n, id).members && s3.casts == Told(s, n, id).casts;
  }

  // The member's one derivation ends
  function Ended(s: State, id: Id): State
    requires id in s.members && |s.members[id].client.jobs| == 1
  {
    s.(members := s.members[id := DerivedBy(s.members[id], 0)])
  }

  lemma Ends(s: State, id: Id)
    requires Reachable(s) && id in s.members && |s.members[id].client.jobs| == 1
    ensures Reachable(Ended(s, id))
  {
    Goes(s, Derives(id, 0), Ended(s, id));
  }

  // ---- Having finished is not enough ----

  // Two clients with one passphrase and salts of their own, and two announcements that have read the first's
  lemma TwoMembers(a: Id, b: Id, pass: Pass) returns (s: State)
    requires a != b
    ensures Reachable(s) && s.room == Some(Room({a, b}, Some(1))) && b in s.members
    ensures s.casts == [Cast(Presence(Some(1)), 0, None), Cast(Presence(Some(1)), 0, None)]
    ensures s.members[b] ==
            Starts(WithPassphrase(pass, 2), Some(Job(pass, 2))).(joined := true, joinedIn := 0, saltAtJoin := Some(1))
  {
    StartIsReachable();
    ComesIn(START, a, pass, 1);
    var s1 := Comes(START, a, pass, 1);
    assert Peers(s1) + {b} == {a, b} && s1.salts == [Some(1)];
    ComesIn(s1, b, pass, 2);
    var s2 := Comes(s1, b, pass, 2);
    assert s2.owed == 2 && s2.casts == [];
    Begins(s2);
    Begins(Begun(s2));
    s := Begun(Begun(s2));
  }

  // A second presence, handled while the derivation that the first began is still running, finishes at once
  lemma FinishedIsNotEnough(a: Id, b: Id, pass: Pass) returns (s: State)
    requires a != b
    ensures Reachable(s) && IsPeer(s, b) && s.room.value.salt == Some(1)
    ensures s.members[b].finished && !s.members[b].left && s.members[b].own == Some(Job(pass, 2))
    ensures s.members[b].client.key == Some(Derived(pass, 2))
  {
    var s1 := TwoMembers(a, b, pass);
    Tells(s1, 0, b);
    var s2 := Told(s1, 0, b);
    Tells(s2, 1, b);
    s := Told(s2, 1, b);
  }

  // ---- An announcement that outlives its room ----

  // The first member has joined with salt 1 and its announcement has read that, when a clean-up takes it out
  lemma FirstIsGone(b: Id, pass: Pass) returns (s: State)
    ensures Reachable(s) && s.room == None && s.salts == [Some(1)] && s.owed == 0 && s.members.Keys == {b}
    ensures s.casts == [Cast(Presence(Some(1)), 0, None)]
  {
    StartIsReachable();
    ComesIn(START, b, pass, 1);
    var s1 := Comes(START, b, pass, 1);
    Begins(s1);
    var s2 := Begun(s1);
    assert Peers(s1) == {b};
    s := s2.(room := None);
    Goes(s2, Evicts(b), s);
  }

  function Fresh(pass: Pass, own: Salt, stored: Salt): Member {
    Starts(WithPassphrase(pass, own), Some(Job(pass, own))).(joined := true, joinedIn := 1, saltAtJoin := Some(stored))
  }

  // The second one founds the room anew with salt 2, and is told so
  lemma SecondFounds(b: Id, c: Id, pass: Pass) returns (s: State)
    requires b != c
    ensures Reachable(s) && s.room == Some(Room({c}, Some(2))) && s.salts == [Some(1), Some(2)] && s.owed == 0
    ensures s.members.Keys == {b, c} && |s.casts| == 2 && s.casts[0] == Cast(Presence(Some(1)), 0, None)
    ensures s.members[c] == Received(Handed(Fresh(pass, 2, 2), Presence(Some(2))))
  {
    var s1 := FirstIsGone(b, pass);
    ComesIn(s1, c, pass, 2);
    var s2 := Comes(s1, c, pass, 2);
    assert Peers(s1) + {c} == {c};
    assert s2.members[c] == Fresh(pass, 2, 2);
    Begins(s2);
    var s3 := Begun(s2);
    assert s3.casts == [Cast(Presence(Some(1)), 0, None), Cast(Presence(Some(2)), 1, None)];
    Tells(s3, 1, c);
    s := Told(s3, 1, c);
    assert s.members.Keys == {b, c};
  }

  predicate HasSettledOn(m: Member, pass: Pass, salt: Salt) {
    && Settled(m) && m.own.value.pass == pass && HasFinished(m.client)
    && m.client.key == Some(Derived(pass, salt))
  }

  // The old announcement reads the peers of the new room, and the founder of that takes the old salt for its own
  lemma StaleAnnouncementMisleads(b: Id, c: Id, pass: Pass) returns (s: State)
    requires b != c
    ensures Reachable(s) && IsPeer(s, c) && s.room == Some(Room({c}, Some(2))) && s.salts == [Some(1), Some(2)]
    ensures s.members.Keys == {b, c} && s.owed == 0 && HasSettledOn(s.members[c], pass, 1)
  {
    var s1 := SecondFounds(b, c, pass);
    Tells(s1, 0, c);
    var s2 := Told(s1, 0, c);
    assert s2.members[c].client.jobs == [Job(pass, 1)];
    Ends(s2, c);
    s := Ended(s2, c);
    assert s.members[c].client.jobs == [];
    assert s.members.Keys == {b, c};
  }

  // A later member with the same passphrase gets the room's key, and so another one
  lemma SamePassphraseOtherKey(b: Id, c: Id, d: Id, pass: Pass) returns (s: State)
    requires b != c && c != d && b != d
    ensures Reachable(s) && IsPeer(s, c) && IsPeer(s, d) && s.room.value.salt == Some(2)
    ensures HasSettledOn(s.members[c], pass, 1) && HasSettledOn(s.members[d], pass, 2)
  {
    var s1 := StaleAnnouncementMisleads(b, c, pass);
    ComesIn(s1, d, pass, 3);
    var s2 := Comes(s1, d, pass, 3);
    assert s2.members[d] == Fresh(pass, 3, 2) && s2.members[c] == s1.members[c];
    Begins(s2);
    var s3 := Begun(s2);
    var n := |s2.casts|;
    assert s3.casts[n] == Cast(Presence(Some(2)), 1, None);
    Tells(s3, n, d);
    var s4 := Told(s3, n, d);
    assert s4.members[d].client.jobs == [Job(pass, 2)];
    Ends(s4, d);
    s := Ended(s4, d);
    assert s.members[d].client.jobs == [];
    assert s.members[c] == s1.members[c];
  }
}
