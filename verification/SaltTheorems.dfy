/**
 What the members of a passphrase room agree on. A member holds the room's key exactly when no derivation is
 pending, as long as no stale announcement is handed to it: one that read the salt of an earlier founding of the
 room. That is exactly when some presence it is handed has another salt than the room's.
 */
module SaltTheorems {
  import opened Options
  import opened SaltAgreement

  predicate IsPeer(s: State, id: Id) {
    s.room.Some? && id in s.room.value.peers && id in s.members
  }

  // What a member was told when it joined is still the room's salt
  lemma RoomSaltIsFixed(s: State, id: Id)
    requires Reachable(s) && IsPeer(s, id)
    ensures s.members[id].saltAtJoin == s.room.value.salt
  {
    ReachableInv(s);
  }

  // ---- Stale announcements ----

  // The presence was read under an earlier founding of the room than the member joined, with another salt
  predicate Stale(s: State, cast: Cast, m: Member) {
    && HasSalt(cast)
    && cast.read < m.joinedIn < |s.salts|
    && s.salts[cast.read] != s.salts[m.joinedIn]
  }

  // A stale presence is handed to the member
  predicate Misdirects(s: State, ev: Event, id: Id) {
    Enabled(s, ev) && ev.Hands? && ev.id == id && !ev.dropped && Stale(s, s.casts[ev.n], s.members[id])
  }

  predicate TellsOwn(s: State, id: Id) {
    id in s.members ==> ToldOwn(s.members[id])
  }

  // Nothing but a presence handed to it changes what a member has been told of its room
  lemma OthersTellNothing(s: State, ev: Event, id: Id)
    requires Enabled(s, ev) && !(ev.Hands? && ev.id == id && !ev.dropped) && id in Next(s, ev).members
    requires id in s.members && !s.members[id].joined ==> s.members[id].told == []
    ensures ToldOwn(Next(s, ev).members[id]) <==> TellsOwn(s, id)
  {
  }

  lemma HandsTells(s: State, n: nat, id: Id)
    requires Inv(s) && Enabled(s, Hands(n, id, false))
    ensures TellsOwn(Next(s, Hands(n, id, false)), id) <==> TellsOwn(s, id) && !Misdirects(s, Hands(n, id, false), id)
  {
    var cast, m := s.casts[n], s.members[id];
    assert CastOk(s, cast);
    HandedKeeps(m, cast.msg);
  }

  // A member is told another salt than its room's in a step exactly when a stale presence is handed to it
  lemma TellsOwnExactlyWhen(s: State, ev: Event, id: Id)
    requires Inv(s)
    ensures TellsOwn(Next(s, ev), id) <==> TellsOwn(s, id) && !Misdirects(s, ev, id)
  {
    if Enabled(s, ev) && ev.Hands? && ev.id == id && !ev.dropped {
      HandsTells(s, ev.n, id);
    } else if Enabled(s, ev) && id in Next(s, ev).members {
      if id in s.members { assert MemberInv(s.members[id]); }
      OthersTellNothing(s, ev, id);
    }
  }

  predicate NeverMisdirects(s: State, events: seq<Event>, id: Id)
    decreases |events|
  {
    events == [] || (!Misdirects(s, events[0], id) && NeverMisdirects(Next(s, events[0]), events[1..], id))
  }

  lemma {:induction false} RunTellsOwn(s: State, events: seq<Event>, id: Id)
    requires Inv(s)
    ensures TellsOwn(Run(s, events), id) <==> TellsOwn(s, id) && NeverMisdirects(s, events, id)
    decreases |events|
  {
    if events != [] {
      TellsOwnExactlyWhen(s, events[0], id);
      NextKeepsInv(s, events[0]);
      RunTellsOwn(Next(s, events[0]), events[1..], id);
    }
  }

  // Over any run: all presences handed to a member have its room's salt, if and only if no stale one was
  lemma OwnSaltsExactlyWhen(events: seq<Event>, id: Id)
    ensures TellsOwn(Run(START, events), id) <==> NeverMisdirects(START, events, id)
  {
    RunTellsOwn(START, events, id);
  }

  // ---- Agreement ----

  /**
   Salt agreement. In any run that hands it no stale presence, a member that has handled a presence with a
   salt, and has not left, holds the key derived from the room's stored salt exactly when no derivation is
   pending.
   */
  lemma HoldsRoomKeyUnlessPending(events: seq<Event>, id: Id)
    requires IsPeer(Run(START, events), id) && NeverMisdirects(START, events, id)
    requires var m := Run(START, events).members[id]; m.own.Some? && m.seen && !m.left
    ensures var s := Run(START, events);
            var m := s.members[id];
            && s.room.value.salt.Some?
            && (m.client.key == Some(Derived(m.own.value.pass, s.room.value.salt.value)) <==> !m.client.pending)
  {
    OwnSaltsExactlyWhen(events, id);
    RunKeepsInv(START, events);
    assert MemberInv(Run(START, events).members[id]);
  }

  predicate Settled(m: Member) {
    m.own.Some? && m.seen && !m.left && !m.client.pending
  }

  // Two such members share a key if and only if they have the same passphrase
  lemma SamePassphraseSameKey(events: seq<Event>, a: Id, b: Id)
    requires NeverMisdirects(START, events, a) && NeverMisdirects(START, events, b)
    requires IsPeer(Run(START, events), a) && IsPeer(Run(START, events), b)
    requires Settled(Run(START, events).members[a]) && Settled(Run(START, events).members[b])
    ensures var ms := Run(START, events).members;
            ms[a].client.key == ms[b].client.key <==> ms[a].own.value.pass == ms[b].own.value.pass
  {
    HoldsRoomKeyUnlessPending(events, a);
    HoldsRoomKeyUnlessPending(events, b);
  }

  // No chat is ever lost or put out of order by the wait for a key
  lemma ChatsKeepTheirOrder(s: State, id: Id)
    requires Reachable(s) && id in s.members
    ensures var c := s.members[id].client; Chats(c.done) + c.queue == c.received
  {
    ReachableInv(s);
    assert MemberInv(s.members[id]);
  }

  // And without stale presences none that comes after the first presence with a salt is handled under
  // another key than the room's
  lemma ChatsWaitForTheKey(events: seq<Event>, id: Id)
    requires NeverMisdirects(START, events, id) && id in Run(START, events).members
    requires var m := Run(START, events).members[id]; m.own.Some? && m.seen && !m.left
    ensures var m := Run(START, events).members[id];
            && m.saltAtJoin.Some? && m.stale <= |m.client.done|
            && forall k | m.stale <= k < |m.client.done| ::
                 m.client.done[k].key == Some(Derived(m.own.value.pass, m.saltAtJoin.value))
  {
    OwnSaltsExactlyWhen(events, id);
    RunKeepsInv(START, events);
    assert MemberInv(Run(START, events).members[id]);
  }

  // ---- Whatever is announced ----

  // A member holds the room's key if and only if the derivation that ended last was for the room's salt, or, with
  // none ended, its own salt is the room's
  lemma HoldsRoomKeyExactlyWhen(s: State, id: Id)
    requires Reachable(s) && IsPeer(s, id) && s.room.value.salt.Some?
    requires s.members[id].own.Some? && !s.members[id].left
    ensures var m := s.members[id];
            m.client.key == Some(Derived(m.own.value.pass, s.room.value.salt.value)) <==>
            LastSalt(m) == s.room.value.salt.value
  {
    ReachableInv(s);
    assert MemberInv(s.members[id]);
  }

  // No passphrase to derive from, and no derivation under way
  predicate HasFinished(c: Client) {
    c.pass.None? && c.jobs == []
  }

  predicate NeverForgets(events: seq<Event>, id: Id) {
    forall k | 0 <= k < |events| :: events[k] != Forgets(id)
  }

  lemma FinishedStays(s: State, ev: Event, id: Id)
    requires id in s.members && HasFinished(s.members[id].client) && ev != Forgets(id)
    ensures id in Next(s, ev).members && HasFinished(Next(s, ev).members[id].client)
    ensures Next(s, ev).members[id].client.key == s.members[id].client.key
  {
  }

  // Such a member keeps its key for good, right or wrong: no later announcement repairs it
  lemma {:induction false} KeyIsFinal(s: State, events: seq<Event>, id: Id)
    requires id in s.members && HasFinished(s.members[id].client) && NeverForgets(events, id)
    ensures id in Run(s, events).members
    ensures Run(s, events).members[id].client.key == s.members[id].client.key
    decreases |events|
  {
    if events != [] {
      FinishedStays(s, events[0], id);
      assert NeverForgets(events[1..], id);
      KeyIsFinal(Next(s, events[0]), events[1..], id);
    }
  }

  // ---- Quiet foundings ----

  // A join founds the room while no announcement of another salt has yet to read its peers
  predicate FoundsQuietly(s: State, ev: Event) {
    Enabled(s, ev) && ev.Joins? && s.room.None? ==>
      forall n | 0 <= n < |s.casts| && HasSalt(s.casts[n]) && s.casts[n].to.None? ::
        s.casts[n].msg.salt == SaltFor(s, s.members[ev.id])
  }

  predicate AllFoundQuietly(s: State, events: seq<Event>)
    decreases |events|
  {
    events == [] || (FoundsQuietly(s, events[0]) && AllFoundQuietly(Next(s, events[0]), events[1..]))
  }

  // Announcements under way have the salt of whoever they go to, or may yet go to
  predicate OnCourse(s: State, cast: Cast) {
    HasSalt(cast) ==>
      if cast.to.None? then s.room.Some? ==> cast.msg.salt == s.room.value.salt
      else forall id | id in cast.to.value && id in s.members :: s.members[id].saltAtJoin == cast.msg.salt
  }

  ghost predicate AllOnCourse(s: State) {
    forall n | 0 <= n < |s.casts| :: OnCourse(s, s.casts[n])
  }

  lemma OldStaysOnCourse(s: State, ev: Event, cast: Cast)
    requires CastOk(s, cast) && OnCourse(s, cast) && Enabled(s, ev)
    requires ev.Joins? && s.room.None? && HasSalt(cast) && cast.to.None? ==>
             cast.msg.salt == SaltFor(s, s.members[ev.id])
    ensures OnCourse(Next(s, ev), cast)
  {
    if HasSalt(cast) && cast.to.Some? {
      forall id | id in cast.to.value && id in Next(s, ev).members
        ensures Next(s, ev).members[id].saltAtJoin == cast.msg.salt
      {
        JoinedStays(s, ev, id);
      }
    }
  }

  // A broadcast that begins, reads its peers, or has come to one of them
  lemma CastAfterOnCourse(s: State, ev: Event, n: nat)
    requires Inv(s) && AllOnCourse(s) && Enabled(s, ev) && n < |CastsAfter(s, ev)|
    ensures OnCourse(s, CastsAfter(s, ev)[n])
  {
    if n < |s.casts| { assert CastOk(s, s.casts[n]) && OnCourse(s, s.casts[n]); }
  }

  lemma StaysOnCourse(s: State, ev: Event, n: nat)
    requires Inv(s) && AllOnCourse(s) && Enabled(s, ev) && FoundsQuietly(s, ev) && n < |CastsAfter(s, ev)|
    ensures OnCourse(Next(s, ev), CastsAfter(s, ev)[n])
  {
    CastAfterOk(s, ev, n);
    CastAfterOnCourse(s, ev, n);
    OldStaysOnCourse(s, ev, CastsAfter(s, ev)[n]);
  }

  lemma OnCourseIsNotStale(s: State, ev: Event, id: Id)
    requires Inv(s) && AllOnCourse(s)
    ensures !Misdirects(s, ev, id)
  {
    if Enabled(s, ev) && ev.Hands? { assert CastOk(s, s.casts[ev.n]) && OnCourse(s, s.casts[ev.n]); }
  }

  lemma {:induction false} RunStaysOnCourse(s: State, events: seq<Event>, id: Id)
    requires Inv(s) && AllOnCourse(s) && AllFoundQuietly(s, events)
    ensures NeverMisdirects(s, events, id)
    decreases |events|
  {
    if events != [] {
      var s' := Next(s, events[0]);
      OnCourseIsNotStale(s, events[0], id);
      NextKeepsInv(s, events[0]);
      if Enabled(s, events[0]) {
        forall n | 0 <= n < |s'.casts| ensures OnCourse(s', s'.casts[n]) { StaysOnCourse(s, events[0], n); }
      }
      RunStaysOnCourse(s', events[1..], id);
    }
  }

  // If every founding of the room is quiet, nobody is ever handed a stale presence
  lemma QuietFoundingsSuffice(events: seq<Event>, id: Id)
    requires AllFoundQuietly(START, events)
    ensures NeverMisdirects(START, events, id)
  {
    RunStaysOnCourse(START, events, id);
  }
}
