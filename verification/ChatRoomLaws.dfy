/** Delivery in every interleaving of posts, subscriptions, cancellations and receives. */
module ChatRoomLaws {
  import opened Wrappers
  import opened ChatRoom

  lemma {:induction false} InitInv()
    ensures Inv(INIT)
  {
  }

  // --- Actions that leave the log and the channels alone ---

  /** A new room has no observers. */
  lemma {:induction false} NewRoomIsEmpty(s: State, room: string, roomId: nat)
    requires RoomsOk(s)
    ensures ObserversOf(GetOrCreate(s, room), roomId) == ObserversOf(s, roomId)
  {
  }

  /** Names keep their rooms, and a new room is a room of no other name. */
  lemma {:induction false} NewRoomIsNew(s: State, room: string)
    requires RoomsOk(s) && room !in s.rooms
    ensures RoomsOk(GetOrCreate(s, room))
  {
    var t := GetOrCreate(s, room);
    forall a, b | a in t.rooms && b in t.rooms && t.rooms[a] == t.rooms[b] ensures a == b {
      assert a != room ==> s.rooms[a] < s.nextRoom;
      assert b != room ==> s.rooms[b] < s.nextRoom;
    }
  }

  lemma {:induction false} GetOrCreateEffect(s: State, room: string)
    requires RoomsOk(s)
    ensures var t := GetOrCreate(s, room);
            && RoomsOk(t) && room in t.rooms && t.rooms[room] < t.nextRoom
            && (forall name :: name in s.rooms ==> name in t.rooms && t.rooms[name] == s.rooms[name])
            && (forall roomId: nat :: ObserversOf(t, roomId) == ObserversOf(s, roomId))
  {
    if room !in s.rooms {
      NewRoomIsNew(s, room);
    }
    forall roomId: nat ensures ObserversOf(GetOrCreate(s, room), roomId) == ObserversOf(s, roomId) {
      NewRoomIsEmpty(s, room, roomId);
    }
  }

  /** The parts of the invariant that do not see rooms as such depend on these only. */
  ghost predicate Alike(s: State, t: State) {
    && t.lock == s.lock && t.log == s.log && t.posts == s.posts && t.subscriptions == s.subscriptions
    && t.channels == s.channels
    && (forall roomId: nat :: ObserversOf(t, roomId) == ObserversOf(s, roomId))
  }

  lemma {:induction false} AlikeInv(s: State, t: State)
    requires Inv(s) && Alike(s, t) && RoomsOk(t)
    ensures Inv(t)
  {
    forall o: nat ensures ChannelOk(t, o) && FreshOk(t, o) {
      assert ChannelOk(s, o) && FreshOk(s, o);
    }
  }

  lemma {:induction false} GetOrCreateInv(s: State, room: string)
    requires Inv(s)
    ensures Inv(GetOrCreate(s, room)) && room in GetOrCreate(s, room).rooms
    ensures GetOrCreate(s, room).rooms[room] < GetOrCreate(s, room).nextRoom
    ensures forall name :: name in s.rooms ==> name in GetOrCreate(s, room).rooms
                                               && GetOrCreate(s, room).rooms[name] == s.rooms[name]
  {
    GetOrCreateEffect(s, room);
    AlikeInv(s, GetOrCreate(s, room));
  }

  lemma {:induction false} StartPostInv(s: State, post: nat, room: string, message: Message)
    requires Inv(s) && post !in s.posts
    ensures Inv(s.(posts := s.posts[post := Looking(room, message)]))
  {
    var t := s.(posts := s.posts[post := Looking(room, message)]);
    forall o: nat ensures ChannelOk(t, o) && FreshOk(t, o) {
      assert ChannelOk(s, o) && FreshOk(s, o);
    }
    assert forall roomId: nat :: ObserversOf(t, roomId) == ObserversOf(s, roomId);
  }

  lemma {:induction false} ReadyInv(s: State, post: nat, roomId: nat, message: Message)
    requires Inv(s) && post in s.posts && s.posts[post].Looking? && s.lock == None && roomId < s.nextRoom
    ensures Inv(s.(posts := s.posts[post := Ready(roomId, message)]))
  {
    var t := s.(posts := s.posts[post := Ready(roomId, message)]);
    forall o: nat ensures ChannelOk(t, o) && FreshOk(t, o) {
      assert ChannelOk(s, o) && FreshOk(s, o);
    }
    assert forall roomId: nat :: ObserversOf(t, roomId) == ObserversOf(s, roomId);
  }

  lemma {:induction false} StartSubscriptionInv(s: State, observer: nat, sub: Subscription)
    requires Inv(s) && observer !in s.subscriptions && sub.phase == Starting
    ensures Inv(s.(subscriptions := s.subscriptions[observer := sub]))
  {
    var t := s.(subscriptions := s.subscriptions[observer := sub]);
    forall o: nat ensures ChannelOk(t, o) && FreshOk(t, o) {
      assert ChannelOk(s, o) && FreshOk(s, o);
    }
    assert forall roomId: nat :: ObserversOf(t, roomId) == ObserversOf(s, roomId);
  }

  lemma {:induction false} FoundInv(s: State, observer: nat)
    requires Inv(s) && observer in s.subscriptions && s.subscriptions[observer].phase == Starting && s.lock == None
    requires s.subscriptions[observer].room in s.rooms
    ensures var sub := s.subscriptions[observer];
            Inv(s.(subscriptions := s.subscriptions[observer := sub.(roomId := s.rooms[sub.room], phase := Found)],
                   channels := s.channels[observer := Channel([], [])]))
  {
    var sub := s.subscriptions[observer];
    var t := s.(subscriptions := s.subscriptions[observer := sub.(roomId := s.rooms[sub.room], phase := Found)],
                channels := s.channels[observer := Channel([], [])]);
    forall o: nat ensures ChannelOk(t, o) && FreshOk(t, o) {
      assert ChannelOk(s, o) && FreshOk(s, o);
    }
    assert forall roomId: nat :: ObserversOf(t, roomId) == ObserversOf(s, roomId);
  }

  // --- Actions under the lock ---

  /** Adding or deleting one's own observer: the event to log, and the room's observers after it. */
  ghost predicate Enrols(s: State, t: State, observer: nat, e: Event) {
    && observer in s.subscriptions && s.subscriptions[observer].phase != Starting && s.lock == None
    && var sub := s.subscriptions[observer];
       && t.log == s.log + [e] && t.lock == s.lock && t.posts == s.posts && t.channels == s.channels
       && t.rooms == s.rooms && t.nextRoom == s.nextRoom
       && ((e == Register(sub.roomId, observer, sub.username)
            && t.observers == s.observers[sub.roomId := ObserversOf(s, sub.roomId)[observer := sub.username]]
            && t.subscriptions == s.subscriptions[observer := sub.(phase := Registered)])
           || (e == Remove(sub.roomId, observer)
               && t.observers == s.observers[sub.roomId := ObserversOf(s, sub.roomId) - {observer}]
               && t.subscriptions == s.subscriptions[observer := sub.(removed := true)]))
  }

  lemma {:induction false} EnrolsOne(s: State, t: State, observer: nat, e: Event, roomId: nat, o: nat)
    requires Enrols(s, t, observer, e)
    ensures var sub := s.subscriptions[observer];
            && Due(t.log, roomId, o) == Due(s.log, roomId, o)
            && (if roomId == sub.roomId && o == observer then
                  (e.Register? ==> RegisteredAs(t.log, roomId, o) == Some(sub.username)
                                   && o in ObserversOf(t, roomId) && ObserversOf(t, roomId)[o] == sub.username)
                  && (e.Remove? ==> RegisteredAs(t.log, roomId, o) == None && o !in ObserversOf(t, roomId))
                else
                  RegisteredAs(t.log, roomId, o) == RegisteredAs(s.log, roomId, o)
                  && (o in ObserversOf(t, roomId) <==> o in ObserversOf(s, roomId))
                  && (o in ObserversOf(t, roomId) ==> ObserversOf(t, roomId)[o] == ObserversOf(s, roomId)[o]))
  {
    OneEventMore(s.log, e, roomId, o);
  }

  lemma {:induction false} EnrolsRooms(s: State, t: State, observer: nat, e: Event)
    requires Inv(s) && Enrols(s, t, observer, e)
    ensures RoomsOk(t) && LockOk(t)
  {
    assert s.subscriptions[observer].roomId < s.nextRoom;
  }

  lemma {:induction false} EnrolsObservers(s: State, t: State, observer: nat, e: Event)
    requires Inv(s) && Enrols(s, t, observer, e)
    ensures ObserversOk(t)
  {
    forall roomId: nat, o: nat
      ensures RegisteredAs(t.log, roomId, o) ==
                if o in ObserversOf(t, roomId) then Some(ObserversOf(t, roomId)[o]) else None
      ensures o in ObserversOf(t, roomId) ==>
                o in t.subscriptions && t.subscriptions[o].phase == Registered && t.subscriptions[o].roomId == roomId
    {
      EnrolsOne(s, t, observer, e, roomId, o);
    }
  }

  lemma {:induction false} EnrolsInv(s: State, t: State, observer: nat, e: Event)
    requires Inv(s) && Enrols(s, t, observer, e)
    ensures Inv(t)
  {
    EnrolsRooms(s, t, observer, e);
    EnrolsObservers(s, t, observer, e);
    forall o: nat ensures ChannelOk(t, o) {
      assert ChannelOk(s, o);
      if o in s.subscriptions {
        EnrolsOne(s, t, observer, e, s.subscriptions[o].roomId, o);
      }
    }
    forall o: nat ensures FreshOk(t, o) {
      assert FreshOk(s, o);
      forall roomId: nat ensures Due(t.log, roomId, o) == Due(s.log, roomId, o) {
        EnrolsOne(s, t, observer, e, roomId, o);
      }
    }
  }

  lemma {:induction false} AddObserverInv(s: State, observer: nat)
    requires Inv(s) && Step(s, AddObserver(observer)).Some?
    ensures Inv(Step(s, AddObserver(observer)).value)
  {
    var sub := s.subscriptions[observer];
    EnrolsInv(s, Step(s, AddObserver(observer)).value, observer, Register(sub.roomId, observer, sub.username));
  }

  lemma {:induction false} DeleteObserverInv(s: State, observer: nat)
    requires Inv(s) && Step(s, DeleteObserver(observer)).Some?
    ensures Inv(Step(s, DeleteObserver(observer)).value)
  {
    EnrolsInv(s, Step(s, DeleteObserver(observer)).value, observer, Remove(s.subscriptions[observer].roomId, observer));
  }

  lemma {:induction false} BroadcastOne(s: State, post: nat, r: nat, o: nat)
    requires ObserversOk(s) && Step(s, LockForPost(post)).Some?
    ensures var t := Step(s, LockForPost(post)).value;
            var roomId, message := s.posts[post].roomId, s.posts[post].message;
            var observers := ObserversOf(s, roomId);
            && ObserversOf(t, r) == ObserversOf(s, r) && RegisteredAs(t.log, r, o) == RegisteredAs(s.log, r, o)
            && Due(t.log, r, o) == (if r == roomId && o in observers && Wants(observers[o], message)
                                    then Due(s.log, r, o) + [message] else Due(s.log, r, o))
            && Coming(t, o) == (if o in observers && Wants(observers[o], message) then [message] else [])
  {
    OneEventMore(s.log, Broadcast(s.posts[post].roomId, s.posts[post].message), r, o);
  }

  lemma {:induction false} LockForPostInv(s: State, post: nat)
    requires Inv(s) && Step(s, LockForPost(post)).Some?
    ensures Inv(Step(s, LockForPost(post)).value)
  {
    var t := Step(s, LockForPost(post)).value;
    forall r: nat, o: nat
      ensures ObserversOf(t, r) == ObserversOf(s, r) && RegisteredAs(t.log, r, o) == RegisteredAs(s.log, r, o)
    {
      BroadcastOne(s, post, r, o);
    }
    assert RoomsOk(t) && LockOk(t) && ObserversOk(t);
    forall o: nat ensures ChannelOk(t, o) && FreshOk(t, o) {
      BroadcastReaches(s, post, o);
    }
  }

  lemma {:induction false} BroadcastReaches(s: State, post: nat, o: nat)
    requires Inv(s) && Step(s, LockForPost(post)).Some?
    ensures ChannelOk(Step(s, LockForPost(post)).value, o) && FreshOk(Step(s, LockForPost(post)).value, o)
  {
    var t := Step(s, LockForPost(post)).value;
    assert ChannelOk(s, o) && FreshOk(s, o);
    if o in s.subscriptions && s.subscriptions[o].phase != Starting {
      BroadcastOne(s, post, s.subscriptions[o].roomId, o);
      assert Coming(s, o) == [] && Sent(s.channels[o]) + [] == Sent(s.channels[o]);
    }
    forall r: nat ensures o !in ObserversOf(s, s.posts[post].roomId) ==> Due(t.log, r, o) == Due(s.log, r, o) {
      BroadcastOne(s, post, r, o);
    }
  }

  lemma {:induction false} SendInv(s: State, post: nat, observer: nat)
    requires Inv(s) && Step(s, Send(post, observer)).Some?
    ensures Inv(Step(s, Send(post, observer)).value)
  {
    var t := Step(s, Send(post, observer)).value;
    var m := s.posts[post].message;
    assert forall roomId: nat :: ObserversOf(t, roomId) == ObserversOf(s, roomId);
    forall o: nat ensures ChannelOk(t, o) && FreshOk(t, o) {
      assert ChannelOk(s, o) && FreshOk(s, o);
      if o == observer {
        var c := s.channels[o];
        assert c.received + (c.buffer + [m]) == (c.received + c.buffer) + [m];
        assert Coming(s, o) == [m] && Coming(t, o) == [];
        assert Sent(t.channels[o]) + [] == Sent(t.channels[o]);
      } else {
        assert Coming(s, o) == Coming(t, o);
      }
    }
  }

  lemma {:induction false} UnlockPostInv(s: State, post: nat)
    requires Inv(s) && Step(s, UnlockPost(post)).Some?
    ensures Inv(Step(s, UnlockPost(post)).value)
  {
    var t := Step(s, UnlockPost(post)).value;
    assert forall roomId: nat :: ObserversOf(t, roomId) == ObserversOf(s, roomId);
    forall o: nat ensures ChannelOk(t, o) && FreshOk(t, o) {
      assert ChannelOk(s, o) && FreshOk(s, o);
      assert Coming(s, o) == Coming(t, o) == [];
    }
  }

  lemma {:induction false} ReceiveInv(s: State, observer: nat)
    requires Inv(s) && Step(s, Receive(observer)).Some?
    ensures Inv(Step(s, Receive(observer)).value)
  {
    var t := Step(s, Receive(observer)).value;
    assert forall roomId: nat :: ObserversOf(t, roomId) == ObserversOf(s, roomId);
    forall o: nat ensures ChannelOk(t, o) && FreshOk(t, o) {
      assert ChannelOk(s, o) && FreshOk(s, o);
      if o == observer {
        var c := s.channels[o];
        assert c.buffer == [c.buffer[0]] + c.buffer[1..];
        assert (c.received + [c.buffer[0]]) + c.buffer[1..] == c.received + c.buffer;
      }
      assert Coming(s, o) == Coming(t, o);
    }
  }

  /** Every step keeps the invariant, and every room object. */
  lemma {:induction false} StepInv(s: State, a: Action)
    requires Inv(s) && Step(s, a).Some?
    ensures var t := Step(s, a).value;
            Inv(t) && forall name :: name in s.rooms ==> name in t.rooms && t.rooms[name] == s.rooms[name]
  {
    match a
    case StartPost(post, room, message) => StartPostInv(s, post, room, message);
    case FindRoomForPost(post) =>
      GetOrCreateInv(s, s.posts[post].room);
      var t := GetOrCreate(s, s.posts[post].room);
      ReadyInv(t, post, t.rooms[s.posts[post].room], s.posts[post].message);
    case LockForPost(post) => LockForPostInv(s, post);
    case Send(post, observer) => SendInv(s, post, observer);
    case UnlockPost(post) => UnlockPostInv(s, post);
    case StartSubscription(observer, room, username) =>
      StartSubscriptionInv(s, observer, Subscription(room, 0, username, Starting, false));
    case FindRoomForSubscription(observer) =>
      GetOrCreateInv(s, s.subscriptions[observer].room);
      FoundInv(GetOrCreate(s, s.subscriptions[observer].room), observer);
    case AddObserver(observer) => AddObserverInv(s, observer);
    case DeleteObserver(observer) => DeleteObserverInv(s, observer);
    case Receive(observer) => ReceiveInv(s, observer);
    case QueryRoom(room) => GetOrCreateInv(s, room);
  }

  lemma {:induction false} RunInv(s: State, actions: seq<Action>)
    requires Inv(s) && Run(s, actions).Some?
    ensures var t := Run(s, actions).value;
            Inv(t) && forall name :: name in s.rooms ==> name in t.rooms && t.rooms[name] == s.rooms[name]
    decreases |actions|
  {
    if actions != [] {
      StepInv(s, actions[0]);
      RunInv(Step(s, actions[0]).value, actions[1..]);
    }
  }

  /** In every interleaving, a room object once created for a name stays the room of that name,
      and of no other. */
  lemma {:induction false} RoomsAreNeverReplaced(before: seq<Action>, after: seq<Action>)
    requires Run(INIT, before).Some? && Run(Run(INIT, before).value, after).Some?
    ensures var s := Run(INIT, before).value;
            var t := Run(s, after).value;
            && (forall name :: name in s.rooms ==> name in t.rooms && t.rooms[name] == s.rooms[name])
            && (forall a, b :: a in t.rooms && b in t.rooms && t.rooms[a] == t.rooms[b] ==> a == b)
  {
    InitInv();
    RunInv(INIT, before);
    RunInv(Run(INIT, before).value, after);
  }

  /** In every interleaving, what an observer has been sent is, in the order of the lock, exactly
      the wanted messages broadcast in its room while it was registered; a broadcast still under
      way may have one message left to send. */
  lemma {:induction false} ObserversGetWhatIsDue(actions: seq<Action>, observer: nat)
    requires Run(INIT, actions).Some?
    ensures var s := Run(INIT, actions).value;
            observer in s.subscriptions && s.subscriptions[observer].phase != Starting ==>
              && observer in s.channels
              && var due := Due(s.log, s.subscriptions[observer].roomId, observer);
                 && Sent(s.channels[observer]) <= due
                 && |due| <= |Sent(s.channels[observer])| + 1
                 && (s.lock == None ==> Sent(s.channels[observer]) == due)
  {
    InitInv();
    RunInv(INIT, actions);
    assert ChannelOk(Run(INIT, actions).value, observer);
  }

  /** No message is due twice, if posted messages are distinct. */
  lemma {:induction false} DueOnce(log: seq<Event>, roomId: nat, observer: nat)
    requires forall i, j :: 0 <= i < j < |log| && log[i].Broadcast? && log[j].Broadcast? ==>
               log[i].message != log[j].message
    ensures forall i, j :: 0 <= i < j < |Due(log, roomId, observer)| ==>
              Due(log, roomId, observer)[i] != Due(log, roomId, observer)[j]
    ensures forall m :: m in Due(log, roomId, observer) ==>
              exists i :: 0 <= i < |log| && log[i].Broadcast? && log[i].message == m
    decreases |log|
  {
    if log != [] {
      var n := |log| - 1;
      DueOnce(log[..n], roomId, observer);
      forall m | m in Due(log[..n], roomId, observer)
        ensures exists i :: 0 <= i < n && log[i].Broadcast? && log[i].message == m
      {
        var i :| 0 <= i < n && log[..n][i].Broadcast? && log[..n][i].message == m;
        assert log[i].Broadcast? && log[i].message == m;
      }
      if log[n].Broadcast? {
        assert log[n].message !in Due(log[..n], roomId, observer);
      }
    }
  }

  // --- Cancelling too early ---

  /** Registered, although the goroutine that is to remove the observer has come and gone. */
  predicate Leaked(s: State, observer: nat) {
    && observer in s.subscriptions && s.subscriptions[observer].phase == Registered
    && s.subscriptions[observer].removed
    && observer in ObserversOf(s, s.subscriptions[observer].roomId)
  }

  /** The same observers in the room of an observer that has registered, and the same about itself. */
  ghost predicate SameStanding(s: State, t: State, observer: nat) {
    && observer in s.subscriptions && observer in t.subscriptions
    && t.subscriptions[observer] == s.subscriptions[observer]
    && var r := s.subscriptions[observer].roomId;
       observer in ObserversOf(t, r) <==> observer in ObserversOf(s, r)
  }

  lemma {:induction false} FindingKeepsStanding(s: State, a: Action, observer: nat)
    requires Inv(s) && Step(s, a).Some? && (a.FindRoomForPost? || a.FindRoomForSubscription? || a.QueryRoom?)
    requires observer in s.subscriptions && s.subscriptions[observer].phase == Registered
    ensures SameStanding(s, Step(s, a).value, observer)
  {
    var r := s.subscriptions[observer].roomId;
    match a
    case FindRoomForPost(post) => NewRoomIsEmpty(s, s.posts[post].room, r);
    case FindRoomForSubscription(o) => NewRoomIsEmpty(s, s.subscriptions[o].room, r);
    case QueryRoom(room) => NewRoomIsEmpty(s, room, r);
  }

  lemma {:induction false} OthersKeepStanding(s: State, a: Action, observer: nat)
    requires Inv(s) && Step(s, a).Some? && !(a.FindRoomForPost? || a.FindRoomForSubscription? || a.QueryRoom?)
    requires observer in s.subscriptions && s.subscriptions[observer].phase == Registered &&
             a != DeleteObserver(observer)
    ensures SameStanding(s, Step(s, a).value, observer)
  {
  }

  /** Once registered, an observer that has leaked stays leaked, and no other one leaks. */
  lemma {:induction false} StepKeepsLeak(s: State, a: Action, observer: nat)
    requires Inv(s) && Step(s, a).Some?
    requires observer in s.subscriptions && s.subscriptions[observer].phase == Registered
    ensures var t := Step(s, a).value;
            && observer in t.subscriptions && t.subscriptions[observer].phase == Registered
            && (Leaked(t, observer) <==> Leaked(s, observer))
  {
    if a.FindRoomForPost? || a.FindRoomForSubscription? || a.QueryRoom? {
      FindingKeepsStanding(s, a, observer);
    } else if a != DeleteObserver(observer) {
      OthersKeepStanding(s, a, observer);
    }
  }

  lemma {:induction false} LeakStays(s: State, observer: nat, actions: seq<Action>)
    requires Inv(s) && Run(s, actions).Some?
    requires observer in s.subscriptions && s.subscriptions[observer].phase == Registered
    ensures Leaked(Run(s, actions).value, observer) <==> Leaked(s, observer)
    decreases |actions|
  {
    if actions != [] {
      StepInv(s, actions[0]);
      StepKeepsLeak(s, actions[0], observer);
      LeakStays(Step(s, actions[0]).value, observer, actions[1..]);
    }
  }

  /** A subscription stays registered for good after its context has ended, whatever happens then,
      exactly if the context's end was dealt with before the observer was added. */
  lemma {:induction false} LeaksExactlyIfCancelledEarly(before: seq<Action>, observer: nat, after: seq<Action>)
    requires Run(INIT, before).Some?
    requires var s := Run(INIT, before).value;
             Step(s, AddObserver(observer)).Some? && Run(Step(s, AddObserver(observer)).value, after).Some?
    ensures var s := Run(INIT, before).value;
            observer in s.subscriptions
            && (Leaked(Run(Step(s, AddObserver(observer)).value, after).value, observer)
                <==> s.subscriptions[observer].removed)
  {
    var s := Run(INIT, before).value;
    InitInv();
    RunInv(INIT, before);
    AddObserverInv(s, observer);
    LeakStays(Step(s, AddObserver(observer)).value, observer, after);
  }

  /** It does happen. */
  lemma {:induction false} AnEarlyCancellation()
    ensures var actions := [StartSubscription(0, "room", ""), FindRoomForSubscription(0), DeleteObserver(0),
                            AddObserver(0)];
            Run(INIT, actions).Some? && Leaked(Run(INIT, actions).value, 0)
  {
    var a, b, c, d := StartSubscription(0, "room", ""), FindRoomForSubscription(0), DeleteObserver(0), AddObserver(0);
    var s1 := Step(INIT, a).value;
    var s2 := Step(s1, b).value;
    var s3 := Step(s2, c).value;
    var s4 := Step(s3, d).value;
    assert Run(s4, []) == Some(s4);
    assert Run(s3, [d]) == Some(s4) by { assert [d][1..] == []; }
    assert Run(s2, [c, d]) == Some(s4) by { assert [c, d][1..] == [d]; }
    assert Run(s1, [b, c, d]) == Some(s4) by { assert [b, c, d][1..] == [c, d]; }
    assert [a, b, c, d][1..] == [b, c, d];
  }
}
