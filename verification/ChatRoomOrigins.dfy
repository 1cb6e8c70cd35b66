/** Where messages come from and whom they are due to, said of what was asked for and of what happened
    under the lock. */
module ChatRoomOrigins {
  import opened Wrappers
  import opened ChatRoom
  import opened ChatRoomLaws

  // --- Where messages come from ---

  /** It was asked for that the message be posted in the room of that object. */
  ghost predicate Asked(done: seq<Action>, s: State, post: nat, roomId: nat, message: Message) {
    exists room :: StartPost(post, room, message) in done && room in s.rooms && s.rooms[room] == roomId
  }

  ghost predicate Broadcasted(done: seq<Action>, s: State, roomId: nat, message: Message) {
    exists post :: Asked(done, s, post, roomId, message)
  }

  ghost predicate PostOrigin(done: seq<Action>, s: State, id: nat, post: Post) {
    match post
    case Looking(room, message) => StartPost(id, room, message) in done
    case Ready(roomId, message) => Asked(done, s, id, roomId, message)
    case Sending(roomId, message, _) => Asked(done, s, id, roomId, message)
    case Over => true
  }

  ghost predicate SubscriptionOrigin(done: seq<Action>, s: State, id: nat, sub: Subscription) {
    && StartSubscription(id, sub.room, sub.username) in done
    && (sub.phase != Starting ==> sub.room in s.rooms && s.rooms[sub.room] == sub.roomId)
  }

  /** It was asked for that the observer subscribe, by that name, to the room of that object. */
  ghost predicate Subscribed(done: seq<Action>, s: State, roomId: nat, observer: nat, username: string) {
    exists room :: StartSubscription(observer, room, username) in done && room in s.rooms && s.rooms[room] == roomId
  }

  ghost predicate EventOrigin(done: seq<Action>, s: State, e: Event) {
    match e
    case Broadcast(roomId, message) => Broadcasted(done, s, roomId, message)
    case Register(roomId, observer, username) => Subscribed(done, s, roomId, observer, username)
    case Remove(roomId, observer) => exists username :: Subscribed(done, s, roomId, observer, username)
  }

  /** What the posts, the subscriptions and the log hold is what was asked for. */
  ghost predicate Origins(done: seq<Action>, s: State) {
    && (forall p :: p in s.posts ==> PostOrigin(done, s, p, s.posts[p]))
    && (forall o :: o in s.subscriptions ==> SubscriptionOrigin(done, s, o, s.subscriptions[o]))
    && (forall i :: 0 <= i < |s.log| ==> EventOrigin(done, s, s.log[i]))
  }

  /** More has been done, and no room has been replaced. */
  ghost predicate Grows(done: seq<Action>, s: State, done': seq<Action>, t: State) {
    done <= done' && forall name :: name in s.rooms ==> name in t.rooms && t.rooms[name] == s.rooms[name]
  }

  lemma {:induction false} AskedStays(done: seq<Action>, s: State, done': seq<Action>, t: State,
                                      post: nat, roomId: nat, message: Message)
    requires Grows(done, s, done', t) && Asked(done, s, post, roomId, message)
    ensures Asked(done', t, post, roomId, message)
  {
  }

  lemma {:induction false} SubscribedStays(done: seq<Action>, s: State, done': seq<Action>, t: State,
                                           roomId: nat, observer: nat, username: string)
    requires Grows(done, s, done', t) && Subscribed(done, s, roomId, observer, username)
    ensures Subscribed(done', t, roomId, observer, username)
  {
  }

  lemma {:induction false} PostOriginStays(done: seq<Action>, s: State, done': seq<Action>, t: State, id: nat, p: Post)
    requires Grows(done, s, done', t) && PostOrigin(done, s, id, p)
    ensures PostOrigin(done', t, id, p)
  {
    match p
    case Ready(roomId, message) => AskedStays(done, s, done', t, id, roomId, message);
    case Sending(roomId, message, _) => AskedStays(done, s, done', t, id, roomId, message);
    case _ =>
  }

  lemma {:induction false} EventOriginStays(done: seq<Action>, s: State, done': seq<Action>, t: State, e: Event)
    requires Grows(done, s, done', t) && EventOrigin(done, s, e)
    ensures EventOrigin(done', t, e)
  {
    match e
    case Broadcast(roomId, message) =>
      var post :| Asked(done, s, post, roomId, message);
      AskedStays(done, s, done', t, post, roomId, message);
    case Register(roomId, observer, username) => SubscribedStays(done, s, done', t, roomId, observer, username);
    case Remove(roomId, observer) =>
      var username :| Subscribed(done, s, roomId, observer, username);
      SubscribedStays(done, s, done', t, roomId, observer, username);
  }

  /** What is there already keeps its origin. */
  lemma {:induction false} OriginsStay(done: seq<Action>, s: State, done': seq<Action>, t: State)
    requires Origins(done, s) && Grows(done, s, done', t)
    ensures forall p :: p in s.posts ==> PostOrigin(done', t, p, s.posts[p])
    ensures forall o :: o in s.subscriptions ==> SubscriptionOrigin(done', t, o, s.subscriptions[o])
    ensures forall i :: 0 <= i < |s.log| ==> EventOrigin(done', t, s.log[i])
  {
    forall p | p in s.posts ensures PostOrigin(done', t, p, s.posts[p]) {
      PostOriginStays(done, s, done', t, p, s.posts[p]);
    }
    forall i | 0 <= i < |s.log| ensures EventOrigin(done', t, s.log[i]) {
      EventOriginStays(done, s, done', t, s.log[i]);
    }
  }

  /** What there is after the step was there before, or has an origin now. */
  ghost predicate OldOrAsked(done: seq<Action>, s: State, t: State) {
    && (forall p :: p in t.posts ==>
          (p in s.posts && t.posts[p] == s.posts[p]) || PostOrigin(done, t, p, t.posts[p]))
    && (forall o :: o in t.subscriptions ==>
          (o in s.subscriptions && t.subscriptions[o] == s.subscriptions[o])
          || SubscriptionOrigin(done, t, o, t.subscriptions[o]))
    && (forall i :: 0 <= i < |t.log| ==>
          (i < |s.log| && t.log[i] == s.log[i]) || EventOrigin(done, t, t.log[i]))
  }

  lemma {:induction false} PostStep(done: seq<Action>, s: State, a: Action)
    requires Inv(s) && Origins(done, s) && Step(s, a).Some? && a in done
    requires a.StartPost? || a.FindRoomForPost? || a.Send? || a.UnlockPost?
    ensures OldOrAsked(done, s, Step(s, a).value)
  {
    if !a.StartPost? {
      assert PostOrigin(done, s, a.post, s.posts[a.post]);
    }
    var t := Step(s, a).value;
    assert PostOrigin(done, t, a.post, t.posts[a.post]);
  }

  lemma {:induction false} LockStep(done: seq<Action>, s: State, a: Action)
    requires Inv(s) && Origins(done, s) && Step(s, a).Some? && a in done && a.LockForPost?
    ensures OldOrAsked(done, s, Step(s, a).value)
  {
    var t := Step(s, a).value;
    assert PostOrigin(done, s, a.post, s.posts[a.post]);
    AskedStays(done, s, done, t, a.post, s.posts[a.post].roomId, s.posts[a.post].message);
    assert Broadcasted(done, t, s.posts[a.post].roomId, s.posts[a.post].message);
  }

  lemma {:induction false} SubscriptionStep(done: seq<Action>, s: State, a: Action)
    requires Inv(s) && Origins(done, s) && Step(s, a).Some? && a in done
    requires a.StartSubscription? || a.FindRoomForSubscription?
    ensures OldOrAsked(done, s, Step(s, a).value)
  {
    if a.FindRoomForSubscription? {
      assert SubscriptionOrigin(done, s, a.observer, s.subscriptions[a.observer]);
    }
    var t := Step(s, a).value;
    assert SubscriptionOrigin(done, t, a.observer, t.subscriptions[a.observer]);
  }

  lemma {:induction false} EnrolStep(done: seq<Action>, s: State, a: Action)
    requires Inv(s) && Origins(done, s) && Step(s, a).Some? && (a.AddObserver? || a.DeleteObserver?)
    ensures OldOrAsked(done, s, Step(s, a).value)
  {
    var t := Step(s, a).value;
    var sub := s.subscriptions[a.observer];
    assert SubscriptionOrigin(done, s, a.observer, sub);
    assert SubscriptionOrigin(done, t, a.observer, t.subscriptions[a.observer]);
    assert Subscribed(done, t, sub.roomId, a.observer, sub.username);
  }

  lemma {:induction false} StepOldOrAsked(done: seq<Action>, s: State, a: Action)
    requires Inv(s) && Origins(done, s) && Step(s, a).Some? && a in done
    ensures OldOrAsked(done, s, Step(s, a).value)
  {
    if a.StartPost? || a.FindRoomForPost? || a.Send? || a.UnlockPost? {
      PostStep(done, s, a);
    } else if a.LockForPost? {
      LockStep(done, s, a);
    } else if a.StartSubscription? || a.FindRoomForSubscription? {
      SubscriptionStep(done, s, a);
    } else if a.AddObserver? || a.DeleteObserver? {
      EnrolStep(done, s, a);
    }
  }

  lemma {:induction false} StepOrigins(done: seq<Action>, s: State, a: Action)
    requires Inv(s) && Origins(done, s) && Step(s, a).Some?
    ensures Origins(done + [a], Step(s, a).value)
  {
    var t := Step(s, a).value;
    StepInv(s, a);
    OriginsStay(done, s, done + [a], s);
    OriginsStay(done, s, done + [a], t);
    StepOldOrAsked(done + [a], s, a);
  }

  lemma {:induction false} RunOrigins(done: seq<Action>, s: State, actions: seq<Action>)
    requires Inv(s) && Origins(done, s) && Run(s, actions).Some?
    ensures Origins(done + actions, Run(s, actions).value)
    decreases |actions|
  {
    if actions == [] {
      assert done + actions == done;
    } else {
      var a := actions[0];
      StepInv(s, a);
      StepOrigins(done, s, a);
      RunOrigins(done + [a], Step(s, a).value, actions[1..]);
      assert (done + [a]) + actions[1..] == done + actions;
    }
  }

  // --- Whom they are due to ---

  /** Before the i-th event, the last thing that happened to the observer in that room was that it
      registered by that name. */
  ghost predicate Present(log: seq<Event>, i: int, roomId: nat, observer: nat, username: string) {
    exists j :: 0 <= j < i <= |log| && log[j] == Register(roomId, observer, username)
                && forall k :: j < k < i ==> !Concerns(log[k], roomId, observer)
  }

  ghost predicate Concerns(e: Event, roomId: nat, observer: nat) {
    match e
    case Register(r, o, _) => r == roomId && o == observer
    case Remove(r, o) => r == roomId && o == observer
    case Broadcast(_, _) => false
  }

  /** The i-th event is a message for the observer: broadcast in its room while it is registered there
      without a name, or by the name of the one who wrote it. */
  ghost predicate For(log: seq<Event>, i: int, roomId: nat, observer: nat) {
    && 0 <= i < |log| && log[i].Broadcast? && log[i].roomId == roomId
    && (Present(log, i, roomId, observer, "") || Present(log, i, roomId, observer, log[i].message.createdBy))
  }

  lemma {:induction false} RegisteredIsPresent(log: seq<Event>, roomId: nat, observer: nat)
    ensures forall username ::
              RegisteredAs(log, roomId, observer) == Some(username) <==> Present(log, |log|, roomId, observer, username)
    decreases |log|
  {
    if log != [] {
      var n := |log| - 1;
      RegisteredIsPresent(log[..n], roomId, observer);
      forall username
        ensures RegisteredAs(log, roomId, observer) == Some(username)
                <==> Present(log, |log|, roomId, observer, username)
      {
        PresentLonger(log, roomId, observer, username);
      }
    }
  }

  lemma {:induction false} PresentLonger(log: seq<Event>, roomId: nat, observer: nat, username: string)
    requires log != []
    ensures var n := |log| - 1;
            Present(log, |log|, roomId, observer, username)
            <==> if Concerns(log[n], roomId, observer) then log[n] == Register(roomId, observer, username)
                 else Present(log[..n], n, roomId, observer, username)
  {
    var n := |log| - 1;
    var before := log[..n];
    if Present(log, |log|, roomId, observer, username) {
      var j :| 0 <= j < |log| && log[j] == Register(roomId, observer, username)
               && forall k :: j < k < |log| ==> !Concerns(log[k], roomId, observer);
      if j < n {
        assert before[j] == Register(roomId, observer, username);
        assert forall k :: j < k < n ==> before[k] == log[k];
      }
    }
    if !Concerns(log[n], roomId, observer) && Present(before, n, roomId, observer, username) {
      var j :| 0 <= j < n && before[j] == Register(roomId, observer, username)
               && forall k :: j < k < n ==> !Concerns(before[k], roomId, observer);
      forall k | j < k < |log| ensures !Concerns(log[k], roomId, observer) {
        assert k < n ==> before[k] == log[k];
      }
      assert log[j] == Register(roomId, observer, username);
    }
  }

  lemma {:induction false} PresentBefore(log: seq<Event>, n: nat, i: nat, roomId: nat, observer: nat, username: string)
    requires i <= n <= |log|
    ensures Present(log[..n], i, roomId, observer, username) <==> Present(log, i, roomId, observer, username)
  {
    assert forall k :: 0 <= k < i ==> log[..n][k] == log[k];
    if Present(log, i, roomId, observer, username) {
      var j :| 0 <= j < i && log[j] == Register(roomId, observer, username)
               && forall k :: j < k < i ==> !Concerns(log[k], roomId, observer);
      assert log[..n][j] == Register(roomId, observer, username);
    }
  }

  lemma {:induction false} ForBefore(log: seq<Event>, n: nat, i: nat, roomId: nat, observer: nat)
    requires i < n <= |log|
    ensures For(log[..n], i, roomId, observer) <==> For(log, i, roomId, observer)
  {
    if log[i].Broadcast? {
      PresentBefore(log, n, i, roomId, observer, "");
      PresentBefore(log, n, i, roomId, observer, log[i].message.createdBy);
    }
  }

  lemma {:induction false} LastIsFor(log: seq<Event>, roomId: nat, observer: nat)
    requires log != []
    ensures var n := |log| - 1;
            var as_ := RegisteredAs(log[..n], roomId, observer);
            For(log, n, roomId, observer)
            <==> log[n].Broadcast? && log[n].roomId == roomId && as_.Some? && Wants(as_.value, log[n].message)
  {
    var n := |log| - 1;
    RegisteredIsPresent(log[..n], roomId, observer);
    if log[n].Broadcast? {
      PresentBefore(log, n, n, roomId, observer, "");
      PresentBefore(log, n, n, roomId, observer, log[n].message.createdBy);
    }
  }

  /** The messages due are those at the positions `at`, in order, and these are all that are for the
      observer. */
  ghost predicate DueAt(log: seq<Event>, roomId: nat, observer: nat, at: seq<nat>) {
    && |Due(log, roomId, observer)| == |at|
    && (forall i, j :: 0 <= i < j < |at| ==> at[i] < at[j])
    && (forall i :: 0 <= i < |at| ==>
          For(log, at[i], roomId, observer) && Due(log, roomId, observer)[i] == log[at[i]].message)
    && (forall i :: For(log, i, roomId, observer) ==> i in at)
  }

  lemma {:induction false} DuePositions(log: seq<Event>, roomId: nat, observer: nat) returns (at: seq<nat>)
    ensures DueAt(log, roomId, observer, at)
    decreases |log|
  {
    at := [];
    if log != [] {
      var n := |log| - 1;
      var before := log[..n];
      at := DuePositions(before, roomId, observer);
      LastIsFor(log, roomId, observer);
      forall i: nat | i < n ensures For(before, i, roomId, observer) <==> For(log, i, roomId, observer) {
        ForBefore(log, n, i, roomId, observer);
      }
      if For(log, n, roomId, observer) {
        at := at + [n];
      }
    }
  }

  /** In every interleaving, each message in the log was asked to be posted in the room it was broadcast
      in, and each observer had asked to subscribe to the room it was registered in, by the name it was
      registered by; and an observer has been sent, in order, the messages that are for it, but for the
      one being sent. */
  lemma {:induction false} WhatIsAskedForHappens(actions: seq<Action>, observer: nat) returns (at: seq<nat>)
    requires Run(INIT, actions).Some?
    ensures var s := Run(INIT, actions).value;
            && (forall i :: 0 <= i < |s.log| ==> EventOrigin(actions, s, s.log[i]))
            && (observer in s.subscriptions && s.subscriptions[observer].phase != Starting ==>
                  var sub := s.subscriptions[observer];
                  && StartSubscription(observer, sub.room, sub.username) in actions
                  && sub.room in s.rooms && s.rooms[sub.room] == sub.roomId
                  && observer in s.channels
                  && Sent(s.channels[observer]) <= Due(s.log, sub.roomId, observer)
                  && |at| <= |Sent(s.channels[observer])| + 1
                  && DueAt(s.log, sub.roomId, observer, at))
  {
    var s := Run(INIT, actions).value;
    InitInv();
    RunOrigins([], INIT, actions);
    assert [] + actions == actions;
    ObserversGetWhatIsDue(actions, observer);
    at := [];
    if observer in s.subscriptions {
      at := DuePositions(s.log, s.subscriptions[observer].roomId, observer);
      assert SubscriptionOrigin(actions, s, observer, s.subscriptions[observer]);
    }
  }
}
