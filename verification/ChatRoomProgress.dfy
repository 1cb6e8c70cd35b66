/** When a post that is sending can finish. It holds the lock while it sends, and a send blocks on a
    full channel; removing an observer takes the lock, too. */
module ChatRoomProgress {
  import opened Wrappers
  import opened ChatRoom
  import opened ChatRoomLaws

  /** None of the silent observers receives. */
  ghost predicate Avoids(actions: seq<Action>, silent: set<nat>) {
    forall i :: 0 <= i < |actions| && actions[i].Receive? ==> actions[i].observer !in silent
  }

  /** The post holds the lock and has these observers left to send to. */
  predicate SendingTo(s: State, post: nat, left: set<nat>) {
    s.lock == Some(post) && post in s.posts && s.posts[post].Sending? && s.posts[post].left == left
  }

  predicate Ready(s: State, o: nat) {
    o in s.channels && s.channels[o].buffer == []
  }

  lemma {:induction false} RunBoth(s: State, a: seq<Action>, b: seq<Action>)
    requires Run(s, a).Some?
    ensures Run(s, a + b) == Run(Run(s, a).value, b)
    decreases |a|
  {
    if a == [] {
      assert a + b == b;
    } else {
      assert (a + b)[0] == a[0] && (a + b)[1..] == a[1..] + b;
      RunBoth(Step(s, a[0]).value, a[1..], b);
    }
  }

  // --- It cannot while a silent observer's channel is full ---

  predicate Stuck(s: State, post: nat, o: nat) {
    && s.lock == Some(post) && post in s.posts && s.posts[post].Sending?
    && o in s.posts[post].left && o in s.channels && s.channels[o].buffer != []
  }

  lemma {:induction false} StuckStays(s: State, post: nat, o: nat, actions: seq<Action>, silent: set<nat>)
    requires Inv(s) && Stuck(s, post, o) && o in silent && Avoids(actions, silent) && Run(s, actions).Some?
    ensures Stuck(Run(s, actions).value, post, o)
    decreases |actions|
  {
    if actions != [] {
      var a := actions[0];
      StepInv(s, a);
      StuckOneStep(s, post, o, a);
      StuckStays(Step(s, a).value, post, o, actions[1..], silent);
    }
  }

  lemma {:induction false} StuckOneStep(s: State, post: nat, o: nat, a: Action)
    requires Inv(s) && Stuck(s, post, o) && Step(s, a).Some? && a != Receive(o)
    ensures Stuck(Step(s, a).value, post, o)
  {
  }

  // --- It can otherwise ---

  /** An observer left has a channel. */
  lemma {:induction false} LeftHasChannel(s: State, post: nat, left: set<nat>, o: nat)
    requires Inv(s) && SendingTo(s, post, left) && o in left
    ensures o in s.channels
  {
    assert o in ObserversOf(s, s.posts[post].roomId);
    assert ChannelOk(s, o);
  }

  /** Read what is in the channel, and send. */
  lemma {:induction false} SendOne(s: State, post: nat, left: set<nat>, o: nat, silent: set<nat>)
    returns (actions: seq<Action>)
    requires Inv(s) && SendingTo(s, post, left) && o in left && (o in silent ==> Ready(s, o))
    ensures Avoids(actions, silent) && Run(s, actions).Some?
    ensures var t := Run(s, actions).value;
            Inv(t) && SendingTo(t, post, left - {o}) && forall p :: p != o && Ready(s, p) ==> Ready(t, p)
    decreases if o in s.channels then |s.channels[o].buffer| else 0
  {
    LeftHasChannel(s, post, left, o);
    var a := if s.channels[o].buffer == [] then Send(post, o) else Receive(o);
    var t := Step(s, a).value;
    StepInv(s, a);
    var rest := [];
    if a.Receive? {
      rest := SendOne(t, post, left, o, silent);
    }
    actions := [a] + rest;
    assert actions[1..] == rest;
    assert Run(s, actions) == Run(t, rest);
  }

  lemma {:induction false} Finish(s: State, post: nat, left: set<nat>, silent: set<nat>) returns (actions: seq<Action>)
    requires Inv(s) && SendingTo(s, post, left)
    requires forall o :: o in left && o in silent ==> Ready(s, o)
    ensures Avoids(actions, silent) && Run(s, actions).Some? && Run(s, actions).value.lock == None
    decreases left
  {
    if left == {} {
      actions := [UnlockPost(post)];
      assert actions[1..] == [];
    } else {
      var o :| o in left;
      var first := SendOne(s, post, left, o, silent);
      var t := Run(s, first).value;
      var rest := Finish(t, post, left - {o}, silent);
      RunBoth(s, first, rest);
      actions := first + rest;
    }
  }

  /** In every run: with some observers never receiving again, a post that is sending can finish if
      and only if the channels of those among them it has still to send to are empty. So one that
      stops reading, or whose observer has leaked, blocks every later post, for good. */
  lemma {:induction false} FinishesExactlyIfSilentChannelsAreEmpty(before: seq<Action>, post: nat, silent: set<nat>)
    requires Run(INIT, before).Some? && Run(INIT, before).value.lock == Some(post)
    ensures var s := Run(INIT, before).value;
            && post in s.posts && s.posts[post].Sending?
            && ((exists after :: Avoids(after, silent) && Run(s, after).Some? && Run(s, after).value.lock != Some(post))
                <==> forall o :: o in s.posts[post].left && o in silent ==> Ready(s, o))
  {
    var s := Run(INIT, before).value;
    InitInv();
    RunInv(INIT, before);
    var left := s.posts[post].left;
    if forall o :: o in left && o in silent ==> Ready(s, o) {
      var after := Finish(s, post, left, silent);
    } else {
      var o :| o in left && o in silent && !Ready(s, o);
      LeftHasChannel(s, post, left, o);
      forall after | Avoids(after, silent) && Run(s, after).Some? ensures Run(s, after).value.lock == Some(post) {
        StuckStays(s, post, o, after, silent);
      }
    }
  }
}
