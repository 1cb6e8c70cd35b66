/** The chat example: posts, subscriptions and cancellations under one lock. */
module ChatRoom {
  import opened Wrappers

  datatype Message = Message(id: nat, text: string, createdBy: string)

  /** A post: looking for its room; outside the lock; holding the lock, with the observers it
      still has to send to; over. */
  datatype Post =
    | Looking(room: string, message: Message)
    | Ready(roomId: nat, message: Message)
    | Sending(roomId: nat, message: Message, left: set<nat>)
    | Over

  /** A subscription: looking for its room; about to register; registered. From the second phase
      on a goroutine waits for the context to end, and then removes the observer. */
  datatype Phase = Starting | Found | Registered

  datatype Subscription = Subscription(room: string, roomId: nat, username: string, phase: Phase, removed: bool)

  /** A channel of capacity one, and what has been received from it. */
  datatype Channel = Channel(received: seq<Message>, buffer: seq<Message>)

  /** What happens under the lock, in the order the lock is taken. */
  datatype Event =
    | Register(roomId: nat, observer: nat, username: string)
    | Remove(roomId: nat, observer: nat)
    | Broadcast(roomId: nat, message: Message)

  datatype State = State(
    rooms: map<string, nat>,                 // room name to room object
    nextRoom: nat,                           // the next room object to be allocated
    observers: map<nat, map<nat, string>>,   // room object to its observers' usernames
    posts: map<nat, Post>,
    subscriptions: map<nat, Subscription>,
    channels: map<nat, Channel>,             // of the subscriptions
    lock: Option<nat>,                       // the post that is sending
    log: seq<Event>)

  const INIT := State(map[], 0, map[], map[], map[], map[], None, [])

  datatype Action =
    | StartPost(post: nat, room: string, message: Message)
    | FindRoomForPost(post: nat)
    | LockForPost(post: nat)
    | Send(post: nat, observer: nat)
    | UnlockPost(post: nat)
    | StartSubscription(observer: nat, room: string, username: string)
    | FindRoomForSubscription(observer: nat)
    | AddObserver(observer: nat)
    | DeleteObserver(observer: nat)
    | Receive(observer: nat)
    | QueryRoom(room: string)

  /** An observer without a username sees everything, others what that user posts. */
  predicate Wants(username: string, m: Message) {
    username == "" || username == m.createdBy
  }

  /** Find the room, or create it: a new object, without observers. */
  function GetOrCreate(s: State, room: string): State {
    if room in s.rooms then s
    else
      s.(rooms := s.rooms[room := s.nextRoom], nextRoom := s.nextRoom + 1,
         observers := s.observers[s.nextRoom := map[]])
  }

  function ObserversOf(s: State, roomId: nat): map<nat, string> {
    if roomId in s.observers then s.observers[roomId] else map[]
  }

  /** The step an action stands for, if it can be taken. */
  function Step(s: State, a: Action): Option<State> {
    match a
    case StartPost(post, room, message) =>
      if post in s.posts then None else Some(s.(posts := s.posts[post := Looking(room, message)]))
    case FindRoomForPost(post) =>
      if post !in s.posts || !s.posts[post].Looking? || s.lock.Some? then None
      else
        var t := GetOrCreate(s, s.posts[post].room);
        Some(t.(posts := t.posts[post := Ready(t.rooms[s.posts[post].room], s.posts[post].message)]))
    case LockForPost(post) =>
      if post !in s.posts || !s.posts[post].Ready? || s.lock.Some? then None
      else
        var roomId, message := s.posts[post].roomId, s.posts[post].message;
        var observers := ObserversOf(s, roomId);
        Some(s.(lock := Some(post), log := s.log + [Broadcast(roomId, message)],
                posts := s.posts[post := Sending(roomId, message,
                  set o | o in observers && Wants(observers[o], message))]))
    case Send(post, observer) =>
      if post !in s.posts || !s.posts[post].Sending? || observer !in s.posts[post].left
         || observer !in s.channels || |s.channels[observer].buffer| >= 1 then None
      else
        var p, c := s.posts[post], s.channels[observer];
        Some(s.(channels := s.channels[observer := c.(buffer := c.buffer + [p.message])],
                posts := s.posts[post := p.(left := p.left - {observer})]))
    case UnlockPost(post) =>
      if post !in s.posts || !s.posts[post].Sending? || s.posts[post].left != {} then None
      else Some(s.(lock := None, posts := s.posts[post := Over]))
    case StartSubscription(observer, room, username) =>
      if observer in s.subscriptions then None   // ids are drawn at random, and taken to be distinct
      else Some(s.(subscriptions := s.subscriptions[observer := Subscription(room, 0, username, Starting, false)]))
    case FindRoomForSubscription(observer) =>
      if observer !in s.subscriptions || s.subscriptions[observer].phase != Starting || s.lock.Some? then None
      else
        var sub := s.subscriptions[observer];
        var t := GetOrCreate(s, sub.room);
        Some(t.(subscriptions := t.subscriptions[observer := sub.(roomId := t.rooms[sub.room], phase := Found)],
                channels := t.channels[observer := Channel([], [])]))
    case AddObserver(observer) =>
      if observer !in s.subscriptions || s.subscriptions[observer].phase != Found || s.lock.Some? then None
      else
        var sub := s.subscriptions[observer];
        Some(s.(observers := s.observers[sub.roomId := ObserversOf(s, sub.roomId)[observer := sub.username]],
                subscriptions := s.subscriptions[observer := sub.(phase := Registered)],
                log := s.log + [Register(sub.roomId, observer, sub.username)]))
    case DeleteObserver(observer) =>
      if observer !in s.subscriptions || s.subscriptions[observer].phase == Starting
         || s.subscriptions[observer].removed || s.lock.Some? then None
      else
        var sub := s.subscriptions[observer];
        Some(s.(observers := s.observers[sub.roomId := ObserversOf(s, sub.roomId) - {observer}],
                subscriptions := s.subscriptions[observer := sub.(removed := true)],
                log := s.log + [Remove(sub.roomId, observer)]))
    case Receive(observer) =>
      if observer !in s.channels || s.channels[observer].buffer == [] then None
      else
        var c := s.channels[observer];
        Some(s.(channels := s.channels[observer := Channel(c.received + [c.buffer[0]], c.buffer[1..])]))
    case QueryRoom(room) =>
      if s.lock.Some? then None else Some(GetOrCreate(s, room))
  }

  function Run(s: State, actions: seq<Action>): Option<State>
    decreases |actions|
  {
    if actions == [] then Some(s)
    else
      match Step(s, actions[0])
      case None => None
      case Some(t) => Run(t, actions[1..])
  }

  // --- What an observer should get ---

  /** The username under which the observer is registered after these events, if it is. */
  function RegisteredAs(log: seq<Event>, roomId: nat, observer: nat): Option<string>
    decreases |log|
  {
    if log == [] then None
    else
      match log[|log| - 1]
      case Register(r, o, username) =>
        if r == roomId && o == observer then Some(username) else RegisteredAs(log[..|log| - 1], roomId, observer)
      case Remove(r, o) =>
        if r == roomId && o == observer then None else RegisteredAs(log[..|log| - 1], roomId, observer)
      case Broadcast(_, _) => RegisteredAs(log[..|log| - 1], roomId, observer)
  }

  /** The messages broadcast in the room while the observer was registered and that it wants. */
  function Due(log: seq<Event>, roomId: nat, observer: nat): seq<Message>
    decreases |log|
  {
    if log == [] then []
    else
      var before := log[..|log| - 1];
      match log[|log| - 1]
      case Broadcast(r, m) =>
        var as_ := RegisteredAs(before, roomId, observer);
        if r == roomId && as_.Some? && Wants(as_.value, m) then Due(before, roomId, observer) + [m]
        else Due(before, roomId, observer)
      case _ => Due(before, roomId, observer)
  }

  lemma {:induction false} OneEventMore(log: seq<Event>, e: Event, roomId: nat, observer: nat)
    ensures RegisteredAs(log + [e], roomId, observer) ==
            (match e
             case Register(r, o, username) =>
               if r == roomId && o == observer then Some(username) else RegisteredAs(log, roomId, observer)
             case Remove(r, o) => if r == roomId && o == observer then None else RegisteredAs(log, roomId, observer)
             case Broadcast(_, _) => RegisteredAs(log, roomId, observer))
    ensures Due(log + [e], roomId, observer) ==
            (match e
             case Broadcast(r, m) =>
               var as_ := RegisteredAs(log, roomId, observer);
               if r == roomId && as_.Some? && Wants(as_.value, m) then Due(log, roomId, observer) + [m]
               else Due(log, roomId, observer)
             case _ => Due(log, roomId, observer))
  {
    assert (log + [e])[..|log|] == log;
  }

  // --- The invariant ---

  /** Rooms are allocated once, and different names have different rooms. */
  ghost predicate RoomsOk(s: State) {
    && (forall name :: name in s.rooms ==> s.rooms[name] < s.nextRoom)
    && (forall a, b :: a in s.rooms && b in s.rooms && s.rooms[a] == s.rooms[b] ==> a == b)
    && (forall roomId :: roomId in s.observers ==> roomId < s.nextRoom)
    && (forall o :: o in s.subscriptions && s.subscriptions[o].phase != Starting ==>
          s.subscriptions[o].room in s.rooms && s.rooms[s.subscriptions[o].room] == s.subscriptions[o].roomId)
    && (forall p :: p in s.posts && s.posts[p].Ready? ==> s.posts[p].roomId < s.nextRoom)
  }

  /** The message a sending post has yet to put into the observer's channel. */
  function Coming(s: State, observer: nat): seq<Message> {
    if s.lock.Some? && s.lock.value in s.posts && s.posts[s.lock.value].Sending?
       && observer in s.posts[s.lock.value].left
    then [s.posts[s.lock.value].message] else []
  }

  function Sent(c: Channel): seq<Message> {
    c.received + c.buffer
  }

  /** Just the post that holds the lock is sending, and only to registered observers. */
  ghost predicate LockOk(s: State) {
    && (forall post :: post in s.posts && s.posts[post].Sending? ==> s.lock == Some(post))
    && (s.lock.Some? ==>
          && s.lock.value in s.posts && s.posts[s.lock.value].Sending?
          && forall o :: o in s.posts[s.lock.value].left ==> o in ObserversOf(s, s.posts[s.lock.value].roomId))
  }

  /** The rooms' observers are those the log says are registered. */
  ghost predicate ObserversOk(s: State) {
    && (forall roomId: nat, o: nat ::
          RegisteredAs(s.log, roomId, o) ==
            if o in ObserversOf(s, roomId) then Some(ObserversOf(s, roomId)[o]) else None)
    && (forall roomId: nat, o: nat :: o in ObserversOf(s, roomId) ==>
          o in s.subscriptions && s.subscriptions[o].phase == Registered && s.subscriptions[o].roomId == roomId)
  }

  /** The channel of a subscription has been sent what is due, up to the message coming. */
  ghost predicate ChannelOk(s: State, o: nat) {
    o in s.subscriptions && s.subscriptions[o].phase != Starting ==>
      && o in s.channels
      && Sent(s.channels[o]) + Coming(s, o) == Due(s.log, s.subscriptions[o].roomId, o)
  }

  /** Before a subscription has registered, nothing is due to it. */
  ghost predicate FreshOk(s: State, o: nat) {
    (o in s.subscriptions ==> s.subscriptions[o].phase != Registered) ==>
      forall roomId: nat :: Due(s.log, roomId, o) == []
  }

  ghost predicate Inv(s: State) {
    && RoomsOk(s) && LockOk(s) && ObserversOk(s)
    && (forall o: nat :: ChannelOk(s, o)) && (forall o: nat :: FreshOk(s, o))
  }
}
