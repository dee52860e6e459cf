/**
 * The hub of internal/server/sse.go: one event loop that registers and unregisters
 * clients and sends every broadcast event to all of them, each seeing what its user
 * may see.
 */
module Hub {
  import opened Basics
  import opened Hierarchy
  import opened Access
  import D = Deltas

  /** What arrives on the broadcast channel: raw bytes, or an event that depends on the user. */
  datatype Raw =
    | Bytes(payload: string)
    | DeltaEvent(key: string, changes: D.Changes)
    | AddedEvent(sess: SessionRef, view: D.View)
    | HierarchyUpdated
    | GenericEvent(kind: string)

  datatype Message =
    | BytesMessage(payload: string)
    | DeltaMessage(key: string, changes: D.Changes)
    | AddedMessage(view: D.View)
    | TreeMessage(tree: seq<WorkspaceNode>)

  /** The stores the hub consults while it handles an event. */
  datatype World = World(tables: Tables, sessions: map<string, SessionRef>)

  function Lookup(w: World, key: string): Option<SessionRef> {
    if key in w.sessions then Some(w.sessions[key]) else None
  }

  /** messageForClient. */
  function MessageFor(w: World, raw: Raw, user: Option<int>): Option<Message> {
    match raw
    case Bytes(payload) => Some(BytesMessage(payload))
    case DeltaEvent(key, changes) =>
      if user.Some? && CanAccessSession(w.tables, user.value, Lookup(w, key)) then Some(DeltaMessage(key, changes))
      else None
    case AddedEvent(sess, view) =>
      if user.Some? && CanAccessSession(w.tables, user.value, Some(sess)) then Some(AddedMessage(view)) else None
    case HierarchyUpdated => if user.Some? then Some(TreeMessage(ScopedTree(w.tables, user.value))) else None
    case GenericEvent(_) => None
  }

  datatype Handled = Handled(world: World, raw: Raw)

  /** The messages a user gets out of a stretch of handled events. */
  function MessagesFor(user: Option<int>, events: seq<Handled>): seq<Message> {
    if events == [] then []
    else
      var n := |events| - 1;
      MessagesFor(user, events[..n]) + MessageFor(events[n].world, events[n].raw, user).ToSeq()
  }

  /** A connection: its send channel, as the queue of messages not yet written. */
  class Client {
    const user: Option<int>
    var open: bool
    var queue: seq<Message>
    ghost var sent: seq<Message>
    ghost var written: seq<Message>

    ghost predicate Valid()
      reads this`sent, this`written, this`queue
    {
      sent == written + queue
    }

    constructor (user: Option<int>)
      ensures this.user == user && open && Valid() && sent == []
    {
      this.user := user;
      open, queue, sent, written := true, [], [], [];
    }

    /** A send on the channel; sending on a closed channel panics.  A full channel makes the hub wait. */
    method Send(msg: Message)
      requires Valid() && open
      modifies this`queue, this`sent
      ensures Valid() && sent == old(sent) + [msg]
    {
      queue := queue + [msg];
      sent := sent + [msg];
    }

    /** close(c.send); closing twice panics. */
    method Close()
      requires open
      modifies this`open
      ensures !open
    {
      open := false;
    }

    /** The write loop takes the next message; a closed and empty channel ends it. */
    method Receive() returns (msg: Option<Message>)
      requires Valid() && (queue != [] || !open)
      modifies this`queue, this`written
      ensures Valid()
      ensures msg == if old(queue) != [] then Some(old(queue)[0]) else None
      ensures written == old(written) + msg.ToSeq()
    {
      if queue == [] {
        return None;
      }
      msg := Some(queue[0]);
      written := written + [queue[0]];
      queue := queue[1..];
    }
  }

  class Hub {
    var clients: set<Client>
    ghost var history: seq<Handled>
    ghost var joined: map<Client, nat>
    ghost var left: map<Client, nat>

    /** Where the stretch of events for a client ends. */
    ghost function End(c: Client): nat
      reads this`history, this`left
    {
      if c in left then left[c] else |history|
    }

    /**
     * A client is registered from `joined` to `left`; its channel is open exactly
     * then, and what was sent to it is what its user sees of the events in between.
     */
    ghost predicate Valid()
      reads this, joined.Keys
    {
      && clients == joined.Keys - left.Keys && left.Keys <= joined.Keys
      && forall c :: c in joined ==>
           && joined[c] <= End(c) <= |history|
           && (c.open <==> c in clients) && c.Valid()
           && c.sent == MessagesFor(c.user, history[joined[c]..End(c)])
    }

    constructor ()
      ensures Valid() && clients == {} && history == [] && joined == map[] && left == map[]
    {
      clients, history, joined, left := {}, [], map[], map[];
    }

    /** case c := <-h.register; every connection makes its own client and registers it once. */
    method Register(c: Client)
      requires Valid() && c !in joined && c.open && c.Valid() && c.sent == []
      modifies this`clients, this`joined
      ensures Valid() && clients == old(clients) + {c} && joined == old(joined)[c := |history|]
    {
      clients := clients + {c};
      joined := joined[c := |history|];
    }

    /** case c := <-h.unregister: only a client that is still registered is closed. */
    method Unregister(c: Client)
      requires Valid()
      modifies this`clients, this`left, c`open
      ensures Valid() && clients == old(clients) - {c}
      ensures left == if c in old(clients) then old(left)[c := |history|] else old(left)
      ensures c.open <==> old(c.open) && c !in old(clients)
    {
      hide MessagesFor, Client.Valid;
      if c in clients {
        clients := clients - {c};
        c.Close();
        left := left[c := |history|];
      }
    }

    /** One step of a client's write loop: what was sent leaves in order, and the hub notices nothing. */
    method Write(c: Client) returns (msg: Option<Message>)
      requires Valid() && c in joined && (c.queue != [] || !c.open)
      modifies c`queue, c`written
      ensures Valid()
      ensures c.written == old(c.written) + msg.ToSeq() && c.written <= MessagesFor(c.user, history[joined[c]..End(c)])
      ensures msg.None? ==> c in left && c.written == MessagesFor(c.user, history[joined[c]..left[c]])
    {
      msg := c.Receive();
    }

    /** The loop over the clients. */
    method SendToAll(w: World, raw: Raw)
      requires forall c :: c in clients ==> c.open && c.Valid()
      modifies clients`queue, clients`sent
      ensures forall c :: c in clients ==> c.Valid() && c.sent == old(c.sent) + MessageFor(w, raw, c.user).ToSeq()
    {
      hide MessageFor;
      var todo := clients;
      while todo != {}
        invariant todo <= clients
        invariant forall c :: c in clients ==> c.Valid()
        invariant forall c :: c in todo ==> c.sent == old(c.sent)
        invariant forall c :: c in clients && c !in todo ==> c.sent == old(c.sent) + MessageFor(w, raw, c.user).ToSeq()
        decreases todo
      {
        var c :| c in todo;
        var msg := MessageFor(w, raw, c.user);
        if msg.Some? {
          c.Send(msg.value);
        }
        todo := todo - {c};
      }
    }

    /** case raw := <-h.broadcast: every registered client gets its message, in any order. */
    method Broadcast(w: World, raw: Raw)
      requires Valid()
      modifies this`history, clients`queue, clients`sent
      ensures Valid() && history == old(history) + [Handled(w, raw)]
      ensures forall c :: c in clients ==> c.sent == old(c.sent) + MessageFor(w, raw, c.user).ToSeq()
    {
      hide MessageFor, MessagesFor;
      SendToAll(w, raw);
      history := history + [Handled(w, raw)];
      forall c | c in joined
        ensures c.sent == MessagesFor(c.user, history[joined[c]..End(c)])
      {
        MessagesForSnoc(c.user, old(history), joined[c], End(c), Handled(w, raw));
      }
    }
  }

  /** One more event: old stretches stay, and a stretch up to the end grows by the new event's message. */
  lemma MessagesForSnoc(user: Option<int>, history: seq<Handled>, from: nat, end: nat, e: Handled)
    requires from <= end <= |history| + 1 && from <= |history|
    ensures end <= |history| ==> (history + [e])[from..end] == history[from..end]
    ensures end == |history| + 1 ==>
              MessagesFor(user, (history + [e])[from..end])
                == MessagesFor(user, history[from..|history|]) + MessageFor(e.world, e.raw, user).ToSeq()
  {
    if end == |history| + 1 {
      var before := history[from..|history|];
      assert (history + [e])[from..end] == before + [e];
      assert (before + [e])[..|before|] == before;
    }
  }

  /**
   * On a consistent store, a delta reaches a user exactly when the session is known
   * and the story it resolves to occurs in the tree this user is sent, unless the
   * user's row on that story's project is too weak.
   */
  lemma DeltasFollowTheTree(w: World, key: string, changes: D.Changes, user: Option<int>)
    requires ForeignKeysHold(w.tables) && ProjectIdsDiffer(w.tables) && TopicIdsDiffer(w.tables)
    ensures (MessageFor(w, DeltaEvent(key, changes), user) == Some(DeltaMessage(key, changes)) <==>
             user.Some? && key in w.sessions && SessionInTree(w.tables, user.value, w.sessions[key]))
            <==> !(user.Some? && key in w.sessions && WeakForSession(w.tables, user.value, w.sessions[key]))
    ensures MessageFor(w, DeltaEvent(key, changes), user) in {None, Some(DeltaMessage(key, changes))}
  {
    if user.Some? && key in w.sessions {
      SessionAccessIffStoryInTree(w.tables, user.value, w.sessions[key]);
    }
    hide SessionInTree, WeakForSession, ForeignKeysHold;
  }

  /** The same for the announcement of a new session, which brings the session with it. */
  lemma NewSessionsFollowTheTree(w: World, sess: SessionRef, view: D.View, user: Option<int>)
    requires ForeignKeysHold(w.tables) && ProjectIdsDiffer(w.tables) && TopicIdsDiffer(w.tables)
    ensures (MessageFor(w, AddedEvent(sess, view), user) == Some(AddedMessage(view)) <==>
             user.Some? && SessionInTree(w.tables, user.value, sess))
            <==> !(user.Some? && WeakForSession(w.tables, user.value, sess))
    ensures MessageFor(w, AddedEvent(sess, view), user) in {None, Some(AddedMessage(view))}
  {
    if user.Some? {
      SessionAccessIffStoryInTree(w.tables, user.value, sess);
    }
    hide SessionInTree, WeakForSession, ForeignKeysHold;
  }

  /**
   * A change of the hierarchy sends a tree to every client with a user, and to no
   * other; it shows exactly the projects of workspaces the user administers and those
   * the user has a row on.
   */
  lemma TreesGoToUsers(w: World, user: Option<int>, p: Project)
    requires ProjectIdsDiffer(w.tables) && ForeignKeysHold(w.tables) && p in w.tables.projects
    ensures var msg := MessageFor(w, HierarchyUpdated, user);
            && (msg.Some? <==> user.Some?)
            && (msg.Some? ==> msg.value.TreeMessage?)
            && (msg.Some? && user.value != 0 ==>
                  (ProjectInTree(msg.value.tree, p.id) <==>
                     || LevelOf(w.tables.permissions, user.value, OnProject, p.id).Some?
                     || CheckWorkspace(w.tables, user.value, p.workspaceId, 100)))
            && (msg.Some? && user.value == 0 ==> msg.value.tree == [])
  {
    if user.Some? && user.value != 0 {
      TreeShowsSeenProjects(w.tables, user.value, p);
    }
  }

  /** Raw bytes go to every client; a client without a user gets nothing else, and generic events go nowhere. */
  lemma OthersGetBytesOnly(w: World, raw: Raw, user: Option<int>)
    ensures raw.Bytes? ==> MessageFor(w, raw, user) == Some(BytesMessage(raw.payload))
    ensures user.None? && !raw.Bytes? ==> MessageFor(w, raw, user) == None
    ensures raw.GenericEvent? ==> MessageFor(w, raw, user) == None
  {
  }
}
