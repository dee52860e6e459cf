/**
 * One dashboard connection (internal/server/sse.go): the manager notifies into a
 * bounded channel, the hub takes events out of it one by one and puts them into the
 * queue of the registered client, for which it waits while that is full, and the
 * client holds a snapshot, taken at some point, plus the events of its queue.
 * What the user may see is fixed during the run.
 */
module Stream {
  import opened Basics
  import opened SessionTypes
  import opened SessionOps
  import opened Deltas

  const CHANNEL_SIZE := 256
  const SEND_BUFFER_SIZE := 256

  datatype Event =
    | Delta(key: string, changes: Changes)
    | Added(key: string, view: View)
    | Noise

  /** The sessions a client knows. */
  type Known = map<string, View>

  /** What a client does with an event; a delta for a session it does not know is ignored. */
  function Receive(client: Known, e: Event): Known {
    match e
    case Delta(k, c) => if k in client then client[k := Patched(client[k], c)] else client
    case Added(k, v) => client[k := v]
    case Noise => client
  }

  // ---- the machine -------------------------------------------------------------------------

  /**
   * `stale` and `missing` are not part of the program: they record the fields whose
   * last change was not announced to this client, and the sessions whose
   * announcement was dropped.
   */
  datatype Sys = Sys(
    server: map<string, SessionState>, visible: set<string>,
    channel: seq<Event>, hand: Option<Event>, registered: bool, queue: seq<Event>,
    snapped: bool, client: Known,
    stale: set<(string, Field)>, missing: set<string>)

  datatype Step =
    | Act(key: string, op: Op)
    | Create(key: string, s: SessionState)
    | Chatter
    | Register
    | Take
    | Put
    | Snapshot
    | Deliver

  predicate Sees(visible: set<string>, e: Event) {
    e.Noise? || e.key in visible
  }

  /** The notice changes this field of the view without naming it. */
  predicate Omits(before: View, after: View, notice: Option<Changes>, f: Field) {
    Get(before, f) != Get(after, f) && (notice.None? || !Names(notice.value, f))
  }

  predicate Announced(notice: Option<Changes>, f: Field) {
    notice.Some? && Names(notice.value, f)
  }

  function OmittedFields(key: string, before: View, after: View, notice: Option<Changes>): set<(string, Field)> {
    set f: Field | Omits(before, after, notice, f) :: (key, f)
  }

  function AnnouncedFields(key: string, notice: Option<Changes>): set<(string, Field)> {
    set f: Field | Announced(notice, f) :: (key, f)
  }

  /** The hub's Notify: a full channel drops the event. */
  function Sent(sys: Sys, notice: Option<Changes>): Option<Changes> {
    if |sys.channel| < CHANNEL_SIZE then notice else None
  }

  function Enqueue(sys: Sys, e: Event): Sys {
    if |sys.channel| < CHANNEL_SIZE then sys.(channel := sys.channel + [e]) else sys
  }

  /** A record changed, and the event, if any, was enqueued. */
  function Change(sys: Sys, key: string, r: SessionState, sent: Option<Changes>): Sys
    requires key in sys.server
  {
    sys.(server := sys.server[key := r],
         channel := if sent.Some? then sys.channel + [Delta(key, sent.value)] else sys.channel,
         stale := sys.stale - AnnouncedFields(key, sent) + OmittedFields(key, ViewOf(sys.server[key]), ViewOf(r), sent))
  }

  function ActStep(sys: Sys, key: string, op: Op): Sys
    requires key in sys.server
  {
    Change(sys, key, Next(sys.server[key], op), Sent(sys, Notice(sys.server[key], op)))
  }

  function CreateStep(sys: Sys, key: string, s: SessionState): Sys
    requires key !in sys.server
  {
    var sys2 := Enqueue(sys, Added(key, ViewOf(s)));
    sys2.(server := sys.server[key := s],
          missing := if |sys.channel| < CHANNEL_SIZE then sys.missing else sys.missing + {key})
  }

  /** The hub takes one event out of the channel. */
  function TakeStep(sys: Sys): Sys
    requires sys.hand.None? && sys.channel != []
  {
    sys.(hand := Some(sys.channel[0]), channel := sys.channel[1..])
  }

  /** And puts it into the client's queue; a full queue makes it wait, with the event in its hand. */
  function PutStep(sys: Sys): Sys
    requires sys.hand.Some?
  {
    var e := sys.hand.value;
    if !sys.registered || !Sees(sys.visible, e) then sys.(hand := None)
    else if |sys.queue| < SEND_BUFFER_SIZE then sys.(hand := None, queue := sys.queue + [e])
    else sys
  }

  /** What has not reached the client's queue. */
  function Ahead(sys: Sys): seq<Event> {
    sys.hand.ToSeq() + sys.channel
  }

  /** Everything on its way to the client. */
  function Pending(sys: Sys): seq<Event> {
    sys.queue + Filtered(sys.visible, Ahead(sys))
  }

  function Filtered(visible: set<string>, events: seq<Event>): seq<Event> {
    if events == [] then []
    else (if Sees(visible, events[0]) then [events[0]] else []) + Filtered(visible, events[1..])
  }

  function VisibleViews(sys: Sys): Known {
    map k | k in sys.server && k in sys.visible :: ViewOf(sys.server[k])
  }

  /** sendInitial: the snapshot is current, but events on their way may carry older values of stale fields. */
  function SnapshotStep(sys: Sys): Sys {
    sys.(snapped := true, client := VisibleViews(sys), missing := {},
         stale := set p | p in sys.stale && LastWrite(Pending(sys), p.0, p.1).Some?)
  }

  /** The write loop, which starts after the snapshot, writes one event to the client. */
  function DeliverStep(sys: Sys): Sys
    requires sys.queue != []
  {
    sys.(client := Receive(sys.client, sys.queue[0]), queue := sys.queue[1..])
  }

  function NextSys(sys: Sys, step: Step): Sys {
    match step
    case Act(key, op) => if key in sys.server then ActStep(sys, key, op) else sys
    case Create(key, s) => if key !in sys.server then CreateStep(sys, key, s) else sys
    case Chatter => Enqueue(sys, Noise)
    case Register => if sys.hand.None? then sys.(registered := true) else sys
    case Take => if sys.hand.None? && sys.channel != [] then TakeStep(sys) else sys
    case Put => if sys.hand.Some? then PutStep(sys) else sys
    case Snapshot => if sys.registered && !sys.snapped then SnapshotStep(sys) else sys
    case Deliver => if sys.snapped && sys.queue != [] then DeliverStep(sys) else sys
  }

  function RunSys(sys: Sys, steps: seq<Step>): Sys
    decreases |steps|
  {
    if steps == [] then sys else RunSys(NextSys(sys, steps[0]), steps[1..])
  }

  /** A daemon with some sessions and nobody connected. */
  function Start(server: map<string, SessionState>, visible: set<string>): Sys {
    Sys(server, visible, [], None, false, [], false, map[], {}, {})
  }

  // ---- the last value an event sequence carries for a field -------------------------------------

  /** The value an event gives a field of a session, if any. */
  function Touch(e: Event, k: string, f: Field): Option<Value> {
    match e
    case Delta(key, c) => if key == k && Names(c, f) then Some(Carried(c, f)) else None
    case Added(key, v) => if key == k then Some(Get(v, f)) else None
    case Noise => None
  }

  function LastWrite(events: seq<Event>, k: string, f: Field): Option<Value> {
    if events == [] then None
    else
      var rest := LastWrite(events[1..], k, f);
      if rest.Some? then rest else Touch(events[0], k, f)
  }

  lemma LastWriteHead(events: seq<Event>, k: string, f: Field)
    requires events != []
    ensures LastWrite(events, k, f)
            == if LastWrite(events[1..], k, f).Some? then LastWrite(events[1..], k, f) else Touch(events[0], k, f)
  {
  }

  // ---- sequences of events ------------------------------------------------------------------------

  lemma {:induction false} LastWriteSnoc(events: seq<Event>, e: Event, k: string, f: Field)
    ensures LastWrite(events + [e], k, f) == if Touch(e, k, f).Some? then Touch(e, k, f) else LastWrite(events, k, f)
  {
    hide Touch;
    if events == [] {
      assert events + [e] == [e];
      assert LastWrite([e][1..], k, f) == None;
    } else {
      assert (events + [e])[1..] == events[1..] + [e];
      LastWriteSnoc(events[1..], e, k, f);
    }
  }

  lemma {:induction false} FilteredSnoc(visible: set<string>, events: seq<Event>, e: Event)
    ensures Filtered(visible, events + [e]) == Filtered(visible, events) + if Sees(visible, e) then [e] else []
  {
    hide Sees;
    if events == [] {
      assert events + [e] == [e];
      assert Filtered(visible, [e][1..]) == [];
    } else {
      var head := if Sees(visible, events[0]) then [events[0]] else [];
      var last := if Sees(visible, e) then [e] else [];
      assert (events + [e])[1..] == events[1..] + [e] && (events + [e])[0] == events[0];
      assert Filtered(visible, events + [e]) == head + Filtered(visible, events[1..] + [e]);
      FilteredSnoc(visible, events[1..], e);
      assert head + (Filtered(visible, events[1..]) + last) == (head + Filtered(visible, events[1..])) + last;
    }
  }

  /** Nothing about this session is on its way before its announcement. */
  predicate AddedFirst(events: seq<Event>, k: string) {
    events != [] && (if !events[0].Noise? && events[0].key == k then events[0].Added? else AddedFirst(events[1..], k))
  }

  lemma {:induction false} AddedFirstSnoc(events: seq<Event>, e: Event, k: string)
    ensures AddedFirst(events, k) ==> AddedFirst(events + [e], k)
    ensures (forall i :: 0 <= i < |events| ==> events[i].Noise? || events[i].key != k) && e.Added? && e.key == k ==>
              AddedFirst(events + [e], k)
  {
    if events == [] {
      assert (events + [e])[0] == e;
    } else {
      assert (events + [e])[1..] == events[1..] + [e];
      AddedFirstSnoc(events[1..], e, k);
    }
  }

  /** All events are about sessions the user may see. */
  predicate About(events: seq<Event>, keys: set<string>) {
    forall i :: 0 <= i < |events| ==> events[i].Noise? || events[i].key in keys
  }

  lemma {:induction false} FilteredAbout(visible: set<string>, events: seq<Event>, keys: set<string>)
    requires About(events, keys)
    ensures About(Filtered(visible, events), keys * visible)
  {
    if events != [] {
      assert About(events[1..], keys);
      FilteredAbout(visible, events[1..], keys);
    }
  }

  // ---- the invariant --------------------------------------------------------------------------------

  function Current(sys: Sys, k: string, f: Field): Value
    requires k in sys.server
  {
    Get(ViewOf(sys.server[k]), f)
  }

  /**
   * A field that is not stale: the last event on its way carries the current value,
   * or else nothing is on its way and the client has the current value already.
   */
  ghost predicate Settled(sys: Sys, k: string, f: Field) {
    k in sys.server && k in sys.visible && (k, f) !in sys.stale ==>
      match LastWrite(Pending(sys), k, f)
      case Some(v) => v == Current(sys, k, f)
      case None => sys.snapped && k !in sys.missing ==> k in sys.client && Get(sys.client[k], f) == Current(sys, k, f)
  }

  ghost predicate Reachable(sys: Sys, k: string) {
    k in sys.server && k in sys.visible && sys.snapped && k !in sys.missing ==>
      k in sys.client || AddedFirst(Pending(sys), k)
  }

  ghost predicate Inv(sys: Sys) {
    && (!sys.registered ==> sys.queue == [] && !sys.snapped)
    && About(Ahead(sys), sys.server.Keys) && About(sys.queue, sys.server.Keys * sys.visible)
    && sys.client.Keys <= sys.server.Keys * sys.visible
    && (forall k :: Reachable(sys, k))
    && (forall k, f :: Settled(sys, k, f))
  }

  lemma PendingSnoc(sys: Sys, sys2: Sys, e: Event)
    requires sys2.queue == sys.queue && sys2.visible == sys.visible
    requires sys2.hand == sys.hand && sys2.channel == sys.channel + [e]
    ensures Ahead(sys2) == Ahead(sys) + [e]
    ensures Sees(sys.visible, e) ==> Pending(sys2) == Pending(sys) + [e]
    ensures !Sees(sys.visible, e) ==> Pending(sys2) == Pending(sys)
  {
    assert Ahead(sys2) == Ahead(sys) + [e];
    FilteredSnoc(sys.visible, Ahead(sys), e);
  }

  /** One more event ahead is about one more session at most. */
  lemma AboutMore(sys: Sys, sys2: Sys, e: Event, keys: set<string>)
    requires sys2.hand == sys.hand && sys2.channel == sys.channel + [e] && About(Ahead(sys), keys)
    ensures About(Ahead(sys2), keys + if e.Noise? then {} else {e.key})
  {
    assert Ahead(sys2) == Ahead(sys) + [e];
  }

  // ---- every step keeps the invariant -------------------------------------------------------------

  ghost predicate Truthful(r: SessionState, sent: Option<Changes>) {
    sent.Some? ==> forall f :: Names(sent.value, f) ==> Carried(sent.value, f) == Get(ViewOf(r), f)
  }

  lemma StaleAfter(sys: Sys, key: string, r: SessionState, sent: Option<Changes>, k: string, f: Field)
    requires key in sys.server
    ensures (k, f) in Change(sys, key, r, sent).stale <==>
              || (k == key && Omits(ViewOf(sys.server[key]), ViewOf(r), sent, f))
              || ((k, f) in sys.stale && !(k == key && Announced(sent, f)))
  {
    hide Omits, Announced;
  }

  lemma ChangeSettles(sys: Sys, key: string, r: SessionState, sent: Option<Changes>, k: string, f: Field)
    requires key in sys.server && Truthful(r, sent) && Settled(sys, k, f)
    ensures Settled(Change(sys, key, r, sent), k, f)
  {
    hide Names, Carried, Get, ViewOf, Filtered, LastWrite, AnnouncedFields, OmittedFields;
    var sys2 := Change(sys, key, r, sent);
    StaleAfter(sys, key, r, sent, k, f);
    if sent.Some? {
      PendingSnoc(sys, sys2, Delta(key, sent.value));
      LastWriteSnoc(Pending(sys), Delta(key, sent.value), k, f);
    } else {
      assert Pending(sys2) == Pending(sys);
    }
  }

  /** Only the keys of new events can be new, and events are sent about known sessions only. */
  lemma AboutPending(sys: Sys)
    requires About(Ahead(sys), sys.server.Keys) && About(sys.queue, sys.server.Keys * sys.visible)
    ensures About(Pending(sys), sys.server.Keys * sys.visible)
  {
    FilteredAbout(sys.visible, Ahead(sys), sys.server.Keys);
  }

  lemma ChangeKeepsInv(sys: Sys, key: string, r: SessionState, sent: Option<Changes>)
    requires Inv(sys) && key in sys.server && Truthful(r, sent)
    ensures Inv(Change(sys, key, r, sent))
  {
    hide Names, Carried, Get, ViewOf, Settled, Reachable, AnnouncedFields, OmittedFields, Truthful;
    var sys2 := Change(sys, key, r, sent);
    assert sys2.server.Keys == sys.server.Keys;
    if sent.Some? {
      AboutMore(sys, sys2, Delta(key, sent.value), sys.server.Keys);
    } else {
      assert Ahead(sys2) == Ahead(sys);
    }
    forall k, f
      ensures Settled(sys2, k, f)
    {
      ChangeSettles(sys, key, r, sent, k, f);
    }
    forall k
      ensures Reachable(sys2, k)
    {
      ChangeReaches(sys, key, r, sent, k);
    }
  }

  lemma ChangeReaches(sys: Sys, key: string, r: SessionState, sent: Option<Changes>, k: string)
    requires key in sys.server && Reachable(sys, k)
    ensures Reachable(Change(sys, key, r, sent), k)
  {
    hide Names, ViewOf, AnnouncedFields, OmittedFields, Filtered, AddedFirst;
    var sys2 := Change(sys, key, r, sent);
    if sent.Some? {
      PendingSnoc(sys, sys2, Delta(key, sent.value));
      AddedFirstSnoc(Pending(sys), Delta(key, sent.value), k);
    } else {
      assert Pending(sys2) == Pending(sys);
    }
  }

  lemma ActKeepsInv(sys: Sys, key: string, op: Op)
    requires Inv(sys) && key in sys.server
    ensures Inv(ActStep(sys, key, op))
  {
    var r := Next(sys.server[key], op);
    var sent := Sent(sys, Notice(sys.server[key], op));
    assert Truthful(r, sent) by {
      hide Inv, Next, Notice, Names, Carried, Get, ViewOf;
      forall f | sent.Some? && Names(sent.value, f)
        ensures Carried(sent.value, f) == Get(ViewOf(r), f)
      {
        NoticeCarries(sys.server[key], op, f);
      }
    }
    hide *;
    ChangeKeepsInv(sys, key, r, sent);
  }

  lemma CreateSettles(sys: Sys, key: string, s: SessionState, k: string, f: Field)
    requires key !in sys.server && Settled(sys, k, f) && About(Pending(sys), sys.server.Keys)
    ensures Settled(CreateStep(sys, key, s), k, f)
  {
    hide Get, ViewOf, Pending, LastWrite;
    var sys2 := CreateStep(sys, key, s);
    CreateWrites(sys, key, s, k, f);
    if k == key {
      assert Current(sys2, k, f) == Get(ViewOf(s), f);
      assert |sys.channel| >= CHANNEL_SIZE ==> key in sys2.missing;
    } else if k in sys.server {
      assert Current(sys2, k, f) == Current(sys, k, f);
      hide Current;
    }
  }

  /** Creating a session writes all its fields, or none if the announcement is dropped. */
  lemma CreateWrites(sys: Sys, key: string, s: SessionState, k: string, f: Field)
    requires key !in sys.server && About(Pending(sys), sys.server.Keys)
    ensures var last := LastWrite(Pending(CreateStep(sys, key, s)), k, f);
            if k != key then last == LastWrite(Pending(sys), k, f)
            else if |sys.channel| < CHANNEL_SIZE && key in sys.visible then last == Some(Get(ViewOf(s), f))
            else last == None
  {
    hide Get, ViewOf, Filtered, LastWrite;
    var sys2 := CreateStep(sys, key, s);
    var e := Added(key, ViewOf(s));
    if k == key {
      NeverWritten(Pending(sys), sys.server.Keys, k, f);
    }
    if |sys.channel| < CHANNEL_SIZE {
      PendingSnoc(sys, sys2, e);
      LastWriteSnoc(Pending(sys), e, k, f);
    } else {
      assert Pending(sys2) == Pending(sys);
    }
  }

  lemma {:induction false} NeverWritten(events: seq<Event>, keys: set<string>, k: string, f: Field)
    requires About(events, keys) && k !in keys
    ensures LastWrite(events, k, f) == None
  {
    if events != [] {
      assert About(events[1..], keys);
      NeverWritten(events[1..], keys, k, f);
      assert events[0].Noise? || events[0].key in keys;
    }
  }

  lemma CreateKeepsInv(sys: Sys, key: string, s: SessionState)
    requires Inv(sys) && key !in sys.server
    ensures Inv(CreateStep(sys, key, s))
  {
    hide Names, Carried, Get, ViewOf, Settled, Reachable, Filtered;
    var sys2 := CreateStep(sys, key, s);
    AboutPending(sys);
    if |sys.channel| < CHANNEL_SIZE {
      AboutMore(sys, sys2, Added(key, ViewOf(s)), sys.server.Keys);
    } else {
      assert Ahead(sys2) == Ahead(sys);
    }
    forall k, f
      ensures Settled(sys2, k, f)
    {
      CreateSettles(sys, key, s, k, f);
    }
    forall k
      ensures Reachable(sys2, k)
    {
      CreateReaches(sys, key, s, k);
    }
  }

  lemma CreateReaches(sys: Sys, key: string, s: SessionState, k: string)
    requires key !in sys.server && Reachable(sys, k) && About(Pending(sys), sys.server.Keys)
    ensures Reachable(CreateStep(sys, key, s), k)
  {
    hide ViewOf, Filtered, AddedFirst;
    var sys2 := CreateStep(sys, key, s);
    var e := Added(key, ViewOf(s));
    if |sys.channel| < CHANNEL_SIZE {
      PendingSnoc(sys, sys2, e);
      AddedFirstSnoc(Pending(sys), e, k);
    } else {
      assert Pending(sys2) == Pending(sys);
    }
  }

  lemma ChatterKeepsInv(sys: Sys)
    requires Inv(sys)
    ensures Inv(Enqueue(sys, Noise))
  {
    if |sys.channel| < CHANNEL_SIZE {
      var sys2 := Enqueue(sys, Noise);
      PendingSnoc(sys, sys2, Noise);
      hide Get, ViewOf, Pending, LastWrite, AddedFirst;
      forall k, f
        ensures Settled(sys2, k, f)
      {
        LastWriteSnoc(Pending(sys), Noise, k, f);
        assert Settled(sys, k, f);
      }
      forall k
        ensures Reachable(sys2, k)
      {
        AddedFirstSnoc(Pending(sys), Noise, k);
        assert Reachable(sys, k);
      }
    }
  }

  lemma RegisterKeepsInv(sys: Sys)
    requires Inv(sys)
    ensures Inv(sys.(registered := true))
  {
    hide Get, ViewOf, LastWrite, AddedFirst, Filtered;
    var sys2 := sys.(registered := true);
    assert Pending(sys2) == Pending(sys);
    assert forall k, f :: Settled(sys, k, f) ==> Settled(sys2, k, f);
    assert forall k :: Reachable(sys, k) ==> Reachable(sys2, k);
  }

  /** Taking an event leaves it on its way. */
  lemma TakeMoves(sys: Sys)
    requires sys.hand.None? && sys.channel != []
    ensures Ahead(TakeStep(sys)) == Ahead(sys) && Pending(TakeStep(sys)) == Pending(sys)
  {
    assert [sys.channel[0]] + sys.channel[1..] == [] + sys.channel;
  }

  lemma FilteredFirst(visible: set<string>, e: Event, rest: seq<Event>)
    ensures Filtered(visible, [e] + rest) == (if Sees(visible, e) then [e] else []) + Filtered(visible, rest)
  {
    assert ([e] + rest)[1..] == rest;
    hide Sees;
  }

  /** Putting it moves it along, or forgets it when nobody is connected. */
  lemma PutMoves(sys: Sys)
    requires sys.hand.Some? && (!sys.registered ==> sys.queue == [])
    ensures Pending(PutStep(sys)) == Pending(sys)
         || (!sys.registered && Pending(sys) != [] && Pending(PutStep(sys)) == Pending(sys)[1..])
  {
    var e, rest := sys.hand.value, Filtered(sys.visible, sys.channel);
    FilteredFirst(sys.visible, e, sys.channel);
    assert [] + sys.channel == sys.channel;
    hide Filtered, Sees;
    if Sees(sys.visible, e) {
      assert Pending(sys) == sys.queue + ([e] + rest);
      assert sys.queue + ([e] + rest) == (sys.queue + [e]) + rest;
    } else {
      assert Pending(sys) == sys.queue + rest;
    }
  }

  lemma PutIsAbout(sys: Sys)
    requires sys.hand.Some? && About(Ahead(sys), sys.server.Keys) && About(sys.queue, sys.server.Keys * sys.visible)
    ensures About(Ahead(PutStep(sys)), sys.server.Keys) && About(PutStep(sys).queue, sys.server.Keys * sys.visible)
  {
    var ahead, e := Ahead(sys), sys.hand.value;
    assert ahead[0] == e && ahead[1..] == sys.channel && [] + sys.channel == sys.channel;
    assert About([e], sys.server.Keys) && About(sys.channel, sys.server.Keys);
    hide Ahead, Sees;
    if PutStep(sys).queue == sys.queue + [e] {
      assert About([e], sys.server.Keys * sys.visible) by {
        assert Sees(sys.visible, e);
      }
    }
  }

  /** The hub moves events; the rest of the state stays, and nothing new is on its way. */
  predicate Moved(sys: Sys, sys2: Sys) {
    && sys2.server == sys.server && sys2.visible == sys.visible && sys2.client == sys.client
    && sys2.snapped == sys.snapped && sys2.registered == sys.registered
    && sys2.stale == sys.stale && sys2.missing == sys.missing
    && (Pending(sys2) == Pending(sys) || (!sys.registered && Pending(sys) != [] && Pending(sys2) == Pending(sys)[1..]))
  }

  lemma MovedSettles(sys: Sys, sys2: Sys, k: string, f: Field)
    requires Moved(sys, sys2) && (!sys.registered ==> !sys.snapped) && Settled(sys, k, f) && Reachable(sys, k)
    ensures Settled(sys2, k, f) && Reachable(sys2, k)
  {
    hide Get, ViewOf, Pending, AddedFirst, Touch;
  }

  lemma MovedKeepsInv(sys: Sys, sys2: Sys)
    requires Inv(sys) && Moved(sys, sys2) && (!sys.registered ==> sys2.queue == [])
    requires About(Ahead(sys2), sys.server.Keys) && About(sys2.queue, sys.server.Keys * sys.visible)
    ensures Inv(sys2)
  {
    hide Settled, Reachable, About, Pending, Ahead;
    forall k, f
      ensures Settled(sys2, k, f)
    {
      assert Settled(sys, k, f) && Reachable(sys, k);
      MovedSettles(sys, sys2, k, f);
    }
    forall k
      ensures Reachable(sys2, k)
    {
      assert Settled(sys, k, Pid) && Reachable(sys, k);
      MovedSettles(sys, sys2, k, Pid);
    }
  }

  lemma TakeKeepsInv(sys: Sys)
    requires Inv(sys) && sys.hand.None? && sys.channel != []
    ensures Inv(TakeStep(sys))
  {
    TakeMoves(sys);
    hide Pending, Ahead, Settled, Reachable, About;
    MovedKeepsInv(sys, TakeStep(sys));
  }

  lemma PutKeepsInv(sys: Sys)
    requires Inv(sys) && sys.hand.Some?
    ensures Inv(PutStep(sys))
  {
    PutMoves(sys);
    PutIsAbout(sys);
    hide Pending, Ahead, About, Sees, Settled, Reachable;
    MovedKeepsInv(sys, PutStep(sys));
  }

  lemma SnapshotKeepsInv(sys: Sys)
    requires Inv(sys) && sys.registered
    ensures Inv(SnapshotStep(sys))
  {
    hide Get, ViewOf, Filtered, AddedFirst, LastWrite;
    var sys2 := SnapshotStep(sys);
    assert Pending(sys2) == Pending(sys);
    forall k, f
      ensures Settled(sys2, k, f)
    {
      assert Settled(sys, k, f);
    }
    assert forall k :: Reachable(sys2, k);
  }

  lemma ReceivedField(client: Known, e: Event, k: string, f: Field)
    requires k in client
    ensures k in Receive(client, e) && Get(Receive(client, e)[k], f) == Touch(e, k, f).GetOr<Value>(Get(client[k], f))
  {
    if e.Delta? && e.key == k {
      PatchedField(client[k], e.changes, f);
    }
    hide Get, Names, Carried, Patched;
  }

  lemma DeliverSettles(sys: Sys, k: string, f: Field)
    requires sys.snapped && sys.queue != [] && Settled(sys, k, f) && Reachable(sys, k)
    ensures Settled(DeliverStep(sys), k, f)
  {
    var sys2, e := DeliverStep(sys), sys.queue[0];
    assert Pending(sys2) == Pending(sys)[1..] && Pending(sys)[0] == e;
    LastWriteHead(Pending(sys), k, f);
    hide Get, ViewOf, Pending, Patched, Names, Carried, LastWrite;
    if k in sys.client {
      ReceivedField(sys.client, e, k, f);
      hide Touch, Receive, AddedFirst;
    } else if e.Added? && e.key == k {
      assert DeliverStep(sys).client[k] == e.view;
      hide AddedFirst;
    }
  }

  lemma DeliverReaches(sys: Sys, k: string)
    requires sys.snapped && sys.queue != [] && Reachable(sys, k)
    ensures Reachable(DeliverStep(sys), k)
  {
    var sys2, e := DeliverStep(sys), sys.queue[0];
    assert Pending(sys2) == Pending(sys)[1..] && Pending(sys)[0] == e;
    hide Patched, Pending;
  }

  lemma DeliverKeepsInv(sys: Sys)
    requires Inv(sys) && sys.snapped && sys.queue != []
    ensures Inv(DeliverStep(sys))
  {
    hide Patched, Settled, Reachable;
    var sys2 := DeliverStep(sys);
    assert sys.queue[0].Noise? || sys.queue[0].key in sys.server.Keys * sys.visible;
    forall k, f
      ensures Settled(sys2, k, f)
    {
      DeliverSettles(sys, k, f);
    }
    forall k
      ensures Reachable(sys2, k)
    {
      DeliverReaches(sys, k);
    }
  }

  lemma NextKeepsInv(sys: Sys, step: Step)
    requires Inv(sys)
    ensures Inv(NextSys(sys, step))
  {
    assert !sys.registered ==> !sys.snapped;
    hide Inv;
    match step
    case Act(key, op) => if key in sys.server { ActKeepsInv(sys, key, op); }
    case Create(key, s) => if key !in sys.server { CreateKeepsInv(sys, key, s); }
    case Chatter => ChatterKeepsInv(sys);
    case Register => RegisterKeepsInv(sys);
    case Take => if sys.hand.None? && sys.channel != [] { TakeKeepsInv(sys); }
    case Put => if sys.hand.Some? { PutKeepsInv(sys); }
    case Snapshot => if sys.registered && !sys.snapped { SnapshotKeepsInv(sys); }
    case Deliver => if sys.snapped && sys.queue != [] { DeliverKeepsInv(sys); }
  }

  lemma {:induction false} RunKeepsInv(sys: Sys, steps: seq<Step>)
    requires Inv(sys)
    ensures Inv(RunSys(sys, steps))
    decreases |steps|
  {
    hide Inv, NextSys;
    if steps != [] {
      NextKeepsInv(sys, steps[0]);
      RunKeepsInv(NextSys(sys, steps[0]), steps[1..]);
    }
  }

  // ---- convergence ------------------------------------------------------------------------------------

  lemma StartIsInv(server: map<string, SessionState>, visible: set<string>)
    ensures Inv(Start(server, visible))
  {
  }

  predicate Drained(sys: Sys) {
    sys.snapped && sys.queue == [] && sys.hand.None? && sys.channel == []
  }

  /**
   * However the manager, the hub and the connection interleave, once nothing is on
   * its way the client knows visible sessions only, it knows all of them whose
   * announcement was not dropped, and every field that is not stale has the
   * server's value.
   */
  lemma ClientConverges(server: map<string, SessionState>, visible: set<string>, steps: seq<Step>, k: string, f: Field)
    requires Drained(RunSys(Start(server, visible), steps))
    ensures var sys := RunSys(Start(server, visible), steps);
            && sys.client.Keys <= sys.server.Keys * sys.visible
            && (k in sys.server && k in sys.visible && k !in sys.missing ==> k in sys.client)
            && (k in sys.client && k !in sys.missing && (k, f) !in sys.stale ==>
                  Get(sys.client[k], f) == Current(sys, k, f))
  {
    var sys := RunSys(Start(server, visible), steps);
    StartIsInv(server, visible);
    RunKeepsInv(Start(server, visible), steps);
    hide RunSys, Start, Get, ViewOf;
    assert Pending(sys) == [];
    assert Reachable(sys, k) && Settled(sys, k, f);
  }

  /** No notification finds the channel full. */
  predicate Lossless(sys: Sys, steps: seq<Step>)
    decreases |steps|
  {
    steps != [] ==>
      && (steps[0].Act? || steps[0].Create? ==> |sys.channel| < CHANNEL_SIZE)
      && Lossless(NextSys(sys, steps[0]), steps[1..])
  }

  /** The fields a process scan may change without saying so. */
  predicate ScanField(f: Field) {
    f.StatusField? || f.Terminal? || f.ProcessCreateTimeMs?
  }

  lemma NothingOmitted(s: SessionState, op: Op, f: Field)
    requires !op.PidOp?
    ensures !Omits(ViewOf(s), ViewOf(Next(s, op)), Notice(s, op), f)
  {
    NoticeIsExact(s, op);
    hide Next, Notice, ViewOf, Names, Get, Patched;
    if Notice(s, op).Some? {
      PatchedField(ViewOf(s), Notice(s, op).value, f);
    }
  }

  lemma OnlyScansOmit(s: SessionState, op: Op, f: Field)
    requires Omits(ViewOf(s), ViewOf(Next(s, op)), Notice(s, op), f)
    ensures op.PidOp? && ScanField(f)
  {
    if !op.PidOp? {
      NothingOmitted(s, op, f);
    }
  }

  /** A scan update of a known session changes no field that its notice leaves out. */
  predicate ExactStep(sys: Sys, step: Step) {
    step.Act? && step.op.PidOp? && step.key in sys.server ==> !PidNoticeOmits(sys.server[step.key], step.op.info)
  }

  /** An exact scan update omits nothing. */
  lemma ExactScanOmitsNothing(s: SessionState, op: Op, f: Field)
    requires op.PidOp? && !PidNoticeOmits(s, op.info)
    ensures !Omits(ViewOf(s), ViewOf(Next(s, op)), Notice(s, op), f)
  {
    PidNoticeExactIff(s, op.info, op.now);
    assert op == PidOp(op.info, op.now);
    hide Next, Notice, ViewOf, Names, Get, Patched, PidNoticeOmits;
    if Notice(s, op).Some? {
      PatchedField(ViewOf(s), Notice(s, op).value, f);
    }
  }

  lemma StepStaysFresh(sys: Sys, step: Step)
    requires sys.missing == {} && (step.Act? || step.Create? ==> |sys.channel| < CHANNEL_SIZE)
    ensures NextSys(sys, step).missing == {}
    ensures forall p :: p in NextSys(sys, step).stale ==> p in sys.stale || (!ExactStep(sys, step) && ScanField(p.1))
  {
    if step.Act? && step.key in sys.server {
      var s := sys.server[step.key];
      var sent := Notice(s, step.op);
      hide Next, ViewOf, Notice, Names, Get, PidNoticeOmits;
      forall p | p in NextSys(sys, step).stale && p !in sys.stale
        ensures !ExactStep(sys, step) && ScanField(p.1)
      {
        StaleAfter(sys, step.key, Next(s, step.op), sent, p.0, p.1);
        OnlyScansOmit(s, step.op, p.1);
        if ExactStep(sys, step) {
          ExactScanOmitsNothing(s, step.op, p.1);
        }
      }
    }
  }

  /** Without drops, only inexact scan updates make a field stale, and only three fields. */
  lemma {:induction false} LosslessStaysFresh(sys: Sys, steps: seq<Step>)
    requires Lossless(sys, steps) && sys.missing == {} && forall p :: p in sys.stale ==> ScanField(p.1)
    ensures RunSys(sys, steps).missing == {} && forall p :: p in RunSys(sys, steps).stale ==> ScanField(p.1)
    ensures sys.stale == {} && Exact(sys, steps) ==> RunSys(sys, steps).stale == {}
    decreases |steps|
  {
    if steps != [] {
      StepStaysFresh(sys, steps[0]);
      hide NextSys, ExactStep;
      LosslessStaysFresh(NextSys(sys, steps[0]), steps[1..]);
    }
  }

  /** Every scan update along the run is exact. */
  predicate Exact(sys: Sys, steps: seq<Step>)
    decreases |steps|
  {
    steps != [] ==> ExactStep(sys, steps[0]) && Exact(NextSys(sys, steps[0]), steps[1..])
  }

  /**
   * Snapshot and overlapping deltas: in a run without drops whose scan updates bring
   * back no session and find no new terminal or creation time, a drained client
   * holds exactly the visible sessions as they are.
   */
  lemma SnapshotAndDeltasConverge(server: map<string, SessionState>, visible: set<string>, steps: seq<Step>)
    requires Lossless(Start(server, visible), steps) && Exact(Start(server, visible), steps)
    requires Drained(RunSys(Start(server, visible), steps))
    ensures RunSys(Start(server, visible), steps).client == VisibleViews(RunSys(Start(server, visible), steps))
  {
    var sys := RunSys(Start(server, visible), steps);
    LosslessStaysFresh(Start(server, visible), steps);
    hide RunSys, Start, Get, ViewOf, Lossless, Exact;
    forall k
      ensures k in sys.client <==> k in sys.server && k in sys.visible
      ensures k in sys.client ==> sys.client[k] == ViewOf(sys.server[k])
    {
      ClientConverges(server, visible, steps, k, Pid);
      if k in sys.client {
        forall f
          ensures Get(sys.client[k], f) == Get(ViewOf(sys.server[k]), f)
        {
          ClientConverges(server, visible, steps, k, f);
        }
        ViewsEqual(sys.client[k], ViewOf(sys.server[k]));
      }
    }
  }

  /** With process scans, at most the status, the terminal and the creation time can differ. */
  lemma OnlyScanFieldsDiverge(server: map<string, SessionState>, visible: set<string>, steps: seq<Step>,
                              k: string, f: Field)
    requires Lossless(Start(server, visible), steps) && !ScanField(f)
    requires Drained(RunSys(Start(server, visible), steps)) && k in RunSys(Start(server, visible), steps).client
    ensures k in RunSys(Start(server, visible), steps).server
    ensures var sys := RunSys(Start(server, visible), steps);
            Get(sys.client[k], f) == Current(sys, k, f)
  {
    LosslessStaysFresh(Start(server, visible), steps);
    ClientConverges(server, visible, steps, k, f);
  }

  // ---- what is conserved --------------------------------------------------------------------------------

  /** The client after these events. */
  function Arrived(client: Known, events: seq<Event>): Known
    decreases |events|
  {
    if events == [] then client else Arrived(Receive(client, events[0]), events[1..])
  }

  lemma {:induction false} ArrivedConcat(client: Known, a: seq<Event>, b: seq<Event>)
    ensures Arrived(client, a + b) == Arrived(Arrived(client, a), b)
    decreases |a|
  {
    hide Receive;
    if a == [] {
      assert a + b == b;
    } else {
      assert (a + b)[1..] == a[1..] + b;
      ArrivedConcat(Receive(client, a[0]), a[1..], b);
    }
  }

  /** What the client will hold once everything on its way has arrived. */
  function Flushed(sys: Sys): Known {
    Arrived(sys.client, Pending(sys))
  }

  /** The event a step gives to a channel that holds fewer than 256. */
  function Emitted(sys: Sys, step: Step): seq<Event> {
    if |sys.channel| >= 256 then []
    else
      match step
      case Act(key, op) =>
        if key in sys.server && Notice(sys.server[key], op).Some? then [Delta(key, Notice(sys.server[key], op).value)]
        else []
      case Create(key, s) => if key in sys.server then [] else [Added(key, ViewOf(s))]
      case Chatter => [Noise]
      case _ => []
  }

  function AllEmitted(sys: Sys, steps: seq<Step>): seq<Event>
    decreases |steps|
  {
    if steps == [] then [] else Emitted(sys, steps[0]) + AllEmitted(NextSys(sys, steps[0]), steps[1..])
  }

  lemma {:induction false} FilteredConcat(visible: set<string>, a: seq<Event>, b: seq<Event>)
    ensures Filtered(visible, a + b) == Filtered(visible, a) + Filtered(visible, b)
  {
    hide Sees;
    if a == [] {
      assert a + b == b;
    } else {
      var head := if Sees(visible, a[0]) then [a[0]] else [];
      assert (a + b)[1..] == a[1..] + b && (a + b)[0] == a[0];
      FilteredConcat(visible, a[1..], b);
      assert head + (Filtered(visible, a[1..]) + Filtered(visible, b))
             == (head + Filtered(visible, a[1..])) + Filtered(visible, b);
    }
  }

  /** A step adds what it emits, and only what the user may see, to what is on its way. */
  lemma StepConserves(sys: Sys, step: Step)
    requires sys.registered && sys.snapped
    ensures var sys2 := NextSys(sys, step);
            && sys2.registered && sys2.snapped && sys2.visible == sys.visible
            && Flushed(sys2) == Arrived(Flushed(sys), Filtered(sys.visible, Emitted(sys, step)))
  {
    var sys2, emitted := NextSys(sys, step), Emitted(sys, step);
    hide Filtered, Receive, Arrived, OmittedFields, AnnouncedFields, Next, Notice, ViewOf, Sees;
    match step
    case Act(_, _) => SendConserves(sys, sys2, emitted);
    case Create(_, _) => SendConserves(sys, sys2, emitted);
    case Chatter => SendConserves(sys, sys2, emitted);
    case Take =>
      if sys.hand.None? && sys.channel != [] { TakeMoves(sys); }
      SendConserves(sys, sys, []);
    case Put =>
      if sys.hand.Some? { PutMoves(sys); }
      SendConserves(sys, sys, []);
    case Deliver =>
      if sys.queue != [] { DeliverConserves(sys); }
      SendConserves(sys, sys, []);
    case _ => SendConserves(sys, sys, []);
  }

  lemma SendConserves(sys: Sys, sys2: Sys, emitted: seq<Event>)
    requires sys2.channel == sys.channel + emitted && sys2.queue == sys.queue && sys2.hand == sys.hand
    requires sys2.visible == sys.visible && sys2.client == sys.client
    ensures Flushed(sys2) == Arrived(Flushed(sys), Filtered(sys.visible, emitted))
  {
    hide Filtered, Receive, Arrived;
    assert Ahead(sys2) == Ahead(sys) + emitted;
    FilteredConcat(sys.visible, Ahead(sys), emitted);
    assert Pending(sys2) == Pending(sys) + Filtered(sys.visible, emitted);
    ArrivedConcat(sys.client, Pending(sys), Filtered(sys.visible, emitted));
  }

  lemma DeliverConserves(sys: Sys)
    requires sys.queue != []
    ensures Flushed(DeliverStep(sys)) == Flushed(sys)
  {
    assert Pending(sys)[0] == sys.queue[0] && Pending(DeliverStep(sys)) == Pending(sys)[1..];
    hide Pending, Receive;
  }

  /**
   * Nothing is lost, repeated or reordered between channel and client: whatever the
   * interleaving, what a connected client holds and is about to get is what it held
   * and was about to get, followed by the events since then that found room in the
   * channel and that its user may see, in order.
   */
  lemma {:induction false} NothingLostOnTheWay(sys: Sys, steps: seq<Step>)
    requires sys.registered && sys.snapped
    ensures Flushed(RunSys(sys, steps)) == Arrived(Flushed(sys), Filtered(sys.visible, AllEmitted(sys, steps)))
    decreases |steps|
  {
    hide Flushed, NextSys, Emitted, Receive;
    if steps != [] {
      var sys2, rest := NextSys(sys, steps[0]), AllEmitted(NextSys(sys, steps[0]), steps[1..]);
      StepConserves(sys, steps[0]);
      NothingLostOnTheWay(sys2, steps[1..]);
      FilteredConcat(sys.visible, Emitted(sys, steps[0]), rest);
      ArrivedConcat(Flushed(sys), Filtered(sys.visible, Emitted(sys, steps[0])), Filtered(sys.visible, rest));
    }
  }

  /** A session's record as the manager's own steps make it. */
  function RecordAfter(record: Option<SessionState>, steps: seq<Step>, k: string): Option<SessionState>
    decreases |steps|
  {
    if steps == [] then record
    else
      var next := match steps[0]
                  case Act(key, op) => if key == k && record.Some? then Some(Next(record.value, op)) else record
                  case Create(key, s) => if key == k && record.None? then Some(s) else record
                  case _ => record;
      RecordAfter(next, steps[1..], k)
  }

  function RecordOf(sys: Sys, k: string): Option<SessionState> {
    if k in sys.server then Some(sys.server[k]) else None
  }

  /** Hub and connection have no part in it. */
  lemma {:induction false} ServerOnItsOwn(sys: Sys, steps: seq<Step>, k: string)
    ensures RecordOf(RunSys(sys, steps), k) == RecordAfter(RecordOf(sys, k), steps, k)
    decreases |steps|
  {
    hide Next, Notice, OmittedFields, AnnouncedFields, ViewOf, Sees, Receive, VisibleViews, LastWrite;
    if steps != [] {
      ServerOnItsOwn(NextSys(sys, steps[0]), steps[1..], k);
    }
  }

  /** The channel holds at most 256 events, and so does the client's queue. */
  lemma {:induction false} BuffersAreBounded(sys: Sys, steps: seq<Step>)
    requires |sys.channel| <= 256 && |sys.queue| <= 256
    ensures |RunSys(sys, steps).channel| <= 256 && |RunSys(sys, steps).queue| <= 256
    decreases |steps|
  {
    hide Next, Notice, OmittedFields, AnnouncedFields, ViewOf, Sees, Receive, VisibleViews, LastWrite;
    if steps != [] {
      BuffersAreBounded(NextSys(sys, steps[0]), steps[1..]);
    }
  }

  /** The hub registers nobody while it waits with an event in hand. */
  lemma RegisterWaits(sys: Sys)
    ensures NextSys(sys, Register) == if sys.hand.Some? then sys else sys.(registered := true)
  {
  }

  /** A snapshot shows the visible sessions as they are; only what is on its way can still set them back. */
  lemma SnapshotIsCurrent(sys: Sys)
    requires sys.registered && !sys.snapped
    ensures var sys2 := NextSys(sys, Snapshot);
            && sys2.snapped && sys2.missing == {} && Pending(sys2) == Pending(sys)
            && (forall k :: k in sys2.client <==> k in sys.server && k in sys.visible)
            && (forall k :: k in sys2.client ==> sys2.client[k] == ViewOf(sys.server[k]))
            && forall k, f :: (k, f) in sys2.stale <==> (k, f) in sys.stale && LastWrite(Pending(sys), k, f).Some?
  {
  }

  // ---- a client catches up ------------------------------------------------------------------------------

  /** A step of the hub or the connection. */
  predicate Moves(step: Step) {
    step.Register? || step.Take? || step.Put? || step.Snapshot? || step.Deliver?
  }

  predicate AllMove(steps: seq<Step>) {
    forall i :: 0 <= i < |steps| ==> Moves(steps[i])
  }

  lemma {:induction false} RunConcat(sys: Sys, a: seq<Step>, b: seq<Step>)
    ensures RunSys(sys, a + b) == RunSys(RunSys(sys, a), b)
    decreases |a|
  {
    hide NextSys;
    if a == [] {
      assert a + b == b;
    } else {
      assert (a + b)[1..] == a[1..] + b;
      RunConcat(NextSys(sys, a[0]), a[1..], b);
    }
  }

  /** The next such step of a state that is not drained, and how much is left to do. */
  function Move(sys: Sys): Step {
    if !sys.registered then if sys.hand.Some? then Put else Register
    else if !sys.snapped then Snapshot
    else if sys.queue != [] then Deliver
    else if sys.hand.Some? then Put
    else Take
  }

  function ToDo(sys: Sys): nat {
    (if sys.registered then 0 else 3) + (if sys.snapped then 0 else 1)
    + 3 * |sys.channel| + (if sys.hand.Some? then 2 else 0) + |sys.queue|
  }

  lemma MoveAdvances(sys: Sys)
    requires !Drained(sys)
    ensures Moves(Move(sys)) && ToDo(NextSys(sys, Move(sys))) < ToDo(sys)
    ensures NextSys(sys, Move(sys)).server == sys.server && NextSys(sys, Move(sys)).visible == sys.visible
  {
    hide Sees, Receive, VisibleViews, LastWrite;
  }

  /** From any state the hub and the connection alone, without the manager, get everything through. */
  lemma {:induction false} EveryStateDrains(sys: Sys) returns (steps: seq<Step>)
    ensures AllMove(steps) && Drained(RunSys(sys, steps))
    ensures RunSys(sys, steps).server == sys.server && RunSys(sys, steps).visible == sys.visible
    decreases ToDo(sys)
  {
    if Drained(sys) {
      steps := [];
    } else {
      MoveAdvances(sys);
      hide NextSys, Move, Moves;
      var rest := EveryStateDrains(NextSys(sys, Move(sys)));
      steps := [Move(sys)] + rest;
      RunOne(sys, Move(sys), rest);
    }
  }

  /**
   * Every run can catch up: by steps of the hub and the connection alone the client
   * comes to know every visible session as the server had it, but for the fields and
   * the announcements that were dropped or left out.
   */
  lemma EveryRunCatchesUp(server: map<string, SessionState>, visible: set<string>, steps: seq<Step>)
    returns (more: seq<Step>)
    ensures AllMove(more)
    ensures var was, sys := RunSys(Start(server, visible), steps), RunSys(Start(server, visible), steps + more);
            && sys.server == was.server && Drained(sys)
            && forall k, f :: k in was.server && k in visible && k !in sys.missing && (k, f) !in sys.stale ==>
                 k in sys.client && Get(sys.client[k], f) == Get(ViewOf(was.server[k]), f)
  {
    var was := RunSys(Start(server, visible), steps);
    more := EveryStateDrains(was);
    RunConcat(Start(server, visible), steps, more);
    VisibleStays(Start(server, visible), steps);
    hide RunSys, AllMove, Get, ViewOf;
    forall k, f | k in was.server && k in visible
      ensures var sys := RunSys(Start(server, visible), steps + more);
              k !in sys.missing && (k, f) !in sys.stale ==>
                k in sys.client && Get(sys.client[k], f) == Get(ViewOf(was.server[k]), f)
    {
      ClientConverges(server, visible, steps + more, k, f);
    }
  }

  lemma {:induction false} VisibleStays(sys: Sys, steps: seq<Step>)
    ensures RunSys(sys, steps).visible == sys.visible
    decreases |steps|
  {
    if steps != [] {
      assert NextSys(sys, steps[0]).visible == sys.visible;
      hide NextSys;
      VisibleStays(NextSys(sys, steps[0]), steps[1..]);
    }
  }

  lemma RunOne(sys: Sys, step: Step, rest: seq<Step>)
    ensures RunSys(sys, [step] + rest) == RunSys(NextSys(sys, step), rest) && RunSys(sys, []) == sys
  {
    assert ([step] + rest)[1..] == rest;
  }

  function Resurrection(k: string, op: Op): seq<Step> {
    [Register] + ([Snapshot] + ([Act(k, op)] + ([Take] + ([Put] + ([Deliver] + [])))))
  }

  /** One delta through an idle hub. */
  lemma DeltaArrives(sys: Sys, e: Event)
    requires sys.registered && sys.snapped && Sees(sys.visible, e)
    requires sys.queue == [] && sys.hand.None? && sys.channel == [e]
    ensures RunSys(sys, [Take] + ([Put] + ([Deliver] + []))) == sys.(channel := [], client := Receive(sys.client, e))
  {
    hide Receive, RunSys;
    var sys1 := NextSys(sys, Take);
    assert sys1 == sys.(hand := Some(e), channel := []);
    var sys2 := NextSys(sys1, Put);
    assert [] + [e] == [e];
    assert sys2 == sys.(channel := [], queue := [e]);
    var sys3 := NextSys(sys2, Deliver);
    assert sys3 == sys.(channel := [], client := Receive(sys.client, e));
    hide NextSys;
    RunOne(sys3, Deliver, []);
    RunOne(sys, Take, [Put] + ([Deliver] + []));
    RunOne(sys1, Put, [Deliver] + []);
    RunOne(sys2, Deliver, []);
  }

  /** And the status does: a client that watched a session come back still shows it disappeared. */
  lemma ResurrectionIsNotSeen(k: string, s: SessionState, info: ProcessInfo, now: int)
    requires s.status.Disappeared?
    ensures var sys := RunSys(Start(map[k := s], {k}), Resurrection(k, PidOp(info, now)));
            && Drained(sys) && k in sys.server && sys.server[k].status == Active
            && k in sys.client && sys.client[k].status == Disappeared
  {
    var op := PidOp(info, now);
    var r, c := Next(s, op), PidNotice(Next(s, op));
    assert r.status == Active && c.status.None? && Notice(s, op) == Some(c) && ViewOf(s).status == Disappeared;
    hide Next, Notice, ViewOf, PidNotice, PidUpdated, OmittedFields, AnnouncedFields, RunSys, LastWrite;
    var sys0 := Start(map[k := s], {k});
    var sys1 := NextSys(sys0, Register);
    var sys2 := NextSys(sys1, Snapshot);
    var sys3 := NextSys(sys2, Act(k, op));
    assert sys3.channel == [Delta(k, c)] && sys3.client == map[k := ViewOf(s)] && sys3.server[k] == r;
    DeltaArrives(sys3, Delta(k, c));
    assert Receive(sys3.client, Delta(k, c))[k].status == Disappeared;
    hide NextSys, Patched;
    RunOne(sys0, Register, [Snapshot] + ([Act(k, op)] + ([Take] + ([Put] + ([Deliver] + [])))));
    RunOne(sys1, Snapshot, [Act(k, op)] + ([Take] + ([Put] + ([Deliver] + []))));
    RunOne(sys2, Act(k, op), [Take] + ([Put] + ([Deliver] + [])));
  }
}
